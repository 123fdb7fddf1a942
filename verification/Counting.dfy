/** Counting the elements of sets and lists. */
module Counting {

  lemma {:induction false} SubsetSize<T>(a: set<T>, b: set<T>)
    requires a <= b
    ensures |a| <= |b|
  {
    if x :| x in a {
      SubsetSize(a - {x}, b - {x});
    }
  }

  lemma {:induction false} CountsOnce<T>(s: seq<T>, x: T)
    requires forall i, k :: 0 <= i < k < |s| ==> s[i] != s[k]
    ensures multiset(s)[x] <= 1
  {
    if s != [] {
      var n := |s| - 1;
      CountsOnce(s[..n], x);
      assert s == s[..n] + [s[n]];
      assert x == s[n] ==> x !in s[..n];
    }
  }

  /** Reordering a list without repeats makes none. */
  lemma NoRepeats<T>(s: seq<T>, t: seq<T>)
    requires forall i, k :: 0 <= i < k < |s| ==> s[i] != s[k]
    requires multiset(s) == multiset(t)
    ensures forall i, k :: 0 <= i < k < |t| ==> t[i] != t[k]
  {
    forall i, k | 0 <= i < k < |t| ensures t[i] != t[k] {
      CountsOnce(s, t[i]);
      assert t == t[..k] + [t[k]] + t[k + 1..];
      assert t[i] in multiset(t[..k]);
    }
  }

  /** An element counted twice stands in two places. */
  lemma {:induction false} StandsTwice<T>(s: seq<T>, x: T)
    requires 2 <= multiset(s)[x]
    ensures exists i, j :: 0 <= i < j < |s| && s[i] == x && s[j] == x
  {
    var n := |s| - 1;
    assert s == s[..n] + [s[n]];
    if s[n] == x {
      assert x in multiset(s[..n]);
      var i :| 0 <= i < n && s[..n][i] == x;
      assert s[i] == x && s[n] == x;
    } else {
      StandsTwice(s[..n], x);
      var i, j :| 0 <= i < j < n && s[..n][i] == x && s[..n][j] == x;
      assert s[i] == x && s[j] == x;
    }
  }
}
