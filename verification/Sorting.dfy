/** Sorting, as a specification the library sorts of the source stand for. */
module Sorting {

  /** Any two values compare, and comparisons chain. Two values may tie. */
  ghost predicate Ranks<T(!new)>(leq: (T, T) -> bool) {
    && (forall x, y :: leq(x, y) || leq(y, x))
    && (forall x, y, z :: leq(x, y) && leq(y, z) ==> leq(x, z))
  }

  /** No two different elements of `s` tie. */
  ghost predicate NoTies<T(!new)>(leq: (T, T) -> bool, s: seq<T>) {
    forall x, y :: x in s && y in s && leq(x, y) && leq(y, x) ==> x == y
  }

  ghost predicate SortedBy<T(!new)>(leq: (T, T) -> bool, s: seq<T>) {
    forall i, j :: 0 <= i < j < |s| ==> leq(s[i], s[j])
  }

  function Insert<T>(leq: (T, T) -> bool, x: T, s: seq<T>): seq<T> {
    if s == [] || leq(x, s[0]) then [x] + s else [s[0]] + Insert(leq, x, s[1..])
  }

  function Sort<T>(leq: (T, T) -> bool, s: seq<T>): seq<T> {
    if s == [] then [] else Insert(leq, s[0], Sort(leq, s[1..]))
  }

  lemma {:induction false} InsertKeepsElements<T>(leq: (T, T) -> bool, x: T, s: seq<T>)
    ensures multiset(Insert(leq, x, s)) == multiset(s) + multiset{x}
  {
    if s != [] && !leq(x, s[0]) {
      InsertKeepsElements(leq, x, s[1..]);
      assert s == [s[0]] + s[1..];
    }
  }

  lemma {:induction false} InsertSorts<T(!new)>(leq: (T, T) -> bool, x: T, s: seq<T>)
    requires Ranks(leq) && SortedBy(leq, s)
    ensures SortedBy(leq, Insert(leq, x, s))
  {
    if s != [] {
      if leq(x, s[0]) {
        forall i, j | 0 <= i < j < |[x] + s| ensures leq(([x] + s)[i], ([x] + s)[j]) {
          if i == 0 && 1 < j {
            assert leq(s[0], s[j - 1]);
          }
        }
      } else {
        var rest := Insert(leq, x, s[1..]);
        InsertSorts(leq, x, s[1..]);
        InsertKeepsElements(leq, x, s[1..]);
        forall j | 0 <= j < |rest| ensures leq(s[0], rest[j]) {
          assert rest[j] in multiset(rest);
          if rest[j] != x {
            assert rest[j] in s[1..];
          }
        }
      }
    }
  }

  /** Sorting keeps every element as often as it was there, and puts them in order. */
  lemma {:induction false} SortSorts<T(!new)>(leq: (T, T) -> bool, s: seq<T>)
    requires Ranks(leq)
    ensures SortedBy(leq, Sort(leq, s)) && multiset(Sort(leq, s)) == multiset(s)
  {
    if s != [] {
      SortSorts(leq, s[1..]);
      InsertSorts(leq, s[0], Sort(leq, s[1..]));
      InsertKeepsElements(leq, s[0], Sort(leq, s[1..]));
      assert s == [s[0]] + s[1..];
    }
  }

  lemma SameElements<T>(a: seq<T>, b: seq<T>, x: T)
    requires multiset(a) == multiset(b)
    ensures x in a <==> x in b
  {
    assert x in a <==> x in multiset(a);
    assert x in b <==> x in multiset(b);
  }

  lemma Least<T(!new)>(leq: (T, T) -> bool, a: seq<T>, x: T)
    requires Ranks(leq) && SortedBy(leq, a) && x in a
    ensures a != [] && leq(a[0], x)
  {
    var i :| 0 <= i < |a| && a[i] == x;
    if i == 0 {
      assert leq(x, x) || leq(x, x);
    }
  }

  lemma WithoutFirst<T>(a: seq<T>)
    requires a != []
    ensures multiset(a[1..]) == multiset(a) - multiset{a[0]}
  {
    assert a == [a[0]] + a[1..];
  }

  /** There is only one way to put given elements in order, if no two of them tie. */
  lemma {:induction false} SortedIsUnique<T(!new)>(leq: (T, T) -> bool, a: seq<T>, b: seq<T>)
    requires Ranks(leq) && SortedBy(leq, a) && SortedBy(leq, b) && multiset(a) == multiset(b)
    requires NoTies(leq, a)
    ensures a == b
  {
    if a == [] || b == [] {
      assert |multiset(a)| == |a| && |multiset(b)| == |b|;
    } else {
      WithoutFirst(a);
      WithoutFirst(b);
      SameElements(a, b, a[0]);
      SameElements(a, b, b[0]);
      Least(leq, a, b[0]);
      Least(leq, b, a[0]);
      SortedIsUnique(leq, a[1..], b[1..]);
      assert a == [a[0]] + a[1..] && b == [b[0]] + b[1..];
    }
  }

  /** So sorting does not depend on the order the elements arrive in. */
  lemma SortIgnoresInputOrder<T(!new)>(leq: (T, T) -> bool, a: seq<T>, b: seq<T>)
    requires Ranks(leq) && multiset(a) == multiset(b) && NoTies(leq, a)
    ensures Sort(leq, a) == Sort(leq, b)
  {
    SortSorts(leq, a);
    SortSorts(leq, b);
    forall x | x in Sort(leq, a) ensures x in a {
      SameElements(Sort(leq, a), a, x);
    }
    SortedIsUnique(leq, Sort(leq, a), Sort(leq, b));
  }
}
