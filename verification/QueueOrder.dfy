/** Who goes next (gpu_broker/fairshare.py `priority_of`, `order_queue`; gpu_broker/models.py `wait_hours`). */
module QueueOrder {
  import opened Wrappers
  import opened Ledger
  import FairShare
  import Sorting

  /** A queued job as the ordering sees it. A requeued job keeps the time of its first start. */
  datatype Entrant = Entrant(id: JobId, user: UserId, submittedAt: real, startedAt: Option<real>)

  datatype Weights = Weights(fair: real, age: real, ageMax: real)

  /** What the configuration check accepts. */
  predicate Sound(w: Weights) {
    0.0 <= w.fair && 0.0 < w.age && 0.0 < w.ageMax && w.fair <= w.age
  }

  function WaitHours(q: Entrant, now: real): real {
    var span := q.startedAt.GetOr(now) - q.submittedAt;
    if span < 0.0 then 0.0 else span
  }

  function Capped(x: real): real {
    if x < 1.0 then x else 1.0
  }

  function FairTerm(w: Weights, share: real): real {
    w.fair * (1.0 - share)
  }

  function AgeTerm(w: Weights, wait: real): real
    requires Sound(w)
  {
    w.age * Capped(wait / w.ageMax)
  }

  function Score(w: Weights, shares: map<UserId, real>, now: real, q: Entrant): real
    requires Sound(w)
  {
    FairTerm(w, FairShare.Lookup(shares, q.user)) + AgeTerm(w, WaitHours(q, now))
  }

  predicate Earlier(x: Entrant, y: Entrant) {
    x.submittedAt < y.submittedAt || (x.submittedAt == y.submittedAt && x.id <= y.id)
  }

  /** Highest score first; then submission time, then id. */
  predicate Leads(w: Weights, shares: map<UserId, real>, now: real, x: Entrant, y: Entrant)
    requires Sound(w)
  {
    var sx, sy := Score(w, shares, now, x), Score(w, shares, now, y);
    sx > sy || (sx == sy && Earlier(x, y))
  }

  function Order(w: Weights, shares: map<UserId, real>, now: real): (Entrant, Entrant) -> bool
    requires Sound(w)
  {
    (x, y) => Leads(w, shares, now, x, y)
  }

  /** `order_queue`. */
  function OrderQueue(w: Weights, shares: map<UserId, real>, now: real, jobs: seq<Entrant>): seq<Entrant>
    requires Sound(w)
  {
    Sorting.Sort(Order(w, shares, now), jobs)
  }

  ghost predicate DistinctIds(jobs: seq<Entrant>) {
    forall x, y :: x in jobs && y in jobs && x.id == y.id ==> x == y
  }

  lemma OrderRanks(w: Weights, shares: map<UserId, real>, now: real)
    requires Sound(w)
    ensures Sorting.Ranks(Order(w, shares, now))
  {
    var leq := Order(w, shares, now);
    forall x, y, z | leq(x, y) && leq(y, z) ensures leq(x, z) {
      LeadsChain(w, shares, now, x, y, z);
    }
  }

  lemma LeadsChain(w: Weights, shares: map<UserId, real>, now: real, x: Entrant, y: Entrant, z: Entrant)
    requires Sound(w) && Leads(w, shares, now, x, y) && Leads(w, shares, now, y, z)
    ensures Leads(w, shares, now, x, z)
  {
    RanksChain(Score(w, shares, now, x), Score(w, shares, now, y), Score(w, shares, now, z), x, y, z);
  }

  lemma RanksChain(sx: real, sy: real, sz: real, x: Entrant, y: Entrant, z: Entrant)
    requires sx > sy || (sx == sy && Earlier(x, y))
    requires sy > sz || (sy == sz && Earlier(y, z))
    ensures sx > sz || (sx == sz && Earlier(x, z))
  {
  }

  /** The queue is every waiting job once, highest first, and does not depend on
      the order the rows were read in. */
  lemma OneQueue(w: Weights, shares: map<UserId, real>, now: real, jobs: seq<Entrant>, shuffled: seq<Entrant>)
    requires Sound(w) && DistinctIds(jobs) && multiset(jobs) == multiset(shuffled)
    ensures OrderQueue(w, shares, now, jobs) == OrderQueue(w, shares, now, shuffled)
    ensures multiset(OrderQueue(w, shares, now, jobs)) == multiset(jobs)
    ensures var q := OrderQueue(w, shares, now, jobs);
            forall i, j :: 0 <= i < j < |q| ==> Leads(w, shares, now, q[i], q[j])
  {
    var leq := Order(w, shares, now);
    OrderRanks(w, shares, now);
    Sorting.SortSorts(leq, jobs);
    forall x, y | x in jobs && y in jobs && leq(x, y) && leq(y, x) ensures x == y {
      assert Leads(w, shares, now, x, y) && Leads(w, shares, now, y, x);
    }
    Sorting.SortIgnoresInputOrder(leq, jobs, shuffled);
    var q := OrderQueue(w, shares, now, jobs);
    forall i, j | 0 <= i < j < |q| ensures Leads(w, shares, now, q[i], q[j]) {
      assert leq(q[i], q[j]);
    }
  }

  // ------------------------------------------------------------------ over time

  /** How far `x` is ahead of `y`. */
  function Lead(w: Weights, shares: map<UserId, real>, now: real, x: Entrant, y: Entrant): real
    requires Sound(w)
  {
    Score(w, shares, now, x) - Score(w, shares, now, y)
  }

  lemma Scaled(m: real, x: real, y: real)
    requires 0.0 < m && x <= y
    ensures x / m <= y / m
  {
  }

  lemma CappedGain(m: real, x: real, d: real)
    requires 0.0 < m && 0.0 <= d
    ensures (x + d) / m == x / m + d / m && 0.0 <= d / m
  {
  }

  lemma TimesMonotone(k: real, x: real, y: real)
    requires 0.0 <= k && x <= y
    ensures k * x <= k * y
  {
    assert 0.0 <= k * (y - x);
  }

  lemma TimesMinus(k: real, x: real, y: real)
    ensures k * (x - y) == k * x - k * y
  {
  }

  /** The same head start counts for less and less as both wait on,
      and for exactly as much until the one ahead has waited the maximum. */
  lemma HeadStartFades(w: Weights, x: real, y: real, d: real)
    requires Sound(w) && x <= y && 0.0 <= d
    ensures AgeTerm(w, y + d) - AgeTerm(w, y) <= AgeTerm(w, x + d) - AgeTerm(w, x)
    ensures y + d <= w.ageMax ==> AgeTerm(w, y + d) - AgeTerm(w, y) == AgeTerm(w, x + d) - AgeTerm(w, x)
    ensures 0.0 <= AgeTerm(w, x + d) - AgeTerm(w, x)
  {
    hide Capped;
    var m := w.ageMax;
    var fx, fy, fd := x / m, y / m, d / m;
    Scaled(m, x, y);
    CappedGain(m, x, d);
    CappedGain(m, y, d);
    if y + d <= m {
      Scaled(m, y + d, m);
    }
    FractionsFade(w.age, fx, fy, fd);
  }

  lemma FractionsFade(k: real, fx: real, fy: real, fd: real)
    requires 0.0 <= k && fx <= fy && 0.0 <= fd
    ensures k * Capped(fy + fd) - k * Capped(fy) <= k * Capped(fx + fd) - k * Capped(fx)
    ensures fy + fd <= 1.0 ==> k * Capped(fy + fd) - k * Capped(fy) == k * Capped(fx + fd) - k * Capped(fx)
    ensures 0.0 <= k * Capped(fx + fd) - k * Capped(fx)
  {
    TimesMinus(k, Capped(fy + fd), Capped(fy));
    TimesMinus(k, Capped(fx + fd), Capped(fx));
    TimesMonotone(k, Capped(fy + fd) - Capped(fy), Capped(fx + fd) - Capped(fx));
    TimesMonotone(k, Capped(fx), Capped(fx + fd));
  }

  /** With fixed shares, the lead of the older of two never-started jobs never grows, and does not
      change at all until the older one has waited the maximum. */
  lemma LeadNeverGrows(w: Weights, shares: map<UserId, real>, x: Entrant, y: Entrant, t: real, t': real)
    requires Sound(w) && x.startedAt.None? && y.startedAt.None?
    requires x.submittedAt <= y.submittedAt <= t <= t'
    ensures Lead(w, shares, t', x, y) <= Lead(w, shares, t, x, y)
    ensures WaitHours(x, t') <= w.ageMax ==> Lead(w, shares, t', x, y) == Lead(w, shares, t, x, y)
  {
    HeadStartFades(w, t - y.submittedAt, t' - y.submittedAt, y.submittedAt - x.submittedAt);
    assert WaitHours(x, t) == (t - y.submittedAt) + (y.submittedAt - x.submittedAt);
    assert WaitHours(x, t') == (t' - y.submittedAt) + (y.submittedAt - x.submittedAt);
  }

  /** So two never-started jobs swap places at most once: when the younger has overtaken
      the older, it stays ahead for as long as both wait. */
  lemma OvertakenOnce(w: Weights, shares: map<UserId, real>, x: Entrant, y: Entrant, t: real, t': real)
    requires Sound(w) && x.startedAt.None? && y.startedAt.None?
    requires x.submittedAt <= y.submittedAt <= t <= t'
    requires !Leads(w, shares, t, x, y)
    ensures !Leads(w, shares, t', x, y)
  {
    LeadNeverGrows(w, shares, x, y, t, t');
  }

  /** One member's never-started jobs go in the order they were submitted, at all times. */
  lemma OwnJobsInOrder(w: Weights, shares: map<UserId, real>, x: Entrant, y: Entrant, now: real)
    requires Sound(w) && x.startedAt.None? && y.startedAt.None? && x.user == y.user
    requires x.submittedAt < y.submittedAt || (x.submittedAt == y.submittedAt && x.id <= y.id)
    requires y.submittedAt <= now
    ensures Leads(w, shares, now, x, y)
  {
    HeadStartFades(w, now - y.submittedAt, now - y.submittedAt, y.submittedAt - x.submittedAt);
    assert WaitHours(x, now) == (now - y.submittedAt) + (y.submittedAt - x.submittedAt);
  }

  // ----------------------------------------------------------------- starvation

  /** `y` arrived this moment. */
  predicate JustArrived(y: Entrant, now: real) {
    y.startedAt.None? && y.submittedAt == now
  }

  ghost predicate ProperShares(shares: map<UserId, real>) {
    forall u :: u in shares ==> 0.0 <= shares[u] <= 1.0
  }

  lemma FairTermInRange(w: Weights, share: real)
    requires 0.0 <= w.fair && 0.0 <= share <= 1.0
    ensures 0.0 <= FairTerm(w, share) <= w.fair
  {
    TimesMonotone(w.fair, 0.0, 1.0 - share);
    TimesMonotone(w.fair, 1.0 - share, 1.0);
  }

  lemma AgeTermEnds(w: Weights, wait: real)
    requires Sound(w)
    ensures w.ageMax <= wait ==> AgeTerm(w, wait) == w.age
    ensures wait == 0.0 ==> AgeTerm(w, wait) == 0.0
  {
    if w.ageMax <= wait {
      Scaled(w.ageMax, w.ageMax, wait);
    }
  }

  /** A job that has waited the maximum is never behind one that has just arrived,
      however light the newcomer's usage: nobody is starved by newcomers. */
  lemma NoStarvation(w: Weights, shares: map<UserId, real>, now: real, x: Entrant, y: Entrant)
    requires Sound(w) && ProperShares(shares) && JustArrived(y, now)
    requires w.ageMax <= WaitHours(x, now)
    ensures x.submittedAt < now ==> Leads(w, shares, now, x, y)
    ensures Score(w, shares, now, y) <= Score(w, shares, now, x)
  {
    AgeTermEnds(w, WaitHours(x, now));
    AgeTermEnds(w, WaitHours(y, now));
    FairTermInRange(w, FairShare.Lookup(shares, x.user));
    FairTermInRange(w, FairShare.Lookup(shares, y.user));
  }

  /** How long a requeued job had waited when it first started. It is never credited with more. */
  function FirstWait(x: Entrant): real
    requires x.startedAt.Some?
  {
    if x.startedAt.value - x.submittedAt < 0.0 then 0.0 else x.startedAt.value - x.submittedAt
  }

  predicate Behind(w: Weights, shares: map<UserId, real>, now: real, x: Entrant, y: Entrant)
    requires Sound(w)
  {
    Leads(w, shares, now, y, x) && !Leads(w, shares, now, x, y)
  }

  /** So the promise above does not reach a requeued job. Exactly when one is behind a newcomer, however long it has
      been waiting by now: when what it waited before its first start weighs less than the difference in usage. */
  lemma RequeuedIsOvertaken(w: Weights, shares: map<UserId, real>, now: real, x: Entrant, y: Entrant)
    requires Sound(w) && x.startedAt.Some? && JustArrived(y, now)
    ensures var gap := w.fair * (FairShare.Lookup(shares, x.user) - FairShare.Lookup(shares, y.user));
            var aged := AgeTerm(w, FirstWait(x));
            Behind(w, shares, now, x, y) <==> aged < gap || (aged == gap && !Earlier(x, y))
  {
    var p, q := FairShare.Lookup(shares, x.user), FairShare.Lookup(shares, y.user);
    AgeTermEnds(w, WaitHours(y, now));
    assert WaitHours(x, now) == FirstWait(x);
    FairGap(w, p, q);
  }

  lemma FairGap(w: Weights, p: real, q: real)
    ensures FairTerm(w, q) - FairTerm(w, p) == w.fair * (p - q)
  {
    TimesMinus(w.fair, 1.0 - q, 1.0 - p);
  }

  /** A requeued job falls back behind every never-started one that waits on: its lead only shrinks, once it is
      behind it stays behind, and when the other has waited the maximum it is behind unless its usage or its
      first wait makes up for it. Behind a later job of its own user it then is exactly if it first started
      before it had waited the maximum. */
  lemma RequeuedFallsBehind(w: Weights, shares: map<UserId, real>, x: Entrant, y: Entrant, t: real, t': real)
    requires Sound(w) && x.startedAt.Some? && y.startedAt.None? && y.submittedAt <= t <= t'
    ensures Lead(w, shares, t', x, y) <= Lead(w, shares, t, x, y)
    ensures Behind(w, shares, t, x, y) ==> Behind(w, shares, t', x, y)
    ensures w.ageMax <= WaitHours(y, t') ==>
              var gap := w.fair * (FairShare.Lookup(shares, x.user) - FairShare.Lookup(shares, y.user)) + w.age;
              var aged := AgeTerm(w, FirstWait(x));
              Behind(w, shares, t', x, y) <==> aged < gap || (aged == gap && !Earlier(x, y))
    ensures w.ageMax <= WaitHours(y, t') && x.user == y.user && Earlier(x, y) ==>
              (Behind(w, shares, t', x, y) <==> FirstWait(x) < w.ageMax)
  {
    hide AgeTerm, FairTerm;
    var p, q := FairShare.Lookup(shares, x.user), FairShare.Lookup(shares, y.user);
    assert WaitHours(x, t) == FirstWait(x) && WaitHours(x, t') == FirstWait(x);
    assert WaitHours(y, t') == WaitHours(y, t) + (t' - t);
    HeadStartFades(w, WaitHours(y, t), WaitHours(y, t), t' - t);
    FairGap(w, p, q);
    AgeTermEnds(w, WaitHours(y, t'));
    FullyAgedIff(w, FirstWait(x));
    if p == q {
      assert p - q == 0.0;
    }
  }

  /** Only a job that had waited the maximum has aged fully. */
  lemma FullyAgedIff(w: Weights, wait: real)
    requires Sound(w) && 0.0 <= wait
    ensures AgeTerm(w, wait) <= w.age
    ensures AgeTerm(w, wait) < w.age <==> wait < w.ageMax
  {
    AgeTermEnds(w, wait);
    if wait < w.ageMax {
      BelowOne(wait, w.ageMax);
      TimesLess(w.age, wait / w.ageMax);
    }
  }

  lemma BelowOne(x: real, m: real)
    requires x < m && 0.0 < m
    ensures x / m < 1.0
  {
  }

  lemma TimesLess(k: real, x: real)
    requires 0.0 < k && x < 1.0
    ensures k * x < k
  {
    assert 0.0 < k * (1.0 - x);
  }
}
