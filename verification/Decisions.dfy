/** One walk over the queue, deciding each job's fate (gpu_broker/scheduler.py `decisions`).

    The source is a generator: its counters live between two yields, while the caller
    acts on each decision. Here the walk is an object and `Next` is one yield. */
module Decisions {
  import opened Wrappers
  import Counting
  import opened Money
  import opened Ledger
  import opened Tables
  import opened World
  import opened Store
  import Placement

  /** A queued job, as far as the walk looks at it. */
  datatype Waiting = Waiting(id: JobId, user: UserId, currency: Currency, reserved: int, want: Placement.Want)

  datatype Decision =
    | Dispatch(backend: BackendId)
    | BlockedPool
    | BlockedCapacity
    | BlockedTenant
    | BlockedUnauthorized

  /** What the backends report when they are asked: slots free, by backend. */
  type Slots = map<BackendId, int>

  /** What is read once, before the walk starts. */
  datatype Terms = Terms(suspended: set<UserId>, headroomUsd: real, headroomGpuHours: real,
                         maxRunning: nat, running: map<UserId, nat>,
                         sites: seq<Placement.Site>, tiers: seq<Tier>)
  {
    function Headroom(c: Currency): real {
      if c == Usd then headroomUsd else headroomGpuHours
    }

    /** Machines the user held before the walk. */
    function RunningBefore(u: UserId): nat {
      if u in running then running[u] else 0
    }
  }

  // ------------------------------------------------------------- what was decided

  /** What one decision commits in a currency. */
  function Commits(d: Decision, w: Waiting, c: Currency): int {
    if d.Dispatch? && w.currency == c then w.reserved else 0
  }

  /** The machines one decision gives a user. */
  function Takes(d: Decision, w: Waiting, u: UserId): nat {
    if d.Dispatch? && w.user == u then 1 else 0
  }

  /** Everything reserved by the jobs dispatched so far in one currency. */
  function CommittedBy(queue: seq<Waiting>, ds: seq<Decision>, c: Currency): int
    requires |ds| <= |queue|
  {
    if ds == [] then 0
    else
      var n := |ds| - 1;
      CommittedBy(queue, ds[..n], c) + Commits(ds[n], queue[n], c)
  }

  /** How many of one user's jobs were dispatched so far. */
  function TakenBy(queue: seq<Waiting>, ds: seq<Decision>, u: UserId): nat
    requires |ds| <= |queue|
  {
    if ds == [] then 0
    else
      var n := |ds| - 1;
      TakenBy(queue, ds[..n], u) + Takes(ds[n], queue[n], u)
  }

  /** Some job in this currency was already stopped by the pool cap. */
  predicate PoolStopped(queue: seq<Waiting>, ds: seq<Decision>, c: Currency)
    requires |ds| <= |queue|
  {
    exists k :: 0 <= k < |ds| && ds[k] == BlockedPool && queue[k].currency == c
  }

  predicate Stopped(queue: seq<Waiting>, ds: seq<Decision>)
    requires |ds| <= |queue|
  {
    PoolStopped(queue, ds, Usd) && PoolStopped(queue, ds, GpuHour)
  }

  predicate UnderLimit(t: Terms, queue: seq<Waiting>, ds: seq<Decision>, u: UserId)
    requires |ds| <= |queue|
  {
    t.RunningBefore(u) + TakenBy(queue, ds, u) < t.maxRunning
  }

  predicate Fits(t: Terms, queue: seq<Waiting>, ds: seq<Decision>, w: Waiting)
    requires |ds| <= |queue|
  {
    (CommittedBy(queue, ds, w.currency) + w.reserved) as real <= t.Headroom(w.currency)
  }

  /** Nothing but missing capacity can keep this job waiting. */
  predicate Clear(t: Terms, queue: seq<Waiting>, ds: seq<Decision>, w: Waiting)
    requires |ds| <= |queue|
  {
    && w.user !in t.suspended
    && !PoolStopped(queue, ds, w.currency)
    && UnderLimit(t, queue, ds, w.user)
    && Fits(t, queue, ds, w)
  }

  /** The backend that would take the job, given the slots free at that moment. */
  function Offer(t: Terms, w: Waiting, free: Slots): Option<BackendId> {
    match Placement.Taker(w.want, t.sites, t.tiers, free)
    case Some(site) => Some(site.id)
    case None => None
  }

  /** `d` is the decision the policy asks for about the job after `prior`, given the decisions before it and the
      slots free at that moment: a job with nothing else against it goes to the backend placement finds for it,
      and waits for capacity exactly when placement finds none. */
  predicate RightNext(t: Terms, queue: seq<Waiting>, prior: seq<Decision>, d: Decision, free: Slots)
    requires |prior| < |queue|
  {
    var w := queue[|prior|];
    var offer := Offer(t, w, free);
    && (d.Dispatch? <==> Clear(t, queue, prior, w) && offer.Some?)
    && (d.Dispatch? ==> offer == Some(d.backend))
    && (d == BlockedCapacity <==> Clear(t, queue, prior, w) && offer == None)
    && (d == BlockedUnauthorized <==> w.user in t.suspended && !Stopped(queue, prior))
    && (d == BlockedTenant <==>
          w.user !in t.suspended && !PoolStopped(queue, prior, w.currency) && !UnderLimit(t, queue, prior, w.user))
  }

  predicate Right(t: Terms, queue: seq<Waiting>, ds: seq<Decision>, frees: seq<Slots>, i: nat)
    requires i < |ds| == |frees| <= |queue|
  {
    RightNext(t, queue, ds[..i], ds[i], frees[i])
  }

  ghost predicate Greedy(t: Terms, queue: seq<Waiting>, ds: seq<Decision>, frees: seq<Slots>) {
    && |ds| == |frees| <= |queue|
    && forall i :: 0 <= i < |ds| ==> Right(t, queue, ds, frees, i)
  }

  // --------------------------------------------------------------------- the walk

  class Pass {
    const queue: seq<Waiting>
    const suspended: set<UserId>
    const headroom: map<Currency, real>
    const maxRunning: nat
    const sites: seq<Placement.Site>
    const tiers: seq<Tier>
    var index: nat
    var committed: map<Currency, int>
    var held: map<UserId, nat>
    var blocked: set<Currency>
    ghost const terms: Terms
    ghost var decided: seq<Decision>
    ghost var frees: seq<Slots>

    /** The counters say what the decisions so far add up to. */
    ghost predicate Counted()
      reads this
    {
      && terms.suspended == suspended && terms.maxRunning == maxRunning
      && terms.sites == sites && terms.tiers == tiers != []
      && Usd in headroom && GpuHour in headroom
      && headroom[Usd] == terms.headroomUsd && headroom[GpuHour] == terms.headroomGpuHours
      && index == |decided| <= |queue|
      && Usd in committed && GpuHour in committed
      && committed[Usd] == CommittedBy(queue, decided, Usd)
      && committed[GpuHour] == CommittedBy(queue, decided, GpuHour)
      && (Usd in blocked <==> PoolStopped(queue, decided, Usd))
      && (GpuHour in blocked <==> PoolStopped(queue, decided, GpuHour))
      && (forall u :: u in held ==> held[u] == terms.RunningBefore(u) + TakenBy(queue, decided, u))
      && (forall u :: u !in held ==> TakenBy(queue, decided, u) == 0)
    }

    ghost predicate Valid()
      reads this
    {
      Counted() && Greedy(terms, queue, decided, frees)
    }

    constructor (queue: seq<Waiting>, suspended: set<UserId>, headroom: map<Currency, real>,
                 maxRunning: nat, sites: seq<Placement.Site>, tiers: seq<Tier>, ghost running: map<UserId, nat>)
      requires Usd in headroom && GpuHour in headroom && tiers != []
      ensures Valid() && index == 0 && held == map[] && decided == [] && frees == []
      ensures this.queue == queue
      ensures terms == Terms(suspended, headroom[Usd], headroom[GpuHour], maxRunning, running, sites, tiers)
    {
      this.queue, this.suspended, this.headroom, this.maxRunning := queue, suspended, headroom, maxRunning;
      this.sites, this.tiers := sites, tiers;
      this.terms := Terms(suspended, headroom[Usd], headroom[GpuHour], maxRunning, running, sites, tiers);
      index, committed, held, blocked := 0, map[Usd := 0, GpuHour := 0], map[], {};
      decided, frees := [], [];
    }

    /** The next decision. `free` is what the backends report when placement asks them. */
    method Next(store: Store, free: Slots) returns (d: Decision)
      requires Valid() && index < |queue|
      requires queue[index].user !in held ==>
                 RunningCount(store.View(), queue[index].user) == terms.RunningBefore(queue[index].user)
      modifies this
      ensures Valid() && index == old(index) + 1
      ensures decided == old(decided) + [d] && frees == old(frees) + [free]
      ensures old(held).Keys <= held.Keys <= old(held).Keys + {queue[old(index)].user}
      ensures d.Dispatch? ==> queue[old(index)].user in held
    {
      hide CommittedBy, TakenBy, PoolStopped, RightNext, RunningCount;
      ghost var ds, fs := decided, frees;
      d := Decide(store, free);
      index := index + 1;
      decided, frees := ds + [d], fs + [free];
      OneMore(queue, ds, d);
      Extended(terms, queue, ds, fs, d, free);
      assert decided[..|ds|] == ds;
    }

    /** The checks that come before the pool cap. None when the job passes them all;
        by then its owner's machines have been counted. */
    method Gate(store: Store) returns (d: Option<Decision>)
      requires Counted() && index < |queue|
      requires queue[index].user !in held ==>
                 RunningCount(store.View(), queue[index].user) == terms.RunningBefore(queue[index].user)
      modifies this`held
      ensures Counted()
      ensures old(held).Keys <= held.Keys <= old(held).Keys + {queue[index].user}
      ensures d.Some? ==> !d.value.Dispatch? && d.value != BlockedCapacity
                          && forall free: Slots :: RightNext(terms, queue, decided, d.value, free)
      ensures d == Some(BlockedPool) ==> PoolStopped(queue, decided, queue[index].currency)
      ensures d.None? ==>
                var w := queue[index];
                && w.user in held && w.user !in terms.suspended
                && !PoolStopped(queue, decided, w.currency) && UnderLimit(terms, queue, decided, w.user)
    {
      hide CommittedBy, TakenBy, PoolStopped;
      var w := queue[index];
      CurrencyCases(w.currency);
      BothBlocked(blocked);
      if |blocked| == 2 {
        return Some(BlockedPool);
      } else if w.user in suspended {
        return Some(BlockedUnauthorized);
      } else if w.currency in blocked {
        return Some(BlockedPool);
      }
      if w.user !in held {
        var n := store.RunningCountOf(w.user);
        held := held[w.user := n];
      }
      return if held[w.user] >= maxRunning then Some(BlockedTenant) else None;
    }

    /** Decides about `queue[index]` and brings the counters up to date with that decision. */
    method Decide(store: Store, free: Slots) returns (d: Decision)
      requires Counted() && index < |queue|
      requires queue[index].user !in held ==>
                 RunningCount(store.View(), queue[index].user) == terms.RunningBefore(queue[index].user)
      modifies this`held, this`committed, this`blocked
      ensures RightNext(terms, queue, decided, d, free)
      ensures Usd in committed && GpuHour in committed
      ensures committed[Usd] == CommittedBy(queue, decided, Usd) + Commits(d, queue[index], Usd)
      ensures committed[GpuHour] == CommittedBy(queue, decided, GpuHour) + Commits(d, queue[index], GpuHour)
      ensures Usd in blocked <==> PoolStopped(queue, decided, Usd) || (d == BlockedPool && queue[index].currency == Usd)
      ensures GpuHour in blocked
         <==> PoolStopped(queue, decided, GpuHour) || (d == BlockedPool && queue[index].currency == GpuHour)
      ensures forall u :: u in held ==>
                held[u] == terms.RunningBefore(u) + TakenBy(queue, decided, u) + Takes(d, queue[index], u)
      ensures old(held).Keys <= held.Keys <= old(held).Keys + {queue[index].user}
      ensures d.Dispatch? ==> queue[index].user in held
    {
      hide CommittedBy, TakenBy, PoolStopped, Placement.Taker, Placement.Searched, Placement.Candidates;
      var w := queue[index];
      CurrencyCases(w.currency);
      var gate := Gate(store);
      if gate.Some? {
        return gate.value;
      }
      var remaining := headroom[w.currency] - committed[w.currency] as real;
      if w.reserved as real > remaining {
        blocked := blocked + {w.currency};
        return BlockedPool;
      }
      d := Place(free);
    }

    /** A job with nothing else against it: placed if some backend takes it, and counted at once. */
    method Place(free: Slots) returns (d: Decision)
      requires Counted() && index < |queue| && queue[index].user in held && Clear(terms, queue, decided, queue[index])
      modifies this`held, this`committed
      ensures RightNext(terms, queue, decided, d, free) && d != BlockedPool
      ensures Usd in committed && GpuHour in committed
      ensures committed[Usd] == CommittedBy(queue, decided, Usd) + Commits(d, queue[index], Usd)
      ensures committed[GpuHour] == CommittedBy(queue, decided, GpuHour) + Commits(d, queue[index], GpuHour)
      ensures forall u :: u in held ==>
                held[u] == terms.RunningBefore(u) + TakenBy(queue, decided, u) + Takes(d, queue[index], u)
      ensures held.Keys == old(held).Keys
    {
      hide CommittedBy, TakenBy, PoolStopped, Fits, UnderLimit, Placement.Taker, Placement.Searched, Placement.Candidates;
      var w := queue[index];
      CurrencyCases(w.currency);
      var placement := Placement.Choose(w.want, sites, tiers, free);
      if placement.backend.None? {
        return BlockedCapacity;
      }
      committed := committed[w.currency := committed[w.currency] + w.reserved];
      held := held[w.user := held[w.user] + 1];
      return Dispatch(placement.backend.value.id);
    }
  }

  /** There are two currencies, so a set of currencies has both exactly when it has two members. */
  lemma BothBlocked(s: set<Currency>)
    ensures |s| == 2 <==> Usd in s && GpuHour in s
  {
    forall c | c in s ensures c in {Usd, GpuHour} {
      CurrencyCases(c);
    }
    assert Usd !in s ==> s <= {GpuHour};
    assert GpuHour !in s ==> s <= {Usd};
    if Usd in s && GpuHour in s {
      assert s == {Usd, GpuHour};
    } else {
      var rest := if Usd in s then {Usd} else {GpuHour};
      Counting.SubsetSize(s, rest);
    }
  }

  lemma OneMore(queue: seq<Waiting>, ds: seq<Decision>, d: Decision)
    requires |ds| < |queue|
    ensures forall c :: CommittedBy(queue, ds + [d], c) == CommittedBy(queue, ds, c) + Commits(d, queue[|ds|], c)
    ensures forall u :: TakenBy(queue, ds + [d], u) == TakenBy(queue, ds, u) + Takes(d, queue[|ds|], u)
    ensures forall c :: PoolStopped(queue, ds + [d], c)
              <==> PoolStopped(queue, ds, c) || (d == BlockedPool && queue[|ds|].currency == c)
  {
    assert (ds + [d])[..|ds|] == ds;
    forall c
      ensures PoolStopped(queue, ds + [d], c)
         <==> PoolStopped(queue, ds, c) || (d == BlockedPool && queue[|ds|].currency == c)
    {
      if PoolStopped(queue, ds, c) {
        var k :| 0 <= k < |ds| && ds[k] == BlockedPool && queue[k].currency == c;
        assert (ds + [d])[k] == BlockedPool;
      }
      if d == BlockedPool && queue[|ds|].currency == c {
        assert (ds + [d])[|ds|] == BlockedPool;
      }
    }
  }

  /** Decisions already taken stay right: they depend only on what came before them. */
  lemma Extended(t: Terms, queue: seq<Waiting>, ds: seq<Decision>, frees: seq<Slots>,
                 d: Decision, free: Slots)
    requires Greedy(t, queue, ds, frees) && |ds| < |queue|
    ensures forall i :: 0 <= i < |ds| ==> Right(t, queue, ds + [d], frees + [free], i)
  {
    forall i | 0 <= i < |ds| ensures Right(t, queue, ds + [d], frees + [free], i) {
      assert (ds + [d])[..i] == ds[..i];
      assert Right(t, queue, ds, frees, i);
    }
  }

  // --------------------------------------------------------------------- dry run

  /** `plan`: the whole walk with nothing done about any decision. */
  method Plan(store: Store, queue: seq<Waiting>, suspended: set<UserId>, headroom: map<Currency, real>,
              maxRunning: nat, sites: seq<Placement.Site>, tiers: seq<Tier>, frees: seq<Slots>)
    returns (ds: seq<Decision>)
    requires Usd in headroom && GpuHour in headroom && tiers != [] && |frees| == |queue|
    ensures |ds| == |queue|
    ensures Greedy(Terms(suspended, headroom[Usd], headroom[GpuHour], maxRunning, RunningFor(store.View(), queue),
                         sites, tiers),
                   queue, ds, frees)
  {
    hide Greedy, RunningCount, CommittedBy, TakenBy, PoolStopped;
    ghost var running := RunningFor(store.View(), queue);
    var pass := new Pass(queue, suspended, headroom, maxRunning, sites, tiers, running);
    ds := [];
    while pass.index < |queue|
      invariant fresh(pass) && pass.Valid() && pass.queue == queue && pass.decided == ds
      invariant pass.terms == Terms(suspended, headroom[Usd], headroom[GpuHour], maxRunning, running, sites, tiers)
      invariant pass.frees == frees[..pass.index]
      invariant store.View() == old(store.View())
      decreases |queue| - pass.index
    {
      var d := pass.Next(store, frees[pass.index]);
      ds := ds + [d];
      assert frees[..pass.index] == frees[..pass.index - 1] + [frees[pass.index - 1]];
    }
    assert frees[..|queue|] == frees;
  }

  /** What each waiting user holds before a walk. */
  ghost function RunningFor(db: Db, queue: seq<Waiting>): map<UserId, nat> {
    map i | 0 <= i < |queue| :: queue[i].user := RunningCount(db, queue[i].user)
  }

  // -------------------------------------------------------- what greedy walks promise

  /** Nothing is dispatched past a job the pool cap stopped in the same currency,
      and every later job in that currency waits on the pool or on its suspended owner. */
  lemma NoBackfill(t: Terms, queue: seq<Waiting>, ds: seq<Decision>, frees: seq<Slots>, i: nat, j: nat)
    requires Greedy(t, queue, ds, frees) && i < j < |ds|
    requires ds[i] == BlockedPool && queue[i].currency == queue[j].currency
    ensures ds[j] in {BlockedPool, BlockedUnauthorized}
    ensures ds[j] == BlockedUnauthorized ==> queue[j].user in t.suspended
  {
    assert Right(t, queue, ds, frees, j);
    assert ds[..j][i] == BlockedPool;
    assert PoolStopped(queue, ds[..j], queue[j].currency);
  }

  lemma {:induction false} TakenAreCounted(queue: seq<Waiting>, ds: seq<Decision>, u: UserId)
    requires |ds| <= |queue|
    ensures TakenBy(queue, ds, u) == |set k | 0 <= k < |ds| && ds[k].Dispatch? && queue[k].user == u|
  {
    if ds != [] {
      var n := |ds| - 1;
      TakenAreCounted(queue, ds[..n], u);
      var before := set k | 0 <= k < n && ds[..n][k].Dispatch? && queue[k].user == u;
      var all := set k | 0 <= k < |ds| && ds[k].Dispatch? && queue[k].user == u;
      if ds[n].Dispatch? && queue[n].user == u {
        assert all == before + {n};
      } else {
        assert all == before;
      }
    }
  }

  lemma CommittedOneMore(queue: seq<Waiting>, ds: seq<Decision>, d: Decision, c: Currency)
    requires |ds| < |queue|
    ensures CommittedBy(queue, [], c) == 0
    ensures CommittedBy(queue, ds + [d], c)
         == CommittedBy(queue, ds, c) + (if d.Dispatch? && queue[|ds|].currency == c then queue[|ds|].reserved else 0)
  {
    OneMore(queue, ds, d);
  }

  /** What stops a job, told by what was dispatched before it: the machine limit only when its owner's machines and the
      ones just given to them fill it, the pool only when the job does not fit what is left or its currency was
      stopped before, and neither a job that is dispatched nor one that waits for capacity. */
  lemma WhatStops(t: Terms, queue: seq<Waiting>, ds: seq<Decision>, frees: seq<Slots>, i: nat)
    requires Greedy(t, queue, ds, frees) && i < |ds|
    ensures var w, before := queue[i], ds[..i];
            var machines := t.RunningBefore(w.user) + |set k | 0 <= k < i && ds[k].Dispatch? && queue[k].user == w.user|;
            var room := (match w.currency case Usd => t.headroomUsd case GpuHour => t.headroomGpuHours)
                        - CommittedBy(queue, before, w.currency) as real;
            && (ds[i] == BlockedTenant ==> t.maxRunning <= machines && w.user !in t.suspended)
            && (ds[i].Dispatch? ==> machines < t.maxRunning && w.reserved as real <= room && w.user !in t.suspended)
            && (ds[i] == BlockedCapacity ==>
                  machines < t.maxRunning && w.reserved as real <= room && w.user !in t.suspended)
            && (ds[i] == BlockedPool && !PoolStopped(queue, before, w.currency) ==> room < w.reserved as real)
            && (ds[i] == BlockedUnauthorized ==> w.user in t.suspended)
  {
    hide CommittedBy, TakenBy, Offer;
    assert Right(t, queue, ds, frees, i);
    TakenAreCounted(queue, ds[..i], queue[i].user);
    assert (set k | 0 <= k < i && ds[k].Dispatch? && queue[k].user == queue[i].user)
        == (set k | 0 <= k < |ds[..i]| && ds[..i][k].Dispatch? && queue[k].user == queue[i].user);
    CurrencyCases(queue[i].currency);
  }

  /** The job that stops a currency is one that really does not fit, first in line
      among those nothing else kept waiting. */
  lemma StopIsEarned(t: Terms, queue: seq<Waiting>, ds: seq<Decision>, frees: seq<Slots>, i: nat)
    requires Greedy(t, queue, ds, frees) && i < |ds| && ds[i] == BlockedPool
    requires !PoolStopped(queue, ds[..i], queue[i].currency)
    ensures queue[i].user !in t.suspended && UnderLimit(t, queue, ds[..i], queue[i].user)
    ensures !Fits(t, queue, ds[..i], queue[i])
  {
    assert Right(t, queue, ds, frees, i);
    CurrencyCases(queue[i].currency);
  }

  /** Once the pool has stopped both currencies the walk is over: every later job is reported
      as waiting on the pool, whoever owns it, suspended or not. */
  lemma EarlyReturn(t: Terms, queue: seq<Waiting>, ds: seq<Decision>, frees: seq<Slots>, i: nat)
    requires Greedy(t, queue, ds, frees) && i < |ds| && Stopped(queue, ds[..i])
    ensures ds[i] == BlockedPool
  {
    assert Right(t, queue, ds, frees, i);
    CurrencyCases(queue[i].currency);
  }

  /** At every point of the walk, what was dispatched in a currency fits the headroom it started with. */
  lemma {:induction false} WithinHeadroom(t: Terms, queue: seq<Waiting>, ds: seq<Decision>,
                                          frees: seq<Slots>, c: Currency, n: nat)
    requires Greedy(t, queue, ds, frees) && n <= |ds|
    ensures CommittedBy(queue, ds[..n], c) == 0 || CommittedBy(queue, ds[..n], c) as real <= t.Headroom(c)
  {
    if 0 < n {
      WithinHeadroom(t, queue, ds, frees, c, n - 1);
      assert ds[..n][..n - 1] == ds[..n - 1];
      assert Right(t, queue, ds, frees, n - 1);
    }
  }

  /** No user is given machines past the limit. */
  lemma {:induction false} WithinUserLimit(t: Terms, queue: seq<Waiting>, ds: seq<Decision>,
                                           frees: seq<Slots>, u: UserId, n: nat)
    requires Greedy(t, queue, ds, frees) && n <= |ds|
    ensures TakenBy(queue, ds[..n], u) == 0 || t.RunningBefore(u) + TakenBy(queue, ds[..n], u) <= t.maxRunning
  {
    if 0 < n {
      WithinUserLimit(t, queue, ds, frees, u, n - 1);
      assert ds[..n][..n - 1] == ds[..n - 1];
      assert Right(t, queue, ds, frees, n - 1);
    }
  }

  /** The policy decides: two walks over the same queue, with the same slots free, agree on every job. */
  lemma {:induction false} GreedyIsUnique(t: Terms, queue: seq<Waiting>, frees: seq<Slots>,
                                          ds: seq<Decision>, es: seq<Decision>, n: nat)
    requires Greedy(t, queue, ds, frees) && Greedy(t, queue, es, frees) && n <= |ds|
    ensures ds[..n] == es[..n]
  {
    if 0 < n {
      GreedyIsUnique(t, queue, frees, ds, es, n - 1);
      assert Right(t, queue, ds, frees, n - 1) && Right(t, queue, es, frees, n - 1);
      OneDecision(ds[n - 1], es[n - 1]);
      assert ds[..n] == ds[..n - 1] + [ds[n - 1]] && es[..n] == es[..n - 1] + [es[n - 1]];
    }
  }

  lemma OneDecision(d: Decision, e: Decision)
    requires d.Dispatch? <==> e.Dispatch?
    requires d.Dispatch? ==> d == e
    requires d == BlockedCapacity <==> e == BlockedCapacity
    requires d == BlockedUnauthorized <==> e == BlockedUnauthorized
    requires d == BlockedTenant <==> e == BlockedTenant
    ensures d == e
  {
    match d
    case Dispatch(_) =>
    case _ =>
      match e
      case _ =>
  }
}
