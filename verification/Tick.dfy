/** `tick` and the dispatch loop inside it (gpu_broker/scheduler.py), on top of everything they call. */
module Tick {
  import opened Wrappers
  import opened Money
  import opened States
  import opened Ledger
  import opened Tables
  import opened World
  import opened Books
  import opened Advance
  import opened Store
  import opened Engine
  import opened Decisions
  import opened Drift
  import opened Dispatch
  import opened Pieces
  import opened Outcomes
  import Lifetimes
  import Scheduler
  import FairShare
  import QueueOrder
  import Placement

  // ---------------------------------------------------- what the counters stand for

  /** The tables have moved on from `db0` no further than the decisions so far allow, and the jobs
      not decided about yet are as they were. `held` are the owners whose machines were counted. */
  ghost predicate Tracks(db0: Db, db: Db, queue: seq<Waiting>, ds: seq<Decision>, held: set<UserId>)
    requires |ds| <= |queue|
  {
    && |db.jobs| == |db0.jobs| == |db.history| && db.suspended == db0.suspended
    && (forall k :: |ds| <= k < |queue| ==> queue[k].id < |db.jobs| && db.jobs[queue[k].id] == db0.jobs[queue[k].id])
    && (forall c :: PoolCommitted(db, c) <= PoolCommitted(db0, c) + CommittedBy(queue, ds, c))
    && (forall u :: RunningCount(db, u) <= RunningCount(db0, u) + TakenBy(queue, ds, u))
    && (forall u :: u !in held ==> RunningCount(db, u) == RunningCount(db0, u))
  }

  lemma TracksElapse(db0: Db, db: Db, queue: seq<Waiting>, ds: seq<Decision>, held: set<UserId>, moment: Clock)
    requires |ds| <= |queue| && Tracks(db0, db, queue, ds, held)
    requires RowsFit(db) && RowsPast(db) && db.clock.period <= moment.period
    ensures Tracks(db0, db.(clock := moment), queue, ds, held)
  {
    var db' := db.(clock := moment);
    forall c ensures PoolCommitted(db', c) <= PoolCommitted(db0, c) + CommittedBy(queue, ds, c) {
      ElapsePool(db, moment, c);
    }
    forall u ensures RunningCount(db', u) == RunningCount(db, u) {
    }
  }

  /** A decision that starts nothing (or a launch that fails) keeps the track: counters only overestimate. */
  lemma TracksNothing(db0: Db, db: Db, queue: seq<Waiting>, ds: seq<Decision>, held: set<UserId>,
                      d: Decision, held': set<UserId>)
    requires |ds| < |queue| && Tracks(db0, db, queue, ds, held) && held <= held'
    requires 0 <= queue[|ds|].reserved
    ensures Tracks(db0, db, queue, ds + [d], held')
  {
    OneMore(queue, ds, d);
  }

  lemma TracksStart(db0: Db, db: Db, queue: seq<Waiting>, ds: seq<Decision>, held: set<UserId>,
                    b: BackendId, held': set<UserId>, h: Handle)
    requires |ds| < |queue| && Tracks(db0, db, queue, ds, held)
    requires held <= held' && queue[|ds|].user in held'
    requires var id := queue[|ds|].id; db.jobs[id].state == Queued && queue[|ds|] == WaitingOf(db.jobs, id)
    requires forall i, k :: 0 <= i < k < |queue| ==> queue[i].id != queue[k].id
    requires RowsFit(Noted(db, queue[|ds|].id, CountAttempt)) && RowsPast(db)
    requires BooksBalance(Noted(db, queue[|ds|].id, CountAttempt))
    ensures var id := queue[|ds|].id;
            var before := Noted(db, id, CountAttempt);
            var db' := Transitioned(before, id, before.jobs[id], Allocating, Some(h), None, false, []);
            Tracks(db0, db', queue, ds + [Dispatch(b)], held')
  {
    var id, d := queue[|ds|].id, Decision.Dispatch(b);
    var before := Noted(db, id, CountAttempt);
    var db' := Transitioned(before, id, before.jobs[id], Allocating, Some(h), None, false, []);
    NoteKeepsCounts(db, id, CountAttempt);
    StartTakes(before, id, h);
    OneMore(queue, ds, d);
    forall c ensures PoolCommitted(db', c) <= PoolCommitted(db0, c) + CommittedBy(queue, ds + [d], c) {
      assert PoolCommitted(before, c) == PoolCommitted(db, c);
    }
    forall u
      ensures RunningCount(db', u) <= RunningCount(db0, u) + TakenBy(queue, ds + [d], u)
      ensures u !in held' ==> RunningCount(db', u) == RunningCount(db0, u)
    {
      assert RunningCount(before, u) == RunningCount(db, u);
    }
  }

  /** What the policy read before the walk, from the tables as they were. */
  ghost function TermsOf(cfg: Config, p: Policy, db: Db, queue: seq<Waiting>): Terms {
    Terms(db.suspended, cfg.PoolBudget(Usd) - PoolCommitted(db, Usd) as real,
          cfg.PoolBudget(GpuHour) - PoolCommitted(db, GpuHour) as real, cfg.maxRunning, RunningFor(db, queue),
          p.sites, p.tiers)
  }

  /** A DISPATCH decision may be acted on now, even though time has passed, jobs were started
      and launches have failed since the headroom was read. */
  lemma DispatchAllowed(cfg: Config, p: Policy, db0: Db, db: Db, queue: seq<Waiting>, ds: seq<Decision>,
                        held: set<UserId>, d: Decision, free: Slots)
    requires |ds| < |queue| && Tracks(db0, db, queue, ds, held)
    requires queue[|ds|] == WaitingOf(db.jobs, queue[|ds|].id)
    requires RightNext(TermsOf(cfg, p, db0, queue), queue, ds, d, free) && d.Dispatch?
    ensures var job := db.jobs[queue[|ds|].id];
            && job.user !in db.suspended && RunningCount(db, job.user) < cfg.maxRunning
            && (PoolCommitted(db, job.currency) + job.reserved) as real <= cfg.PoolBudget(job.currency)
  {
    var w := queue[|ds|];
    assert RunningFor(db0, queue)[w.user] == RunningCount(db0, w.user);
    CurrencyCases(w.currency);
    assert PoolCommitted(db, w.currency) <= PoolCommitted(db0, w.currency) + CommittedBy(queue, ds, w.currency);
  }

  // ----------------------------------------------------------------------- one step

  /** Some time passes, possibly into the next billing period. */
  method TimePasses(engine: Engine, ghost w: World, ghost n: nat) returns (ghost moment: Clock)
    requires engine.Valid() && CutsSafe(w, engine.done, n) && NoNewDrift(w, engine.Now())
    modifies engine, engine.store
    ensures engine.Valid() && CutsSafe(w, engine.done, n) && NoNewDrift(w, engine.Now())
    ensures engine.done == old(engine.done) + [Elapse(moment)]
    ensures old(engine.store.clock.period) <= moment.period
    ensures engine.store.View() == old(engine.store.View()).(clock := moment)
  {
    var clock: Clock := *;
    if clock.now < engine.store.clock.now || clock.period < engine.store.clock.period {
      clock := engine.store.clock;
    }
    ElapseCuts(w, engine.done, n, clock);
    engine.Elapse(clock);
    moment := clock;
  }

  /** The walk is over the queue as it was read from `db0`. */
  ghost predicate Walking(engine: Engine, pass: Pass, p: Policy, db0: Db)
    reads engine, engine.store, engine.fleet, pass
  {
    && engine.Valid() && pass.Valid() && pass.terms == TermsOf(engine.cfg, p, db0, pass.queue)
    && Tracks(db0, engine.store.View(), pass.queue, pass.decided, pass.held.Keys)
    && (forall k :: 0 <= k < |pass.queue| ==>
          pass.queue[k].id < |db0.jobs| && db0.jobs[pass.queue[k].id].state == Queued
          && pass.queue[k] == WaitingOf(db0.jobs, pass.queue[k].id))
    && (forall i, k :: 0 <= i < k < |pass.queue| ==> pass.queue[i].id != pass.queue[k].id)
  }

  /** The owner's machines, when they are counted, are what they were before the walk. */
  lemma CountedLate(engine: Engine, pass: Pass, p: Policy, db0: Db)
    requires Walking(engine, pass, p, db0) && pass.index < |pass.queue|
    requires pass.queue[pass.index].user !in pass.held
    ensures RunningCount(engine.store.View(), pass.queue[pass.index].user)
         == pass.terms.RunningBefore(pass.queue[pass.index].user)
  {
    assert RunningFor(db0, pass.queue)[pass.queue[pass.index].user]
        == RunningCount(db0, pass.queue[pass.index].user);
  }

  lemma ReservedNotNegative(cfg: Config, w: World, j: JobId)
    requires Inv(cfg, w) && j < |w.db.jobs| && w.db.jobs[j].state == Queued
    ensures 0 <= w.db.jobs[j].reserved
  {
    assert JobBalances(w.db, j);
  }

  lemma NextWasRight(pass: Pass, ds: seq<Decision>, d: Decision, fs: seq<Slots>, free: Slots)
    requires pass.Valid() && pass.decided == ds + [d] && pass.frees == fs + [free]
    ensures |ds| < |pass.queue| && RightNext(pass.terms, pass.queue, ds, d, free)
  {
    assert Right(pass.terms, pass.queue, pass.decided, pass.frees, |ds|);
    assert pass.decided[..|ds|] == ds;
  }

  lemma AttemptCounted(cfg: Config, w: World, id: JobId)
    requires Inv(cfg, w) && id < |w.db.jobs|
    ensures var before := Noted(w.db, id, CountAttempt);
            RowsFit(before) && RowsPast(before) && BooksBalance(before)
  {
    AnnotateKeeps(cfg, w, Annotate(id, CountAttempt));
  }

  /** Acting on a DISPATCH decision, with what a crash in the middle of it would leave. */
  method Start(engine: Engine, id: JobId, b: BackendId, ghost w: World, ghost n: nat) returns (h: Option<Handle>)
    requires engine.Valid() && id < |engine.store.jobs| && engine.store.jobs[id].state == Queued
    requires engine.store.jobs[id].user !in engine.store.suspended
    requires RunningCount(engine.store.View(), engine.store.jobs[id].user) < engine.cfg.maxRunning
    requires (PoolCommitted(engine.store.View(), engine.store.jobs[id].currency) + engine.store.jobs[id].reserved) as real
               <= engine.cfg.PoolBudget(engine.store.jobs[id].currency)
    requires CutsSafe(w, engine.done, n) && NoNewDrift(w, engine.Now())
    modifies engine, engine.store, engine.fleet
    ensures engine.Valid() && old(engine.done) <= engine.done
    ensures CutsSafe(w, engine.done, n) && NoNewDrift(w, engine.Now())
    ensures h.None? ==> engine.done == old(engine.done) && engine.store.View() == old(engine.store.View())
    ensures h.Some? ==> engine.done == old(engine.done) + DispatchScript(h.value, id)
    ensures h.Some? ==> h.value.backend == b
                        && var before := Noted(old(engine.store.View()), id, CountAttempt);
                           engine.store.View() == Transitioned(before, id, before.jobs[id], Allocating, h, None, false, [])
  {
    hide Reached, PoolCommitted, RunningCount, CutsSafe;
    h := StartJob(engine, id, b);
    if h.Some? {
      DispatchCuts(engine.cfg, w, old(engine.done), n, h.value, id);
    }
  }

  /** Acting on one decision: a job that may go is started, and everything else is left waiting. */
  method Act(engine: Engine, wait: Waiting, d: Decision, p: Policy, ghost free: Slots, ghost db0: Db,
             ghost queue: seq<Waiting>, ghost ds: seq<Decision>, ghost held: set<UserId>, ghost held': set<UserId>,
             ghost w: World, ghost n: nat)
    returns (started: Option<Handle>)
    requires engine.Valid() && |ds| < |queue| && queue[|ds|] == wait
    requires Tracks(db0, engine.store.View(), queue, ds, held) && held <= held' && (d.Dispatch? ==> wait.user in held')
    requires forall i, k :: 0 <= i < k < |queue| ==> queue[i].id != queue[k].id
    requires wait.id < |engine.store.jobs| && engine.store.jobs[wait.id].state == Queued
    requires wait == WaitingOf(engine.store.jobs, wait.id)
    requires RightNext(TermsOf(engine.cfg, p, db0, queue), queue, ds, d, free)
    requires CutsSafe(w, engine.done, n) && NoNewDrift(w, engine.Now())
    modifies engine, engine.store, engine.fleet
    ensures engine.Valid() && old(engine.done) <= engine.done
    ensures CutsSafe(w, engine.done, n) && NoNewDrift(w, engine.Now())
    ensures Tracks(db0, engine.store.View(), queue, ds + [d], held')
    ensures engine.done == old(engine.done) + (if started.Some? then DispatchScript(started.value, wait.id) else [])
    ensures |engine.store.jobs| == old(|engine.store.jobs|)
    ensures started.None? ==> engine.store.jobs == old(engine.store.jobs)
    ensures started.Some? ==>
              && d == Decision.Dispatch(started.value.backend)
              && engine.store.jobs[wait.id].state == Allocating && engine.store.jobs[wait.id].place == started
              && forall j :: 0 <= j < |engine.store.jobs| && j != wait.id ==> engine.store.jobs[j] == old(engine.store.jobs[j])
  {
    hide Reached, After, PoolCommitted, RunningCount, CutsSafe, NoNewDrift, RightNext, Tracks;
    engine.Good();
    ReservedNotNegative(engine.cfg, engine.Now(), wait.id);
    started := None;
    if d.Dispatch? {
      DispatchAllowed(engine.cfg, p, db0, engine.store.View(), queue, ds, held, d, free);
      AttemptCounted(engine.cfg, engine.Now(), wait.id);
      ghost var db := engine.store.View();
      started := Start(engine, wait.id, d.backend, w, n);
      if started.Some? {
        TracksStart(db0, db, queue, ds, held, d.backend, held', started.value);
        return;
      }
    }
    TracksNothing(db0, engine.store.View(), queue, ds, held, d, held');
  }

  /** Some time passes while the walk waits. */
  method WalkWaits(engine: Engine, pass: Pass, p: Policy, ghost db0: Db, ghost w: World, ghost n: nat)
    returns (ghost moment: Clock)
    requires Walking(engine, pass, p, db0)
    requires CutsSafe(w, engine.done, n) && NoNewDrift(w, engine.Now())
    modifies engine, engine.store
    ensures Walking(engine, pass, p, db0)
    ensures CutsSafe(w, engine.done, n) && NoNewDrift(w, engine.Now())
    ensures engine.done == old(engine.done) + [Elapse(moment)]
    ensures engine.store.jobs == old(engine.store.jobs)
  {
    hide Reached, After, PoolCommitted, RunningCount, CutsSafe, NoNewDrift, Tracks, Greedy;
    engine.Good();
    ghost var db := engine.store.View();
    moment := TimePasses(engine, w, n);
    TracksElapse(db0, db, pass.queue, pass.decided, pass.held.Keys, moment);
  }

  /** The walk's next decision, with whatever slots the backends report right now. */
  method WalkNext(engine: Engine, pass: Pass, p: Policy, ghost db0: Db)
    returns (d: Decision, ghost free: Slots)
    requires Usable(p) && Walking(engine, pass, p, db0) && pass.index < |pass.queue|
    modifies pass
    ensures pass.Valid() && pass.index == old(pass.index) + 1 && pass.decided == old(pass.decided) + [d]
    ensures RightNext(pass.terms, pass.queue, old(pass.decided), d, free)
    ensures old(pass.held).Keys <= pass.held.Keys && (d.Dispatch? ==> pass.queue[old(pass.index)].user in pass.held)
  {
    hide Reached, After, PoolCommitted, RunningCount, Greedy, Tracks, RightNext;
    StillWaiting(engine, pass, p, db0);
    ghost var ds, fs := pass.decided, pass.frees;
    if pass.queue[pass.index].user !in pass.held {
      CountedLate(engine, pass, p, db0);
    }
    var slots: Slots := *;
    d := pass.Next(engine.store, slots);
    NextWasRight(pass, ds, d, fs, slots);
    free := slots;
  }

  /** What a job not decided about yet looks like. */
  lemma StillWaiting(engine: Engine, pass: Pass, p: Policy, db0: Db)
    requires Walking(engine, pass, p, db0) && pass.index < |pass.queue|
    ensures var wait := pass.queue[pass.index];
            && wait.id < |engine.store.jobs| && engine.store.jobs[wait.id].state == Queued
            && wait == WaitingOf(engine.store.jobs, wait.id)
  {
    assert engine.store.View().jobs == engine.store.jobs;
  }

  /** One turn of the dispatch loop: some time passes, one job is decided about, and if it may go
      and the launch succeeds, it goes. */
  method DecideOne(engine: Engine, pass: Pass, p: Policy, ghost db0: Db, ghost w: World, ghost n: nat)
    returns (d: Decision, started: Option<Handle>, ghost free: Slots, ghost g: Go)
    requires Usable(p) && Walking(engine, pass, p, db0) && pass.index < |pass.queue|
    requires CutsSafe(w, engine.done, n) && NoNewDrift(w, engine.Now())
    modifies engine, engine.store, engine.fleet, pass
    ensures Walking(engine, pass, p, db0) && pass.index == old(pass.index) + 1
    ensures CutsSafe(w, engine.done, n) && NoNewDrift(w, engine.Now())
    ensures g.id == pass.queue[old(pass.index)].id && g.machine == started
    ensures engine.done == old(engine.done) + [Elapse(g.moment)] + GoOn(g)
    ensures pass.decided == old(pass.decided) + [d]
    ensures RightNext(pass.terms, pass.queue, old(pass.decided), d, free)
    ensures |engine.store.jobs| == old(|engine.store.jobs|)
    ensures started.None? ==> engine.store.jobs == old(engine.store.jobs)
    ensures started.Some? ==>
              var id := pass.queue[old(pass.index)].id;
              && d == Decision.Dispatch(started.value.backend)
              && engine.store.jobs[id].state == Allocating && engine.store.jobs[id].place == started
              && forall j :: 0 <= j < |engine.store.jobs| && j != id ==> engine.store.jobs[j] == old(engine.store.jobs[j])
  {
    hide Reached, After, PoolCommitted, RunningCount, CutsSafe, NoNewDrift, Greedy, Tracks, RightNext;
    ghost var moment := WalkWaits(engine, pass, p, db0, w, n);
    StillWaiting(engine, pass, p, db0);
    ghost var ds, held := pass.decided, pass.held.Keys;
    var wait := pass.queue[pass.index];
    d, free := WalkNext(engine, pass, p, db0);
    started := Act(engine, wait, d, p, free, db0, pass.queue, ds, held, pass.held.Keys, w, n);
    g := Go(moment, wait.id, started);
  }

  // ------------------------------------------------------------------ whole loops

  /** What acting on the decisions did to the job table: each started job was told to go, sits on the
      backend it was placed on, and nothing else about the table changed. */
  ghost predicate CarriedOut(jobs0: seq<Job>, jobs: seq<Job>, queue: seq<Waiting>, ds: seq<Decision>, started: set<JobId>)
    requires |ds| <= |queue|
  {
    && |jobs| == |jobs0|
    && (forall j :: 0 <= j < |jobs| && j !in started ==> jobs[j] == jobs0[j])
    && (forall j :: j in started ==> j < |jobs| && exists k :: 0 <= k < |ds| && queue[k].id == j && Went(jobs[j], ds[k]))
  }

  predicate Went(job: Job, d: Decision) {
    d.Dispatch? && job.state == Allocating && job.place.Some? && job.place.value.backend == d.backend
  }

  /** Every job that was started sits on the backend it belongs on, given the slots reported at its turn:
      the cheapest that takes its currency and type, no dearer tier than need be, and none above its pin. */
  ghost predicate WellPlaced(p: Policy, jobs0: seq<Job>, jobs: seq<Job>, queue: seq<Waiting>, frees: seq<Slots>,
                             started: set<JobId>)
  {
    && |frees| == |queue|
    && forall j :: j in started ==>
         && j < |jobs0| && j < |jobs| && jobs[j].place.Some?
         && exists k :: 0 <= k < |queue| && queue[k].id == j && PlacedAt(p, jobs0[j], frees[k], jobs[j].place.value)
  }

  ghost predicate PlacedAt(p: Policy, job: Job, free: Slots, h: Handle) {
    exists s: Placement.Site ::
      && s.id == h.backend
      && Placement.Placed(Placement.Want(job.gpu, job.currency, job.pinned), p.sites, p.tiers, free, Some(s))
  }

  lemma SentWhereItBelongs(cfg: Config, p: Policy, db0: Db, queue: seq<Waiting>, prior: seq<Decision>, d: Decision,
                           free: Slots, h: Handle)
    requires |prior| < |queue| && RightNext(TermsOf(cfg, p, db0, queue), queue, prior, d, free) && d == Dispatch(h.backend)
    requires queue[|prior|].id < |db0.jobs| && queue[|prior|] == WaitingOf(db0.jobs, queue[|prior|].id)
    ensures PlacedAt(p, db0.jobs[queue[|prior|].id], free, h)
  {
    hide Placement.Placed, Placement.Taker, Clear;
    var want := queue[|prior|].want;
    Placement.TakerIsPlaced(want, p.sites, p.tiers, free);
    assert Placement.Taker(want, p.sites, p.tiers, free).value.id == h.backend;
  }

  lemma StartedWellPlaced(cfg: Config, p: Policy, db0: Db, jobs: seq<Job>, queue: seq<Waiting>, ds: seq<Decision>,
                          frees: seq<Slots>, started: set<JobId>)
    requires Greedy(TermsOf(cfg, p, db0, queue), queue, ds, frees) && |ds| == |queue|
    requires forall k :: 0 <= k < |queue| ==> queue[k].id < |db0.jobs| && queue[k] == WaitingOf(db0.jobs, queue[k].id)
    requires CarriedOut(db0.jobs, jobs, queue, ds, started)
    ensures WellPlaced(p, db0.jobs, jobs, queue, frees, started)
  {
    hide RightNext, PlacedAt, RunningFor;
    forall j | j in started
      ensures j < |db0.jobs| && j < |jobs| && jobs[j].place.Some?
      ensures exists k :: 0 <= k < |queue| && queue[k].id == j && PlacedAt(p, db0.jobs[j], frees[k], jobs[j].place.value)
    {
      var k :| 0 <= k < |ds| && queue[k].id == j && Went(jobs[j], ds[k]);
      assert Right(TermsOf(cfg, p, db0, queue), queue, ds, frees, k);
      SentWhereItBelongs(cfg, p, db0, queue, ds[..k], ds[k], frees[k], jobs[j].place.value);
    }
  }

  lemma CarriedOneMore(jobs0: seq<Job>, jobs: seq<Job>, jobs': seq<Job>, queue: seq<Waiting>, ds: seq<Decision>,
                       d: Decision, started: set<JobId>, h: Option<Handle>)
    requires |ds| < |queue|
    requires CarriedOut(jobs0, jobs, queue, ds, started) && |jobs'| == |jobs|
    requires queue[|ds|].id < |jobs| && jobs[queue[|ds|].id].state == Queued
    requires h.None? ==> jobs' == jobs
    requires h.Some? ==>
               var id := queue[|ds|].id;
               Went(jobs'[id], d) && forall j :: 0 <= j < |jobs| && j != id ==> jobs'[j] == jobs[j]
    ensures CarriedOut(jobs0, jobs', queue, ds + [d], if h.Some? then started + {queue[|ds|].id} else started)
  {
    var ds' := ds + [d];
    var more := if h.Some? then started + {queue[|ds|].id} else started;
    forall j | j in more
      ensures j < |jobs'| && exists k :: 0 <= k < |ds'| && queue[k].id == j && Went(jobs'[j], ds'[k])
    {
      if j in started {
        var k :| 0 <= k < |ds| && queue[k].id == j && Went(jobs[j], ds[k]);
        assert ds'[k] == ds[k];
        assert queue[k].id == j && Went(jobs'[j], ds'[k]);
      } else {
        assert queue[|ds|].id == j && Went(jobs'[j], ds'[|ds|]);
      }
    }
  }

  method Headroom(store: Store, cfg: Config) returns (headroom: map<Currency, real>)
    ensures Usd in headroom && GpuHour in headroom
    ensures headroom[Usd] == cfg.PoolBudget(Usd) - PoolCommitted(store.View(), Usd) as real
    ensures headroom[GpuHour] == cfg.PoolBudget(GpuHour) - PoolCommitted(store.View(), GpuHour) as real
  {
    var usd := store.PoolCommittedNow(Usd);
    var hours := store.PoolCommittedNow(GpuHour);
    headroom := map[Usd := cfg.PoolBudget(Usd) - usd as real, GpuHour := cfg.PoolBudget(GpuHour) - hours as real];
  }

  /** One turn of the walk for every job in the queue, in its order; the jobs that started are those given a machine. */
  ghost predicate ActedOn(queue: seq<Waiting>, started: set<JobId>, goes: seq<Go>) {
    && |goes| == |queue| && (forall k :: 0 <= k < |goes| ==> goes[k].id == queue[k].id)
    && forall j :: j in started <==> exists k :: 0 <= k < |goes| && goes[k].id == j && goes[k].machine.Some?
  }

  lemma NothingDone(jobs: seq<Job>, queue: seq<Waiting>)
    ensures Acts([]) == [] && ActedOn(queue[..0], {}, []) && CarriedOut(jobs, jobs, queue, [], {})
  {
  }

  lemma ActedOnMore(queue: seq<Waiting>, n: nat, started: set<JobId>, goes: seq<Go>, g: Go)
    requires n < |queue| && ActedOn(queue[..n], started, goes) && g.id == queue[n].id
    ensures ActedOn(queue[..n + 1], if g.machine.Some? then started + {g.id} else started, goes + [g])
  {
    var more, all := if g.machine.Some? then started + {g.id} else started, goes + [g];
    forall k | 0 <= k < |all| ensures all[k].id == queue[..n + 1][k].id {
      assert k < n ==> queue[..n][k] == queue[k];
    }
    forall j ensures j in more <==> exists k :: 0 <= k < |all| && all[k].id == j && all[k].machine.Some? {
      if k :| 0 <= k < |goes| && goes[k].id == j && goes[k].machine.Some? {
        assert all[k] == goes[k];
      }
      if g.machine.Some? && g.id == j {
        assert all[|goes|] == g;
      }
    }
  }

  /** Before the first decision the walk is in step with the tables it read. */
  method StartWalk(engine: Engine, p: Policy, queue: seq<Waiting>) returns (pass: Pass)
    requires engine.Valid() && Usable(p)
    requires forall k :: 0 <= k < |queue| ==>
               queue[k].id < |engine.store.jobs| && engine.store.jobs[queue[k].id].state == Queued
               && queue[k] == WaitingOf(engine.store.jobs, queue[k].id)
    requires forall i, k :: 0 <= i < k < |queue| ==> queue[i].id != queue[k].id
    ensures fresh(pass) && pass.queue == queue && pass.index == 0
    ensures Walking(engine, pass, p, engine.store.View())
  {
    hide Reached, After;
    var headroom := Headroom(engine.store, engine.cfg);
    ghost var running := RunningFor(engine.store.View(), queue);
    pass := new Pass(queue, engine.store.suspended, headroom, engine.cfg.maxRunning, p.sites, p.tiers, running);
  }

  /** The loop of `_dispatch` over the decisions. */
  method WalkAll(engine: Engine, pass: Pass, p: Policy, ghost db0: Db, ghost w: World, ghost n: nat)
    returns (ds: seq<Decision>, started: set<JobId>, ghost goes: seq<Go>)
    requires Usable(p) && Walking(engine, pass, p, db0) && pass.decided == [] && engine.store.jobs == db0.jobs
    requires CutsSafe(w, engine.done, n) && NoNewDrift(w, engine.Now())
    modifies engine, engine.store, engine.fleet, pass
    ensures Walking(engine, pass, p, db0) && pass.decided == ds && |ds| == |pass.queue|
    ensures CutsSafe(w, engine.done, n) && NoNewDrift(w, engine.Now())
    ensures engine.done == old(engine.done) + Acts(goes) && ActedOn(pass.queue, started, goes)
    ensures CarriedOut(db0.jobs, engine.store.jobs, pass.queue, ds, started)
  {
    hide Reached, After, CutsSafe, NoNewDrift, Tracks, Greedy, PoolCommitted, RunningCount, Acts, GoOn, ActedOn, CarriedOut;
    ds, started, goes := [], {}, [];
    NothingDone(db0.jobs, pass.queue);
    while pass.index < |pass.queue|
      invariant Walking(engine, pass, p, db0) && pass.decided == ds
      invariant CutsSafe(w, engine.done, n) && NoNewDrift(w, engine.Now())
      invariant engine.done == old(engine.done) + Acts(goes) && |goes| == |ds|
      invariant ActedOn(pass.queue[..|ds|], started, goes)
      invariant CarriedOut(db0.jobs, engine.store.jobs, pass.queue, ds, started)
      decreases |pass.queue| - pass.index
    {
      StillWaiting(engine, pass, p, db0);
      ghost var jobs := engine.store.jobs;
      var wait := pass.queue[pass.index];
      var d, h, _, g := DecideOne(engine, pass, p, db0, w, n);
      ActsMore(goes, g);
      ActedOnMore(pass.queue, |ds|, started, goes, g);
      goes := goes + [g];
      CarriedOneMore(db0.jobs, jobs, engine.store.jobs, pass.queue, ds, d, started, h);
      ds := ds + [d];
      if h.Some? {
        started := started + {wait.id};
      }
    }
    assert pass.queue[..|ds|] == pass.queue;
  }

  /** `_dispatch`: the queue in priority order, one greedy decision for every job in it, and the
      jobs that were told to go and got a machine. */
  method DispatchAll(engine: Engine, p: Policy, now: real, ghost w: World, ghost n: nat)
    returns (queue: seq<Waiting>, ds: seq<Decision>, started: set<JobId>, shares: map<UserId, real>,
             ghost frees: seq<Slots>, ghost goes: seq<Go>)
    requires engine.Valid() && Usable(p)
    requires CutsSafe(w, engine.done, n) && NoNewDrift(w, engine.Now())
    modifies engine, engine.store, engine.fleet
    ensures engine.Valid() && engine.done == old(engine.done) + Acts(goes) && ActedOn(queue, started, goes)
    ensures CutsSafe(w, engine.done, n) && NoNewDrift(w, engine.Now())
    ensures forall u :: FairShare.Lookup(shares, u)
              == FairShare.ShareOf(p.decay, old(engine.store.ledger), u, p.blend, FairShare.Window(now, now - p.window))
    ensures QueueOf(old(engine.store.jobs), p.weights, shares, now, queue)
    ensures |ds| == |queue| && Greedy(TermsOf(engine.cfg, p, old(engine.store.View()), queue), queue, ds, frees)
    ensures CarriedOut(old(engine.store.jobs), engine.store.jobs, queue, ds, started)
    ensures WellPlaced(p, old(engine.store.jobs), engine.store.jobs, queue, frees, started)
  {
    hide Reached, After, CutsSafe, NoNewDrift, Tracks, WellPlaced, Greedy, FairShare.Lookup, FairShare.ShareOf, PoolCommitted;
    ghost var db0 := engine.store.View();
    queue, shares := OrderedQueue(engine.store, p, now);
    var pass := StartWalk(engine, p, queue);
    ds, started, goes := WalkAll(engine, pass, p, db0, w, n);
    frees := pass.frees;
    StartedWellPlaced(engine.cfg, p, db0, engine.store.jobs, queue, ds, frees, started);
  }

  // ------------------------------------------------------------------------- tick

  /** Everything a poll could say, with the fallback tier worked out as the scheduler would. */
  method Look(store: Store, p: Policy, id: JobId) returns (s: Sight)
    requires id < |store.jobs|
    ensures Placement.IsFallback(WantOf(store.jobs[id]), p.sites, p.tiers, p.spot, s.fallback)
  {
    s := *;
    var fallback := Placement.FallbackTier(WantOf(store.jobs[id]), p.sites, p.tiers, p.spot);
    s := s.(fallback := fallback);
  }

  /** A look at a job that works out its fallback tier as it should, the row that look leaves, and what it
      leaves the job having spent. */
  ghost predicate Answered(cfg: Config, p: Policy, db0: Db, db: Db, price: GpuType -> real, now: real, t: Turn)
    requires t.id < |db0.jobs| && t.id < |db.jobs|
  {
    var job, q := db0.jobs[t.id], OfJobAnyCurrency(t.id);
    && Placement.IsFallback(WantOf(job), p.sites, p.tiers, p.spot, t.sight.fallback)
    && db.jobs[t.id] == Outcome(cfg, job, price(job.gpu), now, t.moment.now, t.sight)
    && Spent(db.ledger, q) == SpentAfter(cfg, job, Spent(db0.ledger, q), price(job.gpu), now)
  }

  /** Every job that was active was looked at, once and in order of submission; its row is what its look leaves, and
      it has spent what that settles. */
  ghost predicate AllAnswered(cfg: Config, p: Policy, db0: Db, db: Db, price: GpuType -> real, now: real, turns: seq<Turn>)
  {
    && |db.jobs| == |db0.jobs| && ActiveTurns(db0.jobs, turns)
    && (forall j :: 0 <= j < |db0.jobs| && db0.jobs[j].state in ACTIVE ==> LookedAt(turns, j))
    && forall k :: 0 <= k < |turns| ==> Answered(cfg, p, db0, db, price, now, turns[k])
  }

  /** Nothing about this job has changed, nor what it has spent. */
  predicate Untouched(db0: Db, db: Db, j: JobId) {
    && j < |db0.jobs| == |db.jobs| && db.jobs[j] == db0.jobs[j]
    && Spent(db.ledger, OfJobAnyCurrency(j)) == Spent(db0.ledger, OfJobAnyCurrency(j))
  }

  /** One turn of the loop: some time passes, and one job is looked at. */
  method LookOnce(engine: Engine, p: Policy, id: JobId, price: GpuType -> real, now: real, ghost w: World, ghost n: nat)
    returns (raised: bool, ghost t: Turn)
    requires engine.Valid() && id < |engine.store.jobs| && engine.store.jobs[id].state in ACTIVE
    requires CutsSafe(w, engine.done, n) && NoNewDrift(w, engine.Now())
    modifies engine, engine.store, engine.fleet
    ensures engine.Valid() && CutsSafe(w, engine.done, n) && t.id == id
    ensures var front := old(engine.done) + [Elapse(t.moment)];
            engine.done == front + LookAt(engine.cfg, price, now, front, t)
    ensures !raised ==> NoNewDrift(w, engine.Now())
    ensures raised ==> LosesOne(w, engine.Now(), id) && id in Lost(engine.Now()) && MayRaise(old(engine.store.jobs[id]))
    ensures |engine.store.jobs| == old(|engine.store.jobs|)
    ensures Answered(engine.cfg, p, old(engine.store.View()), engine.store.View(), price, now, t)
    ensures forall j: JobId :: j < |engine.store.jobs| && j != id ==>
              Untouched(old(engine.store.View()), engine.store.View(), j)
  {
    hide Reached, After, CutsSafe, NoNewDrift, LosesOne, Lost, Script, Outcome, Spent, SpentAfter, LookAt;
    ghost var moment := TimePasses(engine, w, n);
    ghost var front := engine.done;
    var s := Look(engine.store, p, id);
    t := Turn(moment, id, s);
    LookIs(engine.cfg, price, now, front, t);
    raised := AdvanceOne(engine, id, price(engine.store.jobs[id].gpu), now, s, w, n);
  }

  /** An answer stands as long as its job is left alone, before and after. */
  lemma AnswerStands(cfg: Config, p: Policy, db0: Db, a: Db, b: Db, db: Db, price: GpuType -> real, now: real, t: Turn)
    requires Untouched(db0, a, t.id) && t.id < |b.jobs| && Untouched(b, db, t.id)
    requires Answered(cfg, p, a, b, price, now, t)
    ensures t.id < |db0.jobs| && t.id < |db.jobs| && Answered(cfg, p, db0, db, price, now, t)
  {
    hide Spent, SpentAfter;
  }

  /** The first loop of `tick`: every job that was active when it began, one after another. */
  method AdvanceAll(engine: Engine, p: Policy, price: GpuType -> real, now: real, ghost w: World, ghost n: nat)
    returns (raised: Option<JobId>, ghost turns: seq<Turn>)
    requires engine.Valid() && w == engine.Now() && CutsSafe(w, engine.done, n)
    modifies engine, engine.store, engine.fleet
    ensures engine.Valid() && CutsSafe(w, engine.done, n)
    ensures engine.done == Looks(engine.cfg, price, now, old(engine.done), turns) && ActiveTurns(w.db.jobs, turns)
    ensures raised.None? ==> NoNewDrift(w, engine.Now())
    ensures raised.Some? ==> LosesOne(w, engine.Now(), raised.value) && raised.value in Lost(engine.Now())
    ensures raised.Some? ==> raised.value < |w.db.jobs| && MayRaise(w.db.jobs[raised.value])
                             && turns != [] && turns[|turns| - 1].id == raised.value
    ensures |engine.store.jobs| == |w.db.jobs|
    ensures forall j :: 0 <= j < |w.db.jobs| && w.db.jobs[j].state !in ACTIVE ==> engine.store.jobs[j] == w.db.jobs[j]
    ensures raised.None? ==> AllAnswered(engine.cfg, p, w.db, engine.store.View(), price, now, turns)
  {
    hide Reached, After, CutsSafe, NoNewDrift, LosesOne, Lost, Spent, Looks, LookAt, Answered, MayRaise, Untouched;
    var ids := engine.store.ActiveJobs();
    DriftFromItself(w);
    turns := [];
    NoLooks(engine.cfg, price, now, engine.done);
    AllUntouched(w.db);
    raised := None;
    for i := 0 to |ids|
      invariant engine.Valid() && engine.done == Looks(engine.cfg, price, now, old(engine.done), turns)
      invariant |turns| == i && forall k :: 0 <= k < i ==> turns[k].id == ids[k]
      invariant CutsSafe(w, engine.done, n) && NoNewDrift(w, engine.Now())
      invariant |engine.store.jobs| == |w.db.jobs| && OthersUntouched(w.db, engine.store.View(), ids[..i])
      invariant forall k :: 0 <= k < i ==> Answered(engine.cfg, p, w.db, engine.store.View(), price, now, turns[k])
    {
      ghost var db := engine.store.View();
      NotYet(w.db, db, ids, i);
      var raises, t := LookOnce(engine, p, ids[i], price, now, w, n);
      LooksMore(engine.cfg, price, now, old(engine.done), turns, t);
      AnswersStand(engine.cfg, p, w.db, db, engine.store.View(), price, now, turns, t, ids, i);
      turns := turns + [t];
      if raises {
        raised := Some(ids[i]);
        RestUntouched(w.db, engine.store.View(), ids[..i + 1]);
        return;
      }
    }
    RestUntouched(w.db, engine.store.View(), ids[..|ids|]);
    AllLookedAt(w.db.jobs, ids, turns);
  }

  ghost predicate OthersUntouched(db0: Db, db: Db, ids: seq<JobId>) {
    |db.jobs| == |db0.jobs| && forall j: JobId :: j < |db0.jobs| && j !in ids ==> Untouched(db0, db, j)
  }

  lemma AllUntouched(db: Db)
    ensures OthersUntouched(db, db, [])
  {
    hide Spent;
  }

  lemma NotYet(db0: Db, db: Db, ids: seq<JobId>, i: nat)
    requires i < |ids| && ids[i] < |db0.jobs| && OthersUntouched(db0, db, ids[..i])
    requires forall j, k :: 0 <= j < k < |ids| ==> ids[j] < ids[k]
    ensures Untouched(db0, db, ids[i]) && ids[i] < |db.jobs| && db.jobs[ids[i]] == db0.jobs[ids[i]]
  {
    hide Spent;
    assert ids[i] !in ids[..i];
  }

  lemma RestUntouched(db0: Db, db: Db, ids: seq<JobId>)
    requires OthersUntouched(db0, db, ids)
    requires forall k :: 0 <= k < |ids| ==> ids[k] < |db0.jobs| && db0.jobs[ids[k]].state in ACTIVE
    ensures forall j :: 0 <= j < |db0.jobs| && db0.jobs[j].state !in ACTIVE ==> db.jobs[j] == db0.jobs[j]
  {
    hide Spent;
    forall j: JobId | j < |db0.jobs| && db0.jobs[j].state !in ACTIVE ensures db.jobs[j] == db0.jobs[j] {
      assert Untouched(db0, db, j);
    }
  }

  /** One more look leaves every earlier answer standing, and gives its own. */
  lemma AnswersStand(cfg: Config, p: Policy, db0: Db, db: Db, db': Db, price: GpuType -> real, now: real,
                     turns: seq<Turn>, t: Turn, ids: seq<JobId>, i: nat)
    requires i < |ids| && |turns| == i && (forall k :: 0 <= k < i ==> turns[k].id == ids[k]) && t.id == ids[i]
    requires forall j, k :: 0 <= j < k < |ids| ==> ids[j] < ids[k]
    requires ids[i] < |db0.jobs| == |db.jobs| == |db'.jobs| && OthersUntouched(db0, db, ids[..i])
    requires forall j: JobId :: j < |db.jobs| && j != t.id ==> Untouched(db, db', j)
    requires forall k :: 0 <= k < i ==> ids[k] < |db0.jobs| && Answered(cfg, p, db0, db, price, now, turns[k])
    requires Answered(cfg, p, db, db', price, now, t)
    ensures forall k :: 0 <= k <= i ==> Answered(cfg, p, db0, db', price, now, (turns + [t])[k])
    ensures OthersUntouched(db0, db', ids[..i + 1])
  {
    hide Answered, Spent;
    NotYet(db0, db, ids, i);
    AnswerStands(cfg, p, db0, db, db', db', price, now, t);
    forall k | 0 <= k < i ensures Answered(cfg, p, db0, db', price, now, turns[k]) {
      AnswerStands(cfg, p, db0, db0, db, db', price, now, turns[k]);
    }
    assert ids[..i + 1] == ids[..i] + [ids[i]];
    forall j: JobId | j < |db0.jobs| && j !in ids[..i + 1] ensures Untouched(db0, db', j) {
      assert Untouched(db0, db, j) && Untouched(db, db', j);
    }
  }

  lemma AllLookedAt(jobs: seq<Job>, ids: seq<JobId>, turns: seq<Turn>)
    requires |turns| == |ids| && forall k :: 0 <= k < |ids| ==> turns[k].id == ids[k]
    requires forall j :: 0 <= j < |jobs| && jobs[j].state in ACTIVE ==> j in ids
    ensures forall j :: 0 <= j < |jobs| && jobs[j].state in ACTIVE ==> LookedAt(turns, j)
  {
    forall j | 0 <= j < |jobs| && jobs[j].state in ACTIVE ensures LookedAt(turns, j) {
      var k :| 0 <= k < |ids| && ids[k] == j;
      assert turns[k].id == j;
    }
  }

  lemma DriftFromItself(w: World)
    ensures NoNewDrift(w, w)
  {
  }

  /** The only jobs an interruption can make a tick raise on: those restoring a checkpoint, with no cancel pending. */
  predicate MayRaise(job: Job) {
    job.state == Resuming && !job.cancelRequested
  }

  lemma RaisesOnResuming(cfg: Config, done: seq<Effect>, id: JobId, s: Sight)
    requires Reached(cfg, done) && id < |After(done).db.jobs| && After(done).db.jobs[id].state in ACTIVE
    ensures var job := After(done).db.jobs[id];
            Raises(cfg, job, s) <==> MayRaise(job) && Reachable(cfg, job) && s.status == SeenInterrupted
  {
    hide Reached, After;
    if Reachable(cfg, After(done).db.jobs[id]) {
      Lifetimes.ReachedRaises(cfg, done, id, s);
    }
  }

  method AdvanceOne(engine: Engine, id: JobId, price: real, now: real, s: Sight, ghost w: World, ghost n: nat)
    returns (raised: bool)
    requires engine.Valid() && id < |engine.store.jobs| && engine.store.jobs[id].state in ACTIVE
    requires CutsSafe(w, engine.done, n) && NoNewDrift(w, engine.Now())
    modifies engine, engine.store, engine.fleet
    ensures engine.Valid() && CutsSafe(w, engine.done, n)
    ensures engine.done == old(engine.done) + Script(engine.cfg, old(engine.store.View()), id, price, now, s)
    ensures Spent(engine.store.ledger, OfJobAnyCurrency(id))
         == SpentAfter(engine.cfg, old(engine.store.jobs[id]), old(Spent(engine.store.ledger, OfJobAnyCurrency(id))),
                       price, now)
    ensures forall j: JobId :: j != id ==>
              Spent(engine.store.ledger, OfJobAnyCurrency(j)) == old(Spent(engine.store.ledger, OfJobAnyCurrency(j)))
    ensures !raised ==> NoNewDrift(w, engine.Now())
    ensures raised ==> LosesOne(w, engine.Now(), id) && id in Lost(engine.Now())
    ensures raised <==> MayRaise(old(engine.store.jobs[id])) && Reachable(engine.cfg, old(engine.store.jobs[id]))
                        && s.status == SeenInterrupted
    ensures |engine.store.jobs| == old(|engine.store.jobs|)
    ensures forall j :: 0 <= j < |engine.store.jobs| && j != id ==> engine.store.jobs[j] == old(engine.store.jobs[j])
    ensures engine.store.jobs[id]
         == Outcome(engine.cfg, old(engine.store.jobs[id]), price, now, old(engine.store.clock.now), s)
  {
    hide Reached, CutsSafe, NoNewDrift, LosesOne, Lost, Script, Raises, Play, Outcome, Spent, SpentAfter, SpendsOnlyOn;
    AdvanceSpends(engine.cfg, engine.done, id, price, now, s);
    AdvanceCuts(engine.cfg, w, engine.done, n, id, price, now, s);
    RaisesOnResuming(engine.cfg, engine.done, id, s);
    var r := Scheduler.AdvanceJob(engine, id, price, now, s);
    raised := r.Err?;
  }

  /** What a tick that returned did after its first loop: the tables as that loop left them, the queue
      read from them, the decision about every job in it, and the jobs that started. */
  datatype Report = Report(settled: Db, queue: seq<Waiting>, decisions: seq<Decision>, started: set<JobId>,
                           shares: map<UserId, real>)

  ghost predicate Reported(cfg: Config, p: Policy, db0: Db, jobs: seq<Job>, price: GpuType -> real, now: real,
                           report: Report, turns: seq<Turn>, frees: seq<Slots>, goes: seq<Go>)
    requires Usable(p)
  {
    && AllAnswered(cfg, p, db0, report.settled, price, now, turns)
    && QueueOf(report.settled.jobs, p.weights, report.shares, now, report.queue)
    && |report.decisions| == |report.queue|
    && Greedy(TermsOf(cfg, p, report.settled, report.queue), report.queue, report.decisions, frees)
    && CarriedOut(report.settled.jobs, jobs, report.queue, report.decisions, report.started)
    && WellPlaced(p, report.settled.jobs, jobs, report.queue, frees, report.started)
    && ActedOn(report.queue, report.started, goes)
  }

  /** What a tick leaves of a job that had a machine when it began, told by what the backend said about it. */
  ghost predicate AsTold(cfg: Config, job0: Job, job: Job, price: real, now: real, s: Sight) {
    job0.place.Some? && job0.place.value.backend in cfg.backends ==>
      && (job0.cancelRequested ==> job.state == Cancelled)
      && (!job0.cancelRequested ==>
            && (job.state == Completed <==> s.status == SeenCompleted)
            && (job.state == Failed <==>
                  s.status in {SeenFailed, SeenGone} || (s.status == SeenReady && s.startFails)
                  || (s.status in {SeenPending, SeenRunning} && job0.reserved <= FullCost(job0, price, now)))
            && job.state != Cancelled
            && (s.status in {SeenCompleted, SeenFailed, SeenGone} ==>
                  job.exitCode == (if s.exit.Some? then s.exit else job0.exitCode)))
  }

  /** A look leaves its job as it was told. */
  lemma LookTells(cfg: Config, p: Policy, db0: Db, db: Db, price: GpuType -> real, now: real, t: Turn)
    requires t.id < |db0.jobs| && t.id < |db.jobs| && Answered(cfg, p, db0, db, price, now, t)
    requires db0.jobs[t.id].state in {Allocating, Running, Resuming}
    ensures AsTold(cfg, db0.jobs[t.id], db.jobs[t.id], price(db0.jobs[t.id].gpu), now, t.sight)
  {
    hide Spent, SpentAfter, Outcome, FullCost, Placement.IsFallback;
    var job := db0.jobs[t.id];
    if job.place.Some? && job.place.value.backend in cfg.backends {
      if job.cancelRequested {
        CancelledOutcome(cfg, job, price(job.gpu), now, t.moment.now, t.sight);
      } else {
        EndsAsTold(cfg, job, price(job.gpu), now, t.moment.now, t.sight);
      }
    }
  }

  /** Dispatching starts only jobs that wait. */
  lemma OnlyQueuedStart(weights: QueueOrder.Weights, shares: map<UserId, real>, now: real, jobs0: seq<Job>,
                        jobs: seq<Job>, queue: seq<Waiting>, ds: seq<Decision>, started: set<JobId>, j: JobId)
    requires QueueOrder.Sound(weights) && QueueOf(jobs0, weights, shares, now, queue) && |ds| == |queue|
    requires CarriedOut(jobs0, jobs, queue, ds, started) && j < |jobs|
    ensures jobs[j] == jobs0[j] || (jobs0[j].state == Queued && jobs[j].state == Allocating)
  {
    hide QueueOrder.Leads;
  }

  /** Nothing the dispatch loop does changes what a look decided. */
  lemma ToldAtTheEnd(cfg: Config, p: Policy, db0: Db, jobs: seq<Job>, price: GpuType -> real, now: real,
                     report: Report, turns: seq<Turn>, frees: seq<Slots>, goes: seq<Go>, k: nat)
    requires Usable(p) && Reported(cfg, p, db0, jobs, price, now, report, turns, frees, goes)
    requires k < |turns| && Lifetimes.Timed(db0.jobs[turns[k].id])
    ensures turns[k].id < |jobs|
    ensures AsTold(cfg, db0.jobs[turns[k].id], jobs[turns[k].id], price(db0.jobs[turns[k].id].gpu), now, turns[k].sight)
  {
    hide Greedy, FullCost, QueueOf, CarriedOut, ActedOn, Answered, WellPlaced;
    var id := turns[k].id;
    assert |jobs| == |report.settled.jobs| by { SameLength(report.settled.jobs, jobs, report); }
    LookTells(cfg, p, db0, report.settled, price, now, turns[k]);
    OnlyQueuedStart(p.weights, report.shares, now, report.settled.jobs, jobs, report.queue, report.decisions,
                    report.started, id);
  }

  lemma SameLength(jobs0: seq<Job>, jobs: seq<Job>, report: Report)
    requires |report.decisions| == |report.queue|
    requires CarriedOut(jobs0, jobs, report.queue, report.decisions, report.started)
    ensures |jobs| == |jobs0|
  {
  }

  /** `tick`, over whatever the backends answer and however much time passes inside it.
      It commits exactly its looks and what its decisions led to, in that order; it can be killed between any two
      effects and at most one thing has drifted. If it returns, every active job is where its look puts it and has
      spent what that settles, the queue was walked greedily, and nothing new has drifted. If it raises,
      the job it raised on was RESUMING, and is left naming a machine that has been stopped. Jobs that were
      neither active nor queued are not touched, so one left between attempts stays there. */
  method RunTick(engine: Engine, p: Policy, price: GpuType -> real)
    returns (r: Result<Report, JobId>, ghost turns: seq<Turn>, ghost frees: seq<Slots>, ghost goes: seq<Go>)
    requires engine.Valid() && Usable(p)
    modifies engine, engine.store, engine.fleet
    ensures engine.Valid() && old(engine.done) <= engine.done && ActiveTurns(old(engine.store.jobs), turns)
    ensures engine.done
         == Looks(engine.cfg, price, old(engine.store.clock.now), old(engine.done), turns)
            + (if r.Ok? then Acts(goes) else [])
    ensures CutsSafe(old(engine.Now()), engine.done, old(|engine.done|))
    ensures r.Ok? ==> NoNewDrift(old(engine.Now()), engine.Now()) && (Tidy(old(engine.Now())) ==> Tidy(engine.Now()))
    ensures r.Ok? ==> Reported(engine.cfg, p, old(engine.store.View()), engine.store.jobs, price,
                               old(engine.store.clock.now), r.value, turns, frees, goes)
    ensures r.Ok? ==> forall k :: 0 <= k < |turns| ==>
              var job := old(engine.store.jobs)[turns[k].id];
              AsTold(engine.cfg, job, engine.store.jobs[turns[k].id], price(job.gpu), old(engine.store.clock.now),
                     turns[k].sight)
    ensures r.Ok? ==> forall j: JobId ::
              Spent(engine.store.ledger, OfJobAnyCurrency(j)) == Spent(r.value.settled.ledger, OfJobAnyCurrency(j))
    ensures r.Err? ==> LosesOne(old(engine.Now()), engine.Now(), r.error) && r.error in Lost(engine.Now())
    ensures r.Err? ==> r.error < old(|engine.store.jobs|) && MayRaise(old(engine.store.jobs[r.error]))
                       && turns != [] && turns[|turns| - 1].id == r.error
    ensures |engine.store.jobs| == old(|engine.store.jobs|)
    ensures forall j :: 0 <= j < |engine.store.jobs| && old(engine.store.jobs[j].state) !in ACTIVE + {Queued} ==>
              engine.store.jobs[j] == old(engine.store.jobs[j])
  {
    hide Reached, CutsSafe, NoNewDrift, LosesOne, Lost, Greedy, FairShare.ShareOf, FairShare.Lookup, AllAnswered, After,
         Looks, Acts, Spent, AsTold, Lifetimes.Timed, ActedOn, WellPlaced;
    ghost var w := engine.Now();
    NothingYet(engine.done);
    Lifetimes.EveryJobTimed(engine.cfg, engine.done);
    assert forall j :: 0 <= j < |w.db.jobs| ==> Lifetimes.Timed(w.db.jobs[j]);
    var now := engine.store.clock.now;
    var raised;
    ghost var start := engine.done;
    raised, turns := AdvanceAll(engine, p, price, now, w, |engine.done|);
    LooksGrow(engine.cfg, price, now, start, turns);
    if raised.Some? {
      frees, goes := [], [];
      return Err(raised.value), turns, frees, goes;
    }
    var settled := Db(engine.store.jobs, engine.store.ledger, engine.store.history, engine.store.suspended,
                      engine.store.clock);
    var queue, ds, started, shares;
    ghost var looked := engine.done;
    queue, ds, started, shares, frees, goes := DispatchAll(engine, p, now, w, old(|engine.done|));
    forall j: JobId
      ensures Spent(engine.store.ledger, OfJobAnyCurrency(j)) == Spent(settled.ledger, OfJobAnyCurrency(j))
    {
      ActsSpendNothing(goes, j);
      Lifetimes.SpendOnlySo(engine.cfg, looked, Acts(goes), j);
    }
    r := Ok(Report(settled, queue, ds, started, shares));
    forall k | 0 <= k < |turns|
      ensures AsTold(engine.cfg, w.db.jobs[turns[k].id], engine.store.jobs[turns[k].id], price(w.db.jobs[turns[k].id].gpu),
                     now, turns[k].sight)
    {
      ToldAtTheEnd(engine.cfg, p, w.db, engine.store.jobs, price, now, r.value, turns, frees, goes, k);
    }
    if Tidy(w) {
      TidyStays(w, engine.Now());
    }
  }

  // -------------------------------------------------------------- between two ticks

  /** Nothing has drifted. */
  predicate Tidy(w: World) {
    Orphans(w) == {} && Lost(w) == {} && Stranded(w) == {}
  }

  /** In a tidy state that the broker can reach: a job names a machine exactly while it is active, every such
      machine is up, no job rests between attempts, every tagged machine that is up belongs to exactly one
      active job, and nobody holds more machines than the limit. */
  lemma TidyMeans(cfg: Config, w: World)
    requires Inv(cfg, w) && Tidy(w)
    ensures forall j :: 0 <= j < |w.db.jobs| ==>
              && (w.db.jobs[j].place.Some? <==> w.db.jobs[j].state in ACTIVE)
              && (w.db.jobs[j].place.Some? ==> w.db.jobs[j].place.value in w.machines
                                               && w.machines[w.db.jobs[j].place.value] == Machine(Some(j), true))
              && w.db.jobs[j].state != Preempted
    ensures forall h :: h in w.machines && w.machines[h].live && w.machines[h].job.Some? ==>
              Holds(w.db.jobs, w.machines[h].job.value, h)
              && forall j: JobId :: Holds(w.db.jobs, j, h) ==> w.machines[h].job == Some(j)
    ensures forall u :: RunningCount(w.db, u) <= cfg.maxRunning
  {
    forall j | 0 <= j < |w.db.jobs|
      ensures PlaceKnown(w, j) && w.db.jobs[j].state != Preempted && !IsLost(w, j)
    {
      assert PlaceKnown(w, j);
      assert j !in Stranded(w) && j !in Lost(w);
    }
    forall h | h in w.machines && w.machines[h].live && w.machines[h].job.Some?
      ensures Holds(w.db.jobs, w.machines[h].job.value, h)
      ensures forall j: JobId :: Holds(w.db.jobs, j, h) ==> w.machines[h].job == Some(j)
    {
      assert h !in Orphans(w);
      var j :| 0 <= j < |w.db.jobs| && Holds(w.db.jobs, j, h);
      assert PlaceKnown(w, j);
      forall i: JobId | Holds(w.db.jobs, i, h) ensures w.machines[h].job == Some(i) {
        assert PlaceKnown(w, i);
      }
    }
  }

  /** Machines on distinct jobs are no more than the jobs they are on. */
  lemma {:induction false} OneMachineEach(jobs: seq<Job>, machines: map<Handle, Machine>,
                                          hs: set<Handle>, js: set<JobId>)
    requires forall h :: h in hs ==>
               && h in machines && machines[h].job.Some? && machines[h].job.value in js
               && machines[h].job.value < |jobs| && jobs[machines[h].job.value].place == Some(h)
    ensures |hs| <= |js|
  {
    if h :| h in hs {
      OneMachineEach(jobs, machines, hs - {h}, js - {machines[h].job.value});
    }
  }

  /** In a tidy state the limit holds for the machines themselves: no user has more of them up than it allows. */
  lemma TidyLimit(cfg: Config, w: World, u: UserId)
    requires Inv(cfg, w) && Tidy(w)
    ensures |set h | h in w.machines && w.machines[h].live && w.machines[h].job.Some?
                     && w.machines[h].job.value < |w.db.jobs| && w.db.jobs[w.machines[h].job.value].user == u|
            <= cfg.maxRunning
  {
    var jobs := w.db.jobs;
    var hs := set h | h in w.machines && w.machines[h].live && w.machines[h].job.Some?
                      && w.machines[h].job.value < |jobs| && jobs[w.machines[h].job.value].user == u;
    var js := set j | 0 <= j < |jobs| && jobs[j].user == u
                      && jobs[j].state in {Allocating, Running, Checkpointing, Resuming};
    TidyMeans(cfg, w);
    forall h | h in hs ensures w.machines[h].job.value in js && jobs[w.machines[h].job.value].place == Some(h) {
      assert Holds(jobs, w.machines[h].job.value, h);
    }
    OneMachineEach(jobs, w.machines, hs, js);
    CountIsMachines(jobs, u, |jobs|);
    assert RunningCount(w.db, u) <= cfg.maxRunning;
  }

  /** A tick that returns keeps a tidy broker tidy. */
  lemma TidyStays(w: World, w': World)
    requires Tidy(w) && NoNewDrift(w, w')
    ensures Tidy(w')
  {
  }
}
