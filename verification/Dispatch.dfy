/** Giving queued jobs machines (gpu_broker/scheduler.py `ordered_queue`, `_dispatch`). */
module Dispatch {
  import opened Wrappers
  import opened Money
  import opened States
  import opened Ledger
  import opened Tables
  import opened World
  import opened Books
  import opened Advance
  import opened Store
  import opened Engine
  import opened Decisions
  import opened Drift
  import FairShare
  import QueueOrder
  import Placement
  import Counting

  /** The configuration dispatch reads, apart from the caps. */
  datatype Policy = Policy(weights: QueueOrder.Weights, decay: real -> real, blend: FairShare.Blend, window: real,
                           sites: seq<Placement.Site>, tiers: seq<Tier>, spot: Tier)

  predicate Usable(p: Policy) {
    QueueOrder.Sound(p.weights) && p.tiers != []
  }

  // ---------------------------------------------------------------------- the queue

  function EntrantOf(jobs: seq<Job>, id: JobId): QueueOrder.Entrant
    requires id < |jobs|
  {
    QueueOrder.Entrant(id, jobs[id].user, jobs[id].submittedAt, jobs[id].startedAt)
  }

  function WantOf(job: Job): Placement.Want {
    Placement.Want(job.gpu, job.currency, job.pinned)
  }

  function WaitingOf(jobs: seq<Job>, id: JobId): Waiting
    requires id < |jobs|
  {
    Waiting(id, jobs[id].user, jobs[id].currency, jobs[id].reserved, WantOf(jobs[id]))
  }

  /** Every queued job once, and every pair in the order its priorities give. */
  ghost predicate QueueOf(jobs: seq<Job>, weights: QueueOrder.Weights, shares: map<UserId, real>, now: real,
                          queue: seq<Waiting>)
    requires QueueOrder.Sound(weights)
  {
    && (forall k :: 0 <= k < |queue| ==>
          queue[k].id < |jobs| && jobs[queue[k].id].state == Queued && queue[k] == WaitingOf(jobs, queue[k].id))
    && (forall j :: 0 <= j < |jobs| && jobs[j].state == Queued ==> exists k :: 0 <= k < |queue| && queue[k].id == j)
    && (forall i, k :: 0 <= i < k < |queue| ==>
          var x, y := queue[i].id, queue[k].id;
          && x != y
          && QueueOrder.Leads(weights, shares, now,
                              QueueOrder.Entrant(x, jobs[x].user, jobs[x].submittedAt, jobs[x].startedAt),
                              QueueOrder.Entrant(y, jobs[y].user, jobs[y].submittedAt, jobs[y].startedAt)))
  }

  /** `ordered_queue`: everything waiting, by fair share and age. */
  method OrderedQueue(store: Store, p: Policy, now: real) returns (queue: seq<Waiting>, shares: map<UserId, real>)
    requires Usable(p)
    ensures forall u :: FairShare.Lookup(shares, u)
              == FairShare.ShareOf(p.decay, store.ledger, u, p.blend, FairShare.Window(now, now - p.window))
    ensures QueueOf(store.jobs, p.weights, shares, now, queue)
  {
    var ids := store.QueuedJobs();
    shares := FairShare.UsageShares(p.decay, store.ledger, p.blend, FairShare.Window(now, now - p.window));
    var entrants := EntrantsOf(store.jobs, ids);
    var sorted := QueueOrder.OrderQueue(p.weights, shares, now, entrants);
    Arranged(store.jobs, p.weights, shares, now, ids, entrants);
    queue := Listed(store.jobs, sorted);
    Relisted(store.jobs, p.weights, shares, now, sorted);
  }

  function EntrantsOf(jobs: seq<Job>, ids: seq<JobId>): seq<QueueOrder.Entrant>
    requires forall k :: 0 <= k < |ids| ==> ids[k] < |jobs|
  {
    seq(|ids|, k requires 0 <= k < |ids| => EntrantOf(jobs, ids[k]))
  }

  function Listed(jobs: seq<Job>, q: seq<QueueOrder.Entrant>): seq<Waiting>
    requires forall k :: 0 <= k < |q| ==> q[k].id < |jobs|
  {
    seq(|q|, k requires 0 <= k < |q| => WaitingOf(jobs, q[k].id))
  }

  lemma Relisted(jobs: seq<Job>, weights: QueueOrder.Weights, shares: map<UserId, real>, now: real,
                 q: seq<QueueOrder.Entrant>)
    requires QueueOrder.Sound(weights)
    requires forall k :: 0 <= k < |q| ==>
               q[k].id < |jobs| && jobs[q[k].id].state == Queued && q[k] == EntrantOf(jobs, q[k].id)
    requires forall j :: 0 <= j < |jobs| && jobs[j].state == Queued ==> exists k :: 0 <= k < |q| && q[k].id == j
    requires forall i, k :: 0 <= i < k < |q| ==>
               q[i].id != q[k].id && QueueOrder.Leads(weights, shares, now, q[i], q[k])
    ensures QueueOf(jobs, weights, shares, now, Listed(jobs, q))
  {
    var queue := Listed(jobs, q);
    forall j | 0 <= j < |jobs| && jobs[j].state == Queued
      ensures exists k :: 0 <= k < |queue| && queue[k].id == j
    {
      var k :| 0 <= k < |q| && q[k].id == j;
      assert queue[k].id == j;
    }
  }

  lemma Arranged(jobs: seq<Job>, weights: QueueOrder.Weights, shares: map<UserId, real>, now: real,
                 ids: seq<JobId>, entrants: seq<QueueOrder.Entrant>)
    requires QueueOrder.Sound(weights) && |entrants| == |ids|
    requires forall k :: 0 <= k < |ids| ==>
               ids[k] < |jobs| && jobs[ids[k]].state == Queued && entrants[k] == EntrantOf(jobs, ids[k])
    requires forall i, k :: 0 <= i < k < |ids| ==> ids[i] < ids[k]
    requires forall j :: 0 <= j < |jobs| && jobs[j].state == Queued ==> j in ids
    ensures var q := QueueOrder.OrderQueue(weights, shares, now, entrants);
            && (forall k :: 0 <= k < |q| ==>
                  q[k].id < |jobs| && jobs[q[k].id].state == Queued && q[k] == EntrantOf(jobs, q[k].id))
            && (forall j :: 0 <= j < |jobs| && jobs[j].state == Queued ==> exists k :: 0 <= k < |q| && q[k].id == j)
            && (forall i, k :: 0 <= i < k < |q| ==>
                  q[i].id != q[k].id && QueueOrder.Leads(weights, shares, now, q[i], q[k]))
  {
    var q := QueueOrder.OrderQueue(weights, shares, now, entrants);
    QueueOrder.OneQueue(weights, shares, now, entrants, entrants);
    Counting.NoRepeats(entrants, q);
    forall k | 0 <= k < |q|
      ensures q[k].id < |jobs| && jobs[q[k].id].state == Queued && q[k] == EntrantOf(jobs, q[k].id)
    {
      assert q[k] in multiset(q);
      assert q[k] in entrants;
    }
    forall j | 0 <= j < |jobs| && jobs[j].state == Queued ensures exists k :: 0 <= k < |q| && q[k].id == j {
      var i :| 0 <= i < |ids| && ids[i] == j;
      assert entrants[i] in multiset(entrants);
      assert entrants[i] in q;
    }
  }

  // ----------------------------------------------------------------- one job started

  lemma NoteKeepsCounts(db: Db, id: JobId, note: Note)
    requires id < |db.jobs|
    ensures forall u :: RunningCount(Noted(db, id, note), u) == RunningCount(db, u)
    ensures forall c :: PoolCommitted(Noted(db, id, note), c) == PoolCommitted(db, c)
  {
    var db' := Noted(db, id, note);
    forall u ensures RunningCount(db', u) == RunningCount(db, u) {
      CountSame(db.jobs, db'.jobs, u, |db.jobs|);
    }
    forall c ensures PoolCommitted(db', c) == PoolCommitted(db, c) {
      SumHoldsSame(db.jobs, db.ledger, db'.jobs, db'.ledger, ActiveIn(c), |db.jobs|);
    }
  }

  /** Starting one job takes one machine of its owner's limit, and at most its reservation of the pool's. */
  lemma StartTakes(db: Db, id: JobId, h: Handle)
    requires id < |db.jobs| == |db.history| && db.jobs[id].state == Queued
    requires RowsFit(db) && RowsPast(db) && BooksBalance(db)
    ensures var db' := Transitioned(db, id, db.jobs[id], Allocating, Some(h), None, false, []);
            var job := db.jobs[id];
            && (forall u :: RunningCount(db', u) == RunningCount(db, u) + (if job.user == u then 1 else 0))
            && (forall c :: PoolCommitted(db', c) <= PoolCommitted(db, c) + (if job.currency == c then job.reserved else 0))
            && db'.suspended == db.suspended
  {
    var e := Move(id, Allocating, Some(h), None, false);
    var db' := Transitioned(db, id, db.jobs[id], Allocating, Some(h), None, false, []);
    forall u ensures RunningCount(db', u) == RunningCount(db, u) + (if db.jobs[id].user == u then 1 else 0) {
      CountOneChanged(db.jobs, db'.jobs, u, id, |db.jobs|);
    }
    forall c
      ensures PoolCommitted(db', c)
           <= PoolCommitted(db, c) + (if db.jobs[id].currency == c then db.jobs[id].reserved else 0)
    {
      MovePool(db, e, c);
    }
  }

  /** Acts on one DISPATCH decision. A launch that fails leaves the job where it was. */
  method StartJob(engine: Engine, id: JobId, b: BackendId) returns (h: Option<Handle>)
    requires engine.Valid() && id < |engine.store.jobs| && engine.store.jobs[id].state == Queued
    requires engine.store.jobs[id].user !in engine.store.suspended
    requires RunningCount(engine.store.View(), engine.store.jobs[id].user) < engine.cfg.maxRunning
    requires (PoolCommitted(engine.store.View(), engine.store.jobs[id].currency) + engine.store.jobs[id].reserved) as real
               <= engine.cfg.PoolBudget(engine.store.jobs[id].currency)
    modifies engine, engine.store, engine.fleet
    ensures engine.Valid()
    ensures h.None? ==> engine.done == old(engine.done) && engine.store.View() == old(engine.store.View())
    ensures h.Some? ==> h.value.backend == b && NameFree(old(engine.fleet.machines), h.value, id)
                        && engine.done == old(engine.done) + DispatchScript(h.value, id)
    ensures h.Some? ==>
              var before := Noted(old(engine.store.View()), id, CountAttempt);
              engine.store.View() == Transitioned(before, id, before.jobs[id], Allocating, h, None, false, [])
    ensures h.Some? ==>
              var job := old(engine.store.jobs[id]);
              && engine.store.ledger == old(engine.store.ledger)
              && engine.store.jobs
                   == old(engine.store.jobs)[id := job.(
                        state := Allocating, place := h, attempts := job.attempts + 1,
                        startedAt := if job.startedAt.Some? then job.startedAt else Some(old(engine.store.clock.now)))]
  {
    hide Reached, After, PoolCommitted, RunningCount;
    h := engine.Launch(b, id);
    if h.None? {
      return;
    }
    NoteKeepsCounts(engine.store.View(), id, CountAttempt);
    engine.Annotate(id, CountAttempt);
    var r := engine.Move(id, Allocating, h, None, false);
  }
}
