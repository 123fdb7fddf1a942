/** The ledger row by row: what each effect writes, and the pool cap told by the rows themselves
    (gpu_broker/store.py). */
module Rows {
  import opened Wrappers
  import opened Money
  import opened States
  import opened Ledger
  import opened Tables
  import opened World
  import opened Books
  import opened Theorems

  /** The rows one effect writes: a hold at submission, a settlement and its release, an abandonment, or the release of
      what is left when a job is over. Each carries its job, its owner, its currency and the moment it was written. */
  function RowsOf(db: Db, e: Effect): seq<Entry> {
    var now, p := db.clock.now, db.clock.period;
    match e
    case Submit(u, _, c, r) => if 0 < r then [Entry(Some(|db.jobs|), Some(u), c, Reserve, r, p, now, None)] else []
    case Accrue(id, a) =>
      if id < |db.jobs|
      then [Entry(Some(id), Some(db.jobs[id].user), db.jobs[id].currency, Settle, a, p, now, None),
            Entry(Some(id), Some(db.jobs[id].user), db.jobs[id].currency, Release, a, p, now, None)]
      else []
    case Abandon(h, tag, billed, c, a) => [Entry(tag, billed, c, Abandoned, a, p, now, Some(h.serial))]
    case Move(id, to, _, _, _) =>
      if id < |db.jobs| && to in {Completed, Failed, Cancelled, Refused, Reclaimed} && 0 < JobHold(db, id)
      then [Entry(Some(id), Some(db.jobs[id].user), db.jobs[id].currency, Release, JobHold(db, id), p, now, None)]
      else []
    case _ => []
  }

  lemma EffectWrites(cfg: Config, w: World, e: Effect)
    requires Enabled(cfg, w, e) && |w.db.history| == |w.db.jobs|
    ensures Apply(w, e).db.ledger == w.db.ledger + RowsOf(w.db, e)
  {
    if e.Move? {
      MoveLedger(w.db, e);
    }
  }

  /** Every row of a ledger was written by one effect of its run, which dated it. */
  lemma RowsWritten(cfg: Config, run: Run, k: nat)
    requires FreshRun(cfg, run) && k < |run.effects|
    ensures run.states[k + 1].db.ledger == run.states[k].db.ledger + RowsOf(run.states[k].db, run.effects[k])
  {
    hide Apply, Enabled;
    LogsAreJobs(cfg, run, k);
    EffectWrites(cfg, run.states[k], run.effects[k]);
  }

  // ------------------------------------------------------------------ the pool, by row

  /** What one row adds to what is held for jobs that have a machine. */
  function HeldByRow(jobs: seq<Job>, e: Entry, c: Currency): int {
    if e.job.Some? && e.job.value < |jobs| && e.currency == c
       && jobs[e.job.value].state in {Allocating, Running, Checkpointing, Resuming}
    then (if e.kind == Reserve then e.amount else if e.kind == Release then -e.amount else 0)
    else 0
  }

  function HeldOnMachines(jobs: seq<Job>, l: seq<Entry>, c: Currency): int {
    if l == [] then 0 else HeldOnMachines(jobs, l[..|l| - 1], c) + HeldByRow(jobs, l[|l| - 1], c)
  }

  /** Added up job by job or row by row, the holds of the jobs that have a machine are the same. */
  lemma {:induction false} ActiveHoldsByRow(jobs: seq<Job>, l: seq<Entry>, c: Currency)
    requires forall i :: 0 <= i < |l| ==> RowFits(jobs, l[i])
    ensures SumHolds(jobs, l, ActiveIn(c), |jobs|) == HeldOnMachines(jobs, l, c)
  {
    if l == [] {
      NoHolds(jobs, ActiveIn(c), |jobs|);
    } else {
      var front, e := l[..|l| - 1], l[|l| - 1];
      assert l == front + [e];
      ActiveHoldsByRow(jobs, front, c);
      OneRowHeld(jobs, front, e, c);
    }
  }

  lemma OneRowHeld(jobs: seq<Job>, l: seq<Entry>, e: Entry, c: Currency)
    requires RowFits(jobs, e)
    ensures SumHolds(jobs, l + [e], ActiveIn(c), |jobs|)
         == SumHolds(jobs, l, ActiveIn(c), |jobs|) + HeldByRow(jobs, e, c)
  {
    forall j | 0 <= j < |jobs|
      ensures Held(l + [e], OfJob(j, jobs[j].currency))
           == Held(l, OfJob(j, jobs[j].currency)) + HeldIn(e, OfJob(j, jobs[j].currency))
    {
      HeldAppend(l, e, OfJob(j, jobs[j].currency));
    }
    if e.job.None? {
      SumHoldsSame(jobs, l, jobs, l + [e], ActiveIn(c), |jobs|);
    } else {
      SumHoldsOneChanged(jobs, l, jobs, l + [e], ActiveIn(c), e.job.value, |jobs|);
    }
  }

  /** The settlements of the month and the rows that hold money for jobs on a machine, together, never pass the
      pool's budget in that currency. */
  lemma PoolCapByRow(cfg: Config, run: Run, k: nat)
    requires FreshRun(cfg, run) && k < |run.states|
    ensures var db := run.states[k].db;
            && (0.0 <= cfg.poolUsd ==>
                  (Total(db.ledger, OfPool(Usd, db.clock.period), Settle)
                   + HeldOnMachines(db.jobs, db.ledger, Usd)) as real <= cfg.poolUsd)
            && (0.0 <= cfg.poolGpuHours ==>
                  (Total(db.ledger, OfPool(GpuHour, db.clock.period), Settle)
                   + HeldOnMachines(db.jobs, db.ledger, GpuHour)) as real <= cfg.poolGpuHours)
  {
    hide IsRun;
    var db := run.states[k].db;
    EveryStateIsGood(cfg, run, k);
    forall c: Currency ensures ActiveHolds(db, c) == HeldOnMachines(db.jobs, db.ledger, c) {
      ActiveHoldsByRow(db.jobs, db.ledger, c);
    }
    if 0.0 <= cfg.poolUsd {
      PoolCap(cfg, run, k, Usd);
    }
    if 0.0 <= cfg.poolGpuHours {
      PoolCap(cfg, run, k, GpuHour);
    }
  }
}
