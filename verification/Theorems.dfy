/** What the invariants say about money, for every state of every run that starts empty. */
module Theorems {
  import opened Wrappers
  import opened Money
  import opened States
  import opened Ledger
  import opened Tables
  import opened History
  import opened World
  import opened Books

  ghost predicate FreshRun(cfg: Config, run: Run) {
    IsRun(cfg, run) && run.states[0] == EMPTY
  }

  lemma EveryStateIsGood(cfg: Config, run: Run, k: nat)
    requires FreshRun(cfg, run) && k < |run.states|
    ensures Inv(cfg, run.states[k])
  {
    EmptyKeeps(cfg);
    RunKeeps(cfg, run, k);
  }

  /** The pool never owes more than its budget: not between two jobs of a dispatch pass,
      not for a requeued job that holds less than it reserved, not across a month's end. */
  lemma PoolCap(cfg: Config, run: Run, k: nat, c: Currency)
    requires FreshRun(cfg, run) && k < |run.states| && 0.0 <= cfg.PoolBudget(c)
    ensures PoolOwed(run.states[k].db, c) as real <= cfg.PoolBudget(c)
    ensures cfg.PoolBudget(c) == (match c case Usd => cfg.poolUsd case GpuHour => cfg.poolGpuHours)
  {
    EveryStateIsGood(cfg, run, k);
    assert PoolCapped(cfg, run.states[k].db, c);
  }

  /** Nobody ever has more jobs on a machine than the limit allows: booting, running, writing a checkpoint
      or restoring one. */
  lemma MachineLimit(cfg: Config, run: Run, k: nat, u: UserId)
    requires FreshRun(cfg, run) && k < |run.states|
    ensures var jobs := run.states[k].db.jobs;
            |set j | 0 <= j < |jobs| && jobs[j].user == u
                     && jobs[j].state in {Allocating, Running, Checkpointing, Resuming}| <= cfg.maxRunning
  {
    EveryStateIsGood(cfg, run, k);
    CountIsMachines(run.states[k].db.jobs, u, |run.states[k].db.jobs|);
    assert RunningCount(run.states[k].db, u) <= cfg.maxRunning;
  }

  /** Hold plus settlements is the reservation until the job is over, and then the hold is gone. */
  lemma Conservation(cfg: Config, run: Run, k: nat, j: JobId)
    requires FreshRun(cfg, run) && k < |run.states| && j < |run.states[k].db.jobs|
    ensures var db := run.states[k].db; var job := db.jobs[j];
            && 0 <= JobHold(db, j) && 0 <= JobSettled(db, j)
            && (job.state in HOLDS_BUDGET ==> JobHold(db, j) + JobSettled(db, j) == job.reserved)
            && (job.state !in HOLDS_BUDGET ==> JobHold(db, j) == 0)
            && (job.state != Refused ==> JobSettled(db, j) <= job.reserved)
  {
    EveryStateIsGood(cfg, run, k);
    assert JobBalances(run.states[k].db, j);
    StatesAreSplit(run.states[k].db.jobs[j].state);
  }

  /** What a user holds over all periods is what their own jobs hold. */
  lemma {:induction false} HoldsBelongToJobs(db: Db, l: seq<Entry>, u: UserId, c: Currency)
    requires forall i :: 0 <= i < |l| ==> RowFits(db.jobs, l[i])
    ensures Held(l, OfUserEver(u, c)) == SumHolds(db.jobs, l, OwnedBy(u, c), |db.jobs|)
  {
    if l == [] {
      NoHolds(db.jobs, OwnedBy(u, c), |db.jobs|);
    } else {
      var front, e := l[..|l| - 1], l[|l| - 1];
      assert l == front + [e];
      HoldsBelongToJobs(db, front, u, c);
      HeldAppend(front, e, OfUserEver(u, c));
      OneRowInSum(db.jobs, front, e, u, c);
    }
  }

  lemma {:induction false} NoHolds(jobs: seq<Job>, sel: Selection, n: nat)
    requires n <= |jobs|
    ensures SumHolds(jobs, [], sel, n) == 0
  {
    if 0 < n {
      NoHolds(jobs, sel, n - 1);
    }
  }

  lemma OneRowInSum(jobs: seq<Job>, l: seq<Entry>, e: Entry, u: UserId, c: Currency)
    requires RowFits(jobs, e)
    ensures SumHolds(jobs, l + [e], OwnedBy(u, c), |jobs|)
         == SumHolds(jobs, l, OwnedBy(u, c), |jobs|) + HeldIn(e, OfUserEver(u, c))
  {
    forall j | 0 <= j < |jobs|
      ensures Held(l + [e], OfJob(j, jobs[j].currency))
           == Held(l, OfJob(j, jobs[j].currency)) + HeldIn(e, OfJob(j, jobs[j].currency))
    {
      HeldAppend(l, e, OfJob(j, jobs[j].currency));
    }
    if e.job.None? {
      SumHoldsSame(jobs, l, jobs, l + [e], OwnedBy(u, c), |jobs|);
    } else {
      SumHoldsOneChanged(jobs, l, jobs, l + [e], OwnedBy(u, c), e.job.value, |jobs|);
    }
  }

  /** A user never has more committed in a billing period than the budget,
      read to the whole quantum a reservation is rounded to. */
  lemma UserBudget(cfg: Config, run: Run, k: nat, u: UserId, c: Currency, p: Period)
    requires FreshRun(cfg, run) && k < |run.states| && 0.0 <= cfg.UserBudget(u, c)
    ensures UserOwed(run.states[k].db, u, c, p) <= Quantize(cfg.UserBudget(u, c))
    ensures cfg.UserBudget(u, c) == cfg.UserBudget(u, c).Floor as real
            ==> UserOwed(run.states[k].db, u, c, p) as real <= cfg.UserBudget(u, c)
    ensures cfg.UserBudget(u, c) == (if u !in cfg.accounts then 0.0
                                     else match c case Usd => cfg.accounts[u].usd case GpuHour => cfg.accounts[u].gpuHours)
  {
    EveryStateIsGood(cfg, run, k);
    assert UserOwed(run.states[k].db, u, c, p) <= AtLeastZero(Quantize(cfg.UserBudget(u, c)));
    QuantizeWhole(cfg.UserBudget(u, c).Floor);
  }

  /** Spending alone is bounded by the budget plus what the user reserved in other periods and did not give back in
      those: a hold given back later, by whatever means, makes room in the balance of the period it goes back in.
      `Carryover` says when that lets spending pass the budget. */
  lemma UserSpend(cfg: Config, run: Run, k: nat, u: UserId, c: Currency, p: Period)
    requires FreshRun(cfg, run) && k < |run.states| && 0.0 <= cfg.UserBudget(u, c)
    ensures var l := run.states[k].db.ledger;
            Total(l, OfUser(u, c, p), Settle)
              <= Quantize(cfg.UserBudget(u, c)) + Held(l, OfUserOutside(u, c, p))
  {
    var db := run.states[k].db;
    UserBudget(cfg, run, k, u, c, p);
    EveryStateIsGood(cfg, run, k);
    HoldsBelongToJobs(db, db.ledger, u, c);
    SumHoldsNonNegative(db, OwnedBy(u, c), |db.jobs|);
    HoldSplitsByPeriod(db.ledger, u, c, p);
  }

  /** So in a run that never leaves one period, spending alone stays within the budget. */
  lemma UserSpendInOnePeriod(cfg: Config, run: Run, k: nat, u: UserId, c: Currency, p: Period)
    requires FreshRun(cfg, run) && k < |run.states| && 0.0 <= cfg.UserBudget(u, c)
    requires forall i :: 0 <= i < |run.states[k].db.ledger| ==> run.states[k].db.ledger[i].period == p
    ensures Total(run.states[k].db.ledger, OfUser(u, c, p), Settle) <= Quantize(cfg.UserBudget(u, c))
  {
    UserSpend(cfg, run, k, u, c, p);
    NothingMatches(run.states[k].db.ledger, OfUserOutside(u, c, p), Settle);
  }

  /** A job's log is a legal path to where the job is, bounded by its preemption count. */
  lemma LegalHistory(cfg: Config, run: Run, k: nat, j: JobId)
    requires FreshRun(cfg, run) && k < |run.states| && j < |run.states[k].db.jobs|
    ensures var db := run.states[k].db;
            && j < |db.history| && LegalLog(db.history[j], db.jobs[j].state)
            && |db.history[j]| <= 6 * db.jobs[j].preemptions + 6
  {
    EveryStateIsGood(cfg, run, k);
    var db := run.states[k].db;
    assert LogFits(db, j);
    LogLength(db.history[j], db.jobs[j].state);
  }

  lemma EffectAppends(cfg: Config, w: World, e: Effect)
    requires Enabled(cfg, w, e) && |w.db.history| == |w.db.jobs|
    ensures var w' := Apply(w, e);
            && w.db.ledger <= w'.db.ledger
            && |w.db.history| <= |w'.db.history|
            && forall j :: 0 <= j < |w.db.history| ==> w.db.history[j] <= w'.db.history[j]
  {
  }

  lemma LogsAreJobs(cfg: Config, run: Run, k: nat)
    requires FreshRun(cfg, run) && k < |run.states|
    ensures |run.states[k].db.history| == |run.states[k].db.jobs|
  {
    EveryStateIsGood(cfg, run, k);
  }

  /** The ledger and every job's log only ever grow: history is corrected by adding to it. */
  lemma {:induction false} AppendOnly(cfg: Config, run: Run, i: nat, k: nat, j: JobId)
    requires FreshRun(cfg, run) && i <= k < |run.states| && j < |run.states[i].db.history|
    ensures run.states[i].db.ledger <= run.states[k].db.ledger
    ensures j < |run.states[k].db.history| && run.states[i].db.history[j] <= run.states[k].db.history[j]
    decreases k
  {
    hide Apply, Enabled;
    if i < k {
      AppendOnly(cfg, run, i, k - 1, j);
      LogsAreJobs(cfg, run, k - 1);
      EffectAppends(cfg, run.states[k - 1], run.effects[k - 1]);
    }
  }
}
