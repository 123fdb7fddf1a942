/** When settlements in a billing period can pass the period's budget: exactly when the user brought a hold into it
    (gpu_broker/store.py `balance`, `_release_remaining_hold`; gpu_broker/broker.py `submit`, `cancel`).

    A hold is dated by the period it was taken in and a release by the period it was given back in. So a hold that
    came from before and goes back now, by being settled, cancelled or left over, makes room in this period's
    balance that this period never took. */
module Carryover {
  import opened Wrappers
  import opened Money
  import opened States
  import opened Ledger
  import opened Tables
  import opened World
  import opened Books
  import opened Theorems
  import opened Admission
  import opened Advance
  import opened Engine
  import opened Drift
  import opened Lifetimes
  import opened Accrual
  import opened Reaching
  import opened Broker

  /** What a user brought into the period it is now. */
  function Carried(db: Db, u: UserId, c: Currency): int {
    Held(db.ledger, OfUserOutside(u, c, db.clock.period))
  }

  /** What a user has settled in the period it is now. */
  function SettledNow(db: Db, u: UserId, c: Currency): int {
    Total(db.ledger, OfUser(u, c, db.clock.period), Settle)
  }

  // ------------------------------------------------------- what one effect writes

  /** Rows of this period that hold, release and settle nothing outside it. */
  predicate DatedNow(rows: seq<Entry>, p: Period) {
    forall i :: 0 <= i < |rows| ==> rows[i].period == p
  }

  lemma {:induction false} RowsOfNow(l: seq<Entry>, rows: seq<Entry>, u: UserId, c: Currency, p: Period)
    requires DatedNow(rows, p)
    ensures Held(l + rows, OfUserOutside(u, c, p)) == Held(l, OfUserOutside(u, c, p))
  {
    if rows == [] {
      assert l + rows == l;
    } else {
      var n := |rows| - 1;
      RowsOfNow(l, rows[..n], u, c, p);
      assert l + rows == (l + rows[..n]) + [rows[n]];
      HeldAppend(l + rows[..n], rows[n], OfUserOutside(u, c, p));
    }
  }

  /** An effect inside a period changes nothing about what was brought into it. */
  lemma EffectCarries(cfg: Config, w: World, e: Effect, u: UserId, c: Currency)
    requires Enabled(cfg, w, e) && |w.db.history| == |w.db.jobs|
    ensures w.db.clock.period <= Apply(w, e).db.clock.period
    ensures Held(Apply(w, e).db.ledger, OfUserOutside(u, c, w.db.clock.period)) == Carried(w.db, u, c)
  {
    hide MayDispatch, UserCommitted, Spent, Held, Outstanding, NameFree;
    var l, l' := w.db.ledger, Apply(w, e).db.ledger;
    assert l <= l';
    var rows := l'[|l|..];
    assert l' == l + rows;
    assert DatedNow(rows, w.db.clock.period);
    RowsOfNow(l, rows, u, c, w.db.clock.period);
  }

  /** What a user brought into a period is fixed: nothing that happens inside the period changes it. */
  lemma {:induction false} CarriedIsFixed(cfg: Config, done: seq<Effect>, more: seq<Effect>, u: UserId, c: Currency)
    requires Reached(cfg, done + more)
    ensures After(done).db.clock.period <= After(done + more).db.clock.period
    ensures After(done + more).db.clock.period == After(done).db.clock.period ==>
              Carried(After(done + more).db, u, c) == Carried(After(done).db, u, c)
  {
    hide Apply, Enabled, Held;
    if more == [] {
      assert done + more == done;
    } else {
      var n := |more| - 1;
      var front := done + more[..n];
      assert (done + more)[..|front|] == front && (done + more)[|front|] == more[n];
      ReachedFirst(cfg, done + more, |front|);
      CarriedIsFixed(cfg, done, more[..n], u, c);
      EveryJobTimed(cfg, front);
      EffectCarries(cfg, After(front), more[n], u, c);
    }
  }

  lemma {:induction false} NothingDated(l: seq<Entry>, u: UserId, c: Currency, p: Period)
    requires forall i :: 0 <= i < |l| ==> l[i].period < p
    ensures Held(l, OfUserOutside(u, c, p)) == Held(l, OfUserEver(u, c))
  {
    if l != [] {
      NothingDated(l[..|l| - 1], u, c, p);
    }
  }

  /** What a user brings into a new period is what their jobs hold when it begins. */
  lemma CarriedIsHeldAtStart(cfg: Config, done: seq<Effect>, clock: Clock, u: UserId, c: Currency)
    requires Reached(cfg, done + [Elapse(clock)]) && After(done).db.clock.period < clock.period
    ensures var db := After(done).db;
            Carried(After(done + [Elapse(clock)]).db, u, c) == SumHolds(db.jobs, db.ledger, OwnedBy(u, c), |db.jobs|)
  {
    hide Reached;
    assert (done + [Elapse(clock)])[..|done|] == done;
    ReachedFirst(cfg, done + [Elapse(clock)], |done|);
    PlayOne(EMPTY, done, Elapse(clock));
    ReachedIsGood(cfg, done);
    var db := After(done).db;
    NothingDated(db.ledger, u, c, clock.period);
    HoldsBelongToJobs(db, db.ledger, u, c);
  }

  /** So it is never negative. */
  lemma {:induction false} CarriedNotNegative(cfg: Config, done: seq<Effect>, u: UserId, c: Currency)
    requires Reached(cfg, done)
    ensures 0 <= Carried(After(done).db, u, c)
  {
    hide Apply, Enabled, Held;
    if done == [] {
      NothingMatches([], OfUserOutside(u, c, 0), Settle);
    } else {
      var n := |done| - 1;
      var front, e := done[..n], done[n];
      assert done == front + [e];
      ReachedFirst(cfg, done, n);
      CarriedNotNegative(cfg, front, u, c);
      if After(done).db.clock.period == After(front).db.clock.period {
        CarriedIsFixed(cfg, front, [e], u, c);
      } else {
        OnlyElapseDates(After(front), e);
        CarriedIsFixed(cfg, front, [e], u, c);
        CarriedIsHeldAtStart(cfg, front, e.clock, u, c);
        ReachedIsGood(cfg, front);
        SumHoldsNonNegative(After(front).db, OwnedBy(u, c), |After(front).db.jobs|);
      }
    }
  }

  lemma OnlyElapseDates(w: World, e: Effect)
    requires Apply(w, e).db.clock.period != w.db.clock.period
    ensures e.Elapse? && Apply(w, e).db.clock == e.clock
  {
    hide WritesOf, Written;
  }

  // ---------------------------------------------------------- the bound, and when it is safe

  /** Settlements in the current period never pass the budget, rounded, by more than what was brought into it. */
  lemma SpendWithinCarried(cfg: Config, done: seq<Effect>, u: UserId, c: Currency)
    requires Reached(cfg, done) && 0.0 <= cfg.UserBudget(u, c)
    ensures SettledNow(After(done).db, u, c) <= Quantize(cfg.UserBudget(u, c)) + Carried(After(done).db, u, c)
  {
    hide Reached, After, Total, Held;
    ReachedIsFreshRun(cfg, done);
    UserSpend(cfg, RunOf(done), |done|, u, c, After(done).db.clock.period);
  }

  // ----------------------------------------------------------------- continuations

  /** A submission the broker accepts: a well-formed request that policy admits. */
  ghost predicate Asks(cfg: Config, l: Limits, db: Db, r: Request, e: Effect) {
    && r.gpu in l.gpus && 0.0 < r.hours <= l.maxHours && r.command <= l.maxCommand && r.user in cfg.accounts
    && Admissible(cfg, l, db, r)
    && e == Submit(r.user, r.gpu, l.gpus[r.gpu].currency, Quantize(Asked(l, r)))
  }

  /** Every submission among these effects is one the broker accepts when it is made. */
  ghost predicate Admitted(cfg: Config, l: Limits, done: seq<Effect>, more: seq<Effect>) {
    forall k :: 0 <= k < |more| && more[k].Submit? ==>
      exists r: Request :: Asks(cfg, l, After(done + more[..k]).db, r, more[k])
  }

  /** What the broker may go on to do without leaving the period. */
  ghost predicate Continues(cfg: Config, l: Limits, done: seq<Effect>, more: seq<Effect>) {
    && Reached(cfg, done + more) && Admitted(cfg, l, done, more)
    && After(done + more).db.clock.period == After(done).db.clock.period
  }

  /** However the broker goes on in this period, the user's settlements in it stay within the budget, rounded. */
  ghost predicate StaysWithin(cfg: Config, l: Limits, done: seq<Effect>, u: UserId, c: Currency) {
    forall more :: Continues(cfg, l, done, more) ==>
      SettledNow(After(done + more).db, u, c) <= Quantize(cfg.UserBudget(u, c))
  }

  /** What nobody else stands in the way of: the user may submit and be given a machine of some backend, the job's
      type has a price, and caps and pool leave room for what the balance leaves, which no ABANDONED row lowers. */
  predicate Unhindered(cfg: Config, l: Limits, db: Db, u: UserId, g: GpuType, hours: real, b: BackendId)
    requires g in l.gpus
  {
    var c := l.gpus[g].currency;
    var room := cfg.UserBudget(u, c) + (Carried(db, u, c) - SettledNow(db, u, c)) as real;
    && u in cfg.accounts && u !in db.suspended && b in cfg.backends
    && 1 <= cfg.maxRunning && 1 <= l.maxQueued && 0.0 < hours <= l.maxHours && 0.0 < l.gpus[g].price
    && room <= l.MaxJob(c)
    && (PoolCommitted(db, c) + Quantize(cfg.UserBudget(u, c)) + Carried(db, u, c) - SettledNow(db, u, c)) as real
         <= cfg.PoolBudget(c)
    && Total(db.ledger, OfUser(u, c, db.clock.period), Abandoned) == 0
  }

  // ------------------------------------------------------- cancelling what a user has

  /** Rows that only hold or release. */
  predicate Unspent(rows: seq<Entry>) {
    forall i :: 0 <= i < |rows| ==> rows[i].kind == Reserve || rows[i].kind == Release
  }

  lemma {:induction false} UnspentRows(l: seq<Entry>, rows: seq<Entry>, q: Query, k: Kind)
    requires Unspent(rows) && k in {Settle, Abandoned}
    ensures Total(l + rows, q, k) == Total(l, q, k)
  {
    if rows == [] {
      assert l + rows == l;
    } else {
      var n := |rows| - 1;
      UnspentRows(l, rows[..n], q, k);
      assert l + rows == (l + rows[..n]) + [rows[n]];
      TotalAppend(l + rows[..n], rows[n], q, k);
    }
  }

  /** Nothing spent since, and nothing else in the way that was not before. */
  ghost predicate NoMoreSpent(a: Db, b: Db) {
    && b.suspended == a.suspended && b.clock == a.clock
    && (forall q: Query, k: Kind :: k in {Settle, Abandoned} ==> Total(b.ledger, q, k) == Total(a.ledger, q, k))
    && (forall c: Currency :: PoolCommitted(b, c) <= PoolCommitted(a, c))
  }

  lemma NoMoreTwice(a: Db, b: Db, c: Db)
    requires NoMoreSpent(a, b) && NoMoreSpent(b, c)
    ensures NoMoreSpent(a, c)
  {
    hide Total, PoolCommitted;
  }

  predicate IsOver(db: Db, j: JobId) {
    j < |db.jobs| && db.jobs[j].state in TERMINAL
  }

  lemma CancelChanges(cfg: Config, w: World, id: JobId)
    requires Inv(cfg, w) && id < |w.db.jobs| && CanTransition(w.db.jobs[id].state, Cancelled)
    ensures var w' := Apply(w, Stop(id, Cancelled, None));
            && Enabled(cfg, w, Stop(id, Cancelled, None))
            && NoMoreSpent(w.db, w'.db) && |w'.db.jobs| == |w.db.jobs| && IsOver(w'.db, id)
            && forall j :: 0 <= j < |w.db.jobs| && j != id ==> w'.db.jobs[j] == w.db.jobs[j]
  {
    hide Total, Held, PoolCommitted, Written, WritesOf, LegalTransitions, PoolOwed, JobHold;
    var e := Stop(id, Cancelled, None);
    var l, l' := w.db.ledger, Apply(w, e).db.ledger;
    assert LogsFit(w.db);
    MoveLedger(w.db, e);
    var rows := l'[|l|..];
    assert l' == l + rows && Unspent(rows);
    forall q: Query, k: Kind | k in {Settle, Abandoned} ensures Total(l', q, k) == Total(l, q, k) {
      UnspentRows(l, rows, q, k);
    }
    forall c: Currency ensures PoolCommitted(Apply(w, e).db, c) <= PoolCommitted(w.db, c) {
      MovePool(w.db, e, c);
    }
  }

  /** Cancelling one job, if it is not over yet. */
  lemma CancelOne(cfg: Config, done: seq<Effect>, id: JobId) returns (more: seq<Effect>)
    requires Reached(cfg, done) && id < |After(done).db.jobs|
    ensures Reached(cfg, done + more) && (forall k :: 0 <= k < |more| ==> !more[k].Submit?)
    ensures var a, b := After(done), After(done + more);
            && NoMoreSpent(a.db, b.db) && |b.db.jobs| == |a.db.jobs| && IsOver(b.db, id)
            && forall j :: 0 <= j < |a.db.jobs| && j != id ==> b.db.jobs[j] == a.db.jobs[j]
  {
    hide Reached, NoMoreSpent, Apply, Enabled, After, LegalTransitions;
    var w := After(done);
    var job := w.db.jobs[id];
    ReachedCancels(cfg, done, id);
    if job.state in TERMINAL {
      more := [];
      assert done + more == done;
      SameSpend(w.db);
    } else {
      var stopping := if Reachable(cfg, job) then [Terminate(job.place.value)] else [];
      var stopped := done + stopping;
      more := StopScript(cfg, id, job, Cancelled);
      assert done + more == stopped + [Stop(id, Cancelled, None)];
      TerminateFirst(cfg, done, job);
      ReachedIsGood(cfg, stopped);
      CancelChanges(cfg, After(stopped), id);
      ReachesOneMore(cfg, stopped, Stop(id, Cancelled, None));
    }
  }

  lemma SameSpend(db: Db)
    ensures NoMoreSpent(db, db)
  {
    hide Total, PoolCommitted;
  }

  lemma TerminateFirst(cfg: Config, done: seq<Effect>, job: Job)
    requires Reached(cfg, done)
    ensures var stopping := if Reachable(cfg, job) then [Terminate(job.place.value)] else [];
            Reached(cfg, done + stopping) && After(done + stopping).db == After(done).db
  {
    hide Reached, After;
    if Reachable(cfg, job) {
      ReachesOneMore(cfg, done, Terminate(job.place.value));
    } else {
      assert done + [] == done;
    }
  }

  /** Cancelling every job of a user among the first `n`. */
  lemma {:induction false} CancelAll(cfg: Config, done: seq<Effect>, u: UserId, n: nat) returns (more: seq<Effect>)
    requires Reached(cfg, done) && n <= |After(done).db.jobs|
    ensures Reached(cfg, done + more) && (forall k :: 0 <= k < |more| ==> !more[k].Submit?)
    ensures var a, b := After(done), After(done + more);
            && NoMoreSpent(a.db, b.db) && |b.db.jobs| == |a.db.jobs|
            && (forall j :: 0 <= j < n && b.db.jobs[j].user == u ==> IsOver(b.db, j))
            && (forall j :: n <= j < |a.db.jobs| ==> b.db.jobs[j] == a.db.jobs[j])
  {
    hide Reached, NoMoreSpent, After;
    if n == 0 {
      more := [];
      assert done + more == done;
      SameSpend(After(done).db);
    } else {
      var front := CancelAll(cfg, done, u, n - 1);
      var mid := done + front;
      if After(mid).db.jobs[n - 1].user == u {
        var last := CancelOne(cfg, mid, n - 1);
        more := front + last;
        assert done + more == mid + last;
        NoMoreTwice(After(done).db, After(mid).db, After(mid + last).db);
      } else {
        more := front;
      }
    }
  }

  // ------------------------------------------------ what is left when all of them are over

  ghost predicate AllOver(db: Db, u: UserId) {
    forall j :: 0 <= j < |db.jobs| && db.jobs[j].user == u ==> IsOver(db, j)
  }

  lemma {:induction false} NobodyRuns(db: Db, u: UserId, n: nat)
    requires n <= |db.jobs| && AllOver(db, u)
    ensures CountActive(db.jobs, u, n) == 0 && CountQueued(db.jobs, u, n) == 0
  {
    if 0 < n {
      NobodyRuns(db, u, n - 1);
      assert db.jobs[n - 1].user == u ==> IsOver(db, n - 1);
    }
  }

  lemma {:induction false} NothingHeld(db: Db, u: UserId, c: Currency, n: nat)
    requires n <= |db.jobs| && AllOver(db, u) && BooksBalance(db)
    ensures SumHolds(db.jobs, db.ledger, OwnedBy(u, c), n) == 0
  {
    if 0 < n {
      NothingHeld(db, u, c, n - 1);
      assert JobBalances(db, n - 1);
      assert db.jobs[n - 1].user == u ==> IsOver(db, n - 1);
    }
  }

  /** With every job of the user over, this period's balance holds minus what was brought into it. */
  lemma BalanceWhenAllOver(cfg: Config, done: seq<Effect>, u: UserId, c: Currency)
    requires Reached(cfg, done) && AllOver(After(done).db, u)
    requires Total(After(done).db.ledger, OfUser(u, c, After(done).db.clock.period), Abandoned) == 0
    ensures var db := After(done).db;
            && UserCommitted(db, u, c, db.clock.period) == SettledNow(db, u, c) - Carried(db, u, c)
            && RunningCount(db, u) == 0 && CountQueued(db.jobs, u, |db.jobs|) == 0
  {
    hide Reached, After, Held, Total, AllOver;
    var db := After(done).db;
    ReachedIsGood(cfg, done);
    HoldsBelongToJobs(db, db.ledger, u, c);
    NothingHeld(db, u, c, |db.jobs|);
    NobodyRuns(db, u, |db.jobs|);
    HoldSplitsByPeriod(db.ledger, u, c, db.clock.period);
  }

  // ------------------------------------------------------- submitting what that leaves

  /** The largest request the balance leaves room for, when it leaves at least one quantum. */
  function Largest(cfg: Config, db: Db, u: UserId, g: GpuType, c: Currency, hours: real): Request {
    Request(u, g, hours, Some(cfg.UserBudget(u, c) - UserCommitted(db, u, c, db.clock.period) as real), 0)
  }

  lemma LargestRounds(budget: real, committed: int)
    requires 0.0 <= budget && 1 <= Quantize(budget) - committed
    ensures 0.0 < budget - committed as real
    ensures Quantize(budget - committed as real) == Quantize(budget) - committed
  {
    assert Nearest(budget) == Quantize(budget);
    assert 1.0 <= (Quantize(budget) - committed) as real;
    NearestMinusWhole(budget, committed);
  }

  lemma SubmitLargest(cfg: Config, l: Limits, done: seq<Effect>, u: UserId, g: GpuType, hours: real, r: int)
    requires Reached(cfg, done) && g in l.gpus && 0.0 <= cfg.UserBudget(u, l.gpus[g].currency)
    requires var c, db := l.gpus[g].currency, After(done).db;
             && r == Quantize(cfg.UserBudget(u, c)) - UserCommitted(db, u, c, db.clock.period) && 1 <= r
             && u in cfg.accounts && u !in db.suspended && 0.0 < hours <= l.maxHours
             && cfg.UserBudget(u, c) - UserCommitted(db, u, c, db.clock.period) as real <= l.MaxJob(c)
             && CountQueued(db.jobs, u, |db.jobs|) < l.maxQueued
    ensures var c, db := l.gpus[g].currency, After(done).db; var e := Submit(u, g, c, r);
            && Asks(cfg, l, db, Largest(cfg, db, u, g, c, hours), e)
            && Reached(cfg, done + [e]) && After(done + [e]).db == Created(db, u, g, c, r)
            && After(done + [e]).machines == After(done).machines
  {
    hide Reached, After, UserCommitted, CountQueued;
    var c, db := l.gpus[g].currency, After(done).db;
    LargestRounds(cfg.UserBudget(u, c), UserCommitted(db, u, c, db.clock.period));
    assert Nearest(cfg.UserBudget(u, c)) == Quantize(cfg.UserBudget(u, c));
    ReachesOneMore(cfg, done, Submit(u, g, c, r));
  }

  // ------------------------------------------------- running one job to its ceiling

  lemma {:induction false} SerialsBelow(hs: set<Handle>) returns (n: nat)
    ensures forall h :: h in hs ==> h.serial < n
    decreases hs
  {
    if hs == {} {
      n := 0;
    } else {
      var h :| h in hs;
      n := SerialsBelow(hs - {h});
      n := if n <= h.serial then h.serial + 1 else n;
    }
  }

  lemma TimesQuotient(x: real, y: real)
    requires 0.0 < x
    ensures x * (y / x) == y
  {
  }

  lemma QuotientPositive(x: real, y: real)
    requires 0.0 < x && 0.0 <= y
    ensures 0.0 <= y / x
  {
  }

  /** A script without settlements, whoever's rows are added up, settles nothing. */
  lemma EffectSettles(cfg: Config, w: World, e: Effect, q: Query)
    requires Enabled(cfg, w, e) && |w.db.history| == |w.db.jobs| && !e.Accrue?
    ensures Total(Apply(w, e).db.ledger, q, Settle) == Total(w.db.ledger, q, Settle)
  {
    hide MayDispatch, UserCommitted, Total, Outstanding, NameFree;
    var l, l' := w.db.ledger, Apply(w, e).db.ledger;
    assert l <= l';
    var rows := l'[|l|..];
    assert l' == l + rows;
    SettledByOthers(l, rows, q);
  }

  lemma {:induction false} SettledByOthers(l: seq<Entry>, rows: seq<Entry>, q: Query)
    requires forall i :: 0 <= i < |rows| ==> rows[i].kind != Settle
    ensures Total(l + rows, q, Settle) == Total(l, q, Settle)
  {
    if rows == [] {
      assert l + rows == l;
    } else {
      var n := |rows| - 1;
      SettledByOthers(l, rows[..n], q);
      assert l + rows == (l + rows[..n]) + [rows[n]];
      TotalAppend(l + rows[..n], rows[n], q, Settle);
    }
  }

  lemma {:induction false} QuietSettles(cfg: Config, done: seq<Effect>, more: seq<Effect>, q: Query)
    requires Reached(cfg, done + more) && SettlesNothing(more)
    ensures Total(After(done + more).db.ledger, q, Settle) == Total(After(done).db.ledger, q, Settle)
  {
    hide Apply, Enabled, Total;
    if more == [] {
      assert done + more == done;
    } else {
      var n := |more| - 1;
      var front := done + more[..n];
      assert (done + more)[..|front|] == front && (done + more)[|front|] == more[n];
      ReachedFirst(cfg, done + more, |front|);
      QuietSettles(cfg, done, more[..n], q);
      EveryJobTimed(cfg, front);
      EffectSettles(cfg, After(front), more[n], q);
    }
  }

  lemma {:induction false} ClockStands(cfg: Config, done: seq<Effect>, more: seq<Effect>)
    requires Reached(cfg, done + more) && forall k :: 0 <= k < |more| ==> !more[k].Elapse?
    ensures After(done + more).db.clock == After(done).db.clock
  {
    hide Apply, Enabled;
    if more == [] {
      assert done + more == done;
    } else {
      var n := |more| - 1;
      var front := done + more[..n];
      assert (done + more)[..|front|] == front && (done + more)[|front|] == more[n];
      ReachedFirst(cfg, done + more, |front|);
      ClockStands(cfg, done, more[..n]);
      if After(done + more).db.clock != After(front).db.clock {
        OnlyElapseMoves(After(front), more[n]);
      }
    }
  }

  lemma OnlyElapseMoves(w: World, e: Effect)
    ensures e.Elapse? || Apply(w, e).db.clock == w.db.clock
  {
    hide WritesOf, Written;
  }

  /** The command has finished. */
  const OVER := Sight(SeenCompleted, Some(0), false, 0, 0, None, None)

  /** A job that has waited from its submission to now. */
  predicate Fresh(db: Db, id: JobId, u: UserId, c: Currency, r: int) {
    && id < |db.jobs| && db.jobs[id].state == Queued && db.jobs[id].user == u && db.jobs[id].currency == c
    && db.jobs[id].reserved == r && db.jobs[id].startedAt.None? && db.jobs[id].finishedAt.None?
    && !db.jobs[id].cancelRequested && Spent(db.ledger, OfJobAnyCurrency(id)) == 0
  }

  /** The same job on its machine. */
  predicate Started(db: Db, id: JobId, u: UserId, c: Currency, r: int, h: Handle, at: real) {
    && id < |db.jobs| && db.jobs[id].state == Allocating && db.jobs[id].user == u && db.jobs[id].currency == c
    && db.jobs[id].reserved == r && db.jobs[id].startedAt == Some(at) && db.jobs[id].finishedAt.None?
    && db.jobs[id].place == Some(h) && !db.jobs[id].cancelRequested
    && Spent(db.ledger, OfJobAnyCurrency(id)) == 0
  }

  lemma Dispatches(w: World, id: JobId, u: UserId, c: Currency, r: int, h: Handle)
    requires Fresh(w.db, id, u, c, r) && |w.db.history| == |w.db.jobs|
    ensures var w' := DispatchCut(w, h, id, 3);
            && Started(w'.db, id, u, c, r, h, w.db.clock.now) && w'.db.clock == w.db.clock
            && w'.db.ledger == w.db.ledger
  {
    hide Spent;
    var db := Noted(w.db, id, CountAttempt);
    assert WritesOf(db, id, db.jobs[id], Allocating, []) == [];
    assert Written(db, id, db.jobs[id], []) == w.db.ledger;
  }

  /** At the ceiling the whole reservation is due. */
  lemma CeilingDue(db: Db, id: JobId, u: UserId, c: Currency, r: int, h: Handle, at: real, price: real)
    requires Started(db, id, u, c, r, h, at) && 1 <= r && 0.0 < price
    ensures Settlement(db, id, price, at + r as real / price) == [Accrue(id, r)]
  {
    hide Spent;
    TimesQuotient(price, r as real);
    QuotientPositive(price, r as real);
    QuantizeWhole(r);
    assert Elapsed(db.jobs[id], at + r as real / price) == r as real / price;
  }

  lemma AccrueSettles(db: Db, id: JobId, r: int, u: UserId, c: Currency)
    requires id < |db.jobs| && 1 <= r && db.jobs[id].user == u && db.jobs[id].currency == c
    ensures var q := OfUser(u, c, db.clock.period);
            Total(SettledFor(db, id, r).ledger, q, Settle) == Total(db.ledger, q, Settle) + r
  {
    hide Total;
    var job, q := db.jobs[id], OfUser(u, c, db.clock.period);
    var s := RowFor(db, id, job, LedgerWrite(Settle, r, c));
    TotalAppend(db.ledger, s, q, Settle);
    TotalAppend(db.ledger + [s], RowFor(db, id, job, LedgerWrite(Release, r, c)), q, Settle);
  }

  /** Looking at a job that has finished at its ceiling: the whole reservation is settled, and the rest of the look
      settles nothing more. */
  lemma LookAtCeiling(cfg: Config, done: seq<Effect>, id: JobId, u: UserId, c: Currency, r: int, h: Handle,
                      at: real, price: real) returns (more: seq<Effect>)
    requires Reached(cfg, done) && Started(After(done).db, id, u, c, r, h, at) && 1 <= r && 0.0 < price
    requires h.backend in cfg.backends
    ensures Reached(cfg, done + more) && (forall k :: 0 <= k < |more| ==> !more[k].Submit?)
    ensures After(done + more).db.clock == After(done).db.clock
    ensures SettledNow(After(done + more).db, u, c) == SettledNow(After(done).db, u, c) + r
  {
    hide Reached, After, Response, Spent, Total, Careful, SettlesNothing;
    var db, now := After(done).db, at + r as real / price;
    var job := db.jobs[id];
    var rest := AfterSettlement(cfg, id, job, price, now, OVER);
    more := Script(cfg, db, id, price, now, OVER);
    CeilingDue(db, id, u, c, r, h, at, price);
    assert more == [Accrue(id, r)] + rest;
    AdvanceReached(cfg, done, id, price, now, OVER);
    var settled := done + [Accrue(id, r)];
    assert done + more == settled + rest;
    assert (done + more)[..|settled|] == settled && (done + more)[..|done|] == done;
    PlayOne(EMPTY, done, Accrue(id, r));
    AccrueSettles(db, id, r, u, c);
    ReachedFirst(cfg, done + more, |settled|);
    AfterIs(settled, done, Accrue(id, r));
    AfterSettlementIsQuiet(cfg, id, job, price, now, OVER);
    QuietSettles(cfg, settled, rest, OfUser(u, c, db.clock.period));
    RestOnlyStops(cfg, id, job, price, now);
    ClockStands(cfg, done, more);
  }

  lemma AfterIs(all: seq<Effect>, done: seq<Effect>, e: Effect)
    requires all == done + [e]
    ensures After(all) == Apply(After(done), e)
  {
    hide Apply;
    PlayOne(EMPTY, done, e);
  }

  lemma RestOnlyStops(cfg: Config, id: JobId, job: Job, price: real, now: real)
    requires job.place.Some? && !job.cancelRequested
    ensures var rest := AfterSettlement(cfg, id, job, price, now, OVER);
            rest == [Terminate(job.place.value), Stop(id, Completed, Some(0))]
  {
  }

  /** A fresh job with room to run can run to its ceiling without leaving the period. */
  lemma RunsToCeiling(cfg: Config, done: seq<Effect>, id: JobId, u: UserId, c: Currency, r: int, b: BackendId, price: real)
    returns (more: seq<Effect>)
    requires Reached(cfg, done) && Fresh(After(done).db, id, u, c, r) && HasRoom(cfg, After(done).db, id)
    requires 1 <= r && 0.0 < price && b in cfg.backends
    ensures Reached(cfg, done + more) && (forall k :: 0 <= k < |more| ==> !more[k].Submit?)
    ensures After(done + more).db.clock.period == After(done).db.clock.period
    ensures SettledNow(After(done + more).db, u, c) == SettledNow(After(done).db, u, c) + r
  {
    hide Reached, After, HasRoom, Fresh, Started, Total, DispatchCut;
    var w := After(done);
    var serial := SerialsBelow(w.machines.Keys);
    var h := Handle(b, serial);
    assert h !in w.machines;
    ReachedIsGood(cfg, done);
    FreshIsQueued(w.db, id, u, c, r);
    DispatchReached(cfg, done, h, id);
    Dispatches(w, id, u, c, r, h);
    var started := done + DispatchScript(h, id);
    var at := w.db.clock.now;
    QuotientPositive(price, r as real);
    var clock := Clock(at + r as real / price, w.db.clock.period);
    ReachesOneMore(cfg, started, Elapse(clock));
    var later := started + [Elapse(clock)];
    StartedStays(After(started).db, id, u, c, r, h, at, clock);
    var look := LookAtCeiling(cfg, later, id, u, c, r, h, at, price);
    more := DispatchScript(h, id) + [Elapse(clock)] + look;
    assert done + more == later + look;
  }

  lemma FreshIsQueued(db: Db, id: JobId, u: UserId, c: Currency, r: int)
    requires Fresh(db, id, u, c, r)
    ensures id < |db.jobs| && db.jobs[id].state == Queued
  {
  }

  lemma StartedStays(db: Db, id: JobId, u: UserId, c: Currency, r: int, h: Handle, at: real, clock: Clock)
    requires Started(db, id, u, c, r, h, at)
    ensures Started(db.(clock := clock), id, u, c, r, h, at)
  {
  }

  // -------------------------------------------------------------------- the condition

  /** A job just submitted by somebody whose other jobs are all over. */
  lemma NewJobFits(cfg: Config, done: seq<Effect>, db: Db, u: UserId, g: GpuType, c: Currency, r: int)
    requires RowsFit(db) && RunningCount(db, u) == 0 && 1 <= cfg.maxRunning && u !in db.suspended
    requires (PoolCommitted(db, c) + r) as real <= cfg.PoolBudget(c)
    ensures var db' := Created(db, u, g, c, r);
            Fresh(db', |db.jobs|, u, c, r) && HasRoom(cfg, db', |db.jobs|) && db'.clock == db.clock
    ensures SettledNow(Created(db, u, g, c, r), u, c) == SettledNow(db, u, c)
  {
    hide Total, PoolCommitted;
    var db', id := Created(db, u, g, c, r), |db.jobs|;
    SubmitPool(db, u, g, c, r, c);
    CountSame(db.jobs, db'.jobs, u, id);
    var q := OfJobAnyCurrency(id);
    forall i | 0 <= i < |db.ledger| ensures !Matches(q, db.ledger[i]) {
      assert RowFits(db.jobs, db.ledger[i]);
    }
    NothingMatches(db.ledger, q, Settle);
    NothingMatches(db.ledger, q, Abandoned);
    var e := RowFor(db, id, db'.jobs[id], LedgerWrite(Reserve, r, c));
    TotalAppend(db.ledger, e, q, Settle);
    TotalAppend(db.ledger, e, q, Abandoned);
    TotalAppend(db.ledger, e, OfUser(u, c, db.clock.period), Settle);
  }

  lemma OneSubmission(cfg: Config, l: Limits, done: seq<Effect>, a: seq<Effect>, e: Effect, b: seq<Effect>, r: Request)
    requires forall k :: 0 <= k < |a| ==> !a[k].Submit?
    requires forall k :: 0 <= k < |b| ==> !b[k].Submit?
    requires Asks(cfg, l, After(done + a).db, r, e)
    ensures Admitted(cfg, l, done, a + [e] + b)
  {
    hide Asks, After;
    var more := a + [e] + b;
    forall k | 0 <= k < |more| && more[k].Submit?
      ensures exists s: Request :: Asks(cfg, l, After(done + more[..k]).db, s, more[k])
    {
      assert k == |a| && more[..k] == a;
      assert Asks(cfg, l, After(done + more[..k]).db, r, more[k]);
    }
  }

  lemma AlreadyThere(cfg: Config, l: Limits, done: seq<Effect>)
    requires Reached(cfg, done)
    ensures Continues(cfg, l, done, [])
  {
    hide Reached, After;
    assert done + [] == done;
  }

  /** Some continuation inside the period settles the whole budget, rounded, and what was brought in besides: cancel
      everything the user has, submit what the balance then leaves, and run that job to its ceiling. */
  lemma SpendReaches(cfg: Config, l: Limits, done: seq<Effect>, u: UserId, g: GpuType, hours: real, b: BackendId)
    returns (more: seq<Effect>)
    requires Reached(cfg, done) && g in l.gpus && 0.0 <= cfg.UserBudget(u, l.gpus[g].currency)
    requires Unhindered(cfg, l, After(done).db, u, g, hours, b)
    ensures var c := l.gpus[g].currency;
            && Continues(cfg, l, done, more)
            && SettledNow(After(done + more).db, u, c) == Quantize(cfg.UserBudget(u, c)) + Carried(After(done).db, u, c)
  {
    hide Reached, After, Carried, Total, PoolCommitted, UserCommitted, RunningCount, CountQueued, HasRoom, Fresh, Asks,
         Admitted, AllOver, Enabled;
    var c, db := l.gpus[g].currency, After(done).db;
    var r := Quantize(cfg.UserBudget(u, c)) + Carried(db, u, c) - SettledNow(db, u, c);
    SpendWithinCarried(cfg, done, u, c);
    if r == 0 {
      AlreadyThere(cfg, l, done);
      more := [];
      assert done + more == done;
      return;
    }
    var a := CancelAll(cfg, done, u, |db.jobs|);
    var mid := done + a;
    var m := After(mid).db;
    CarriedIsFixed(cfg, done, a, u, c);
    assert AllOver(m, u) by {
      EveryOneOver(m, u);
    }
    BalanceWhenAllOver(cfg, mid, u, c);
    SubmitLargest(cfg, l, mid, u, g, hours, r);
    var e := Submit(u, g, c, r);
    ReachedIsGood(cfg, mid);
    NewJobFits(cfg, mid, m, u, g, c, r);
    var run := RunsToCeiling(cfg, mid + [e], |m.jobs|, u, c, r, b, l.gpus[g].price);
    more := a + [e] + run;
    assert done + more == mid + [e] + run;
    OneSubmission(cfg, l, done, a, e, run, Largest(cfg, m, u, g, c, hours));
  }

  lemma EveryOneOver(db: Db, u: UserId)
    requires forall j :: 0 <= j < |db.jobs| && db.jobs[j].user == u ==> IsOver(db, j)
    ensures AllOver(db, u)
  {
  }

  /** Settlements in a period stay within the budget, whatever the broker goes on to do in it, if and only if the user
      brought nothing into it. Otherwise they can pass it, by exactly what was brought in and no more. */
  lemma StaysWithinIff(cfg: Config, l: Limits, done: seq<Effect>, u: UserId, g: GpuType, hours: real, b: BackendId)
    requires Reached(cfg, done) && g in l.gpus && 0.0 <= cfg.UserBudget(u, l.gpus[g].currency)
    requires Unhindered(cfg, l, After(done).db, u, g, hours, b)
    ensures var c := l.gpus[g].currency;
            StaysWithin(cfg, l, done, u, c) <==> Carried(After(done).db, u, c) == 0
  {
    hide Reached, After, Carried, Total, Unhindered, Admitted;
    var c := l.gpus[g].currency;
    CarriedNotNegative(cfg, done, u, c);
    if Carried(After(done).db, u, c) == 0 {
      NothingCarried(cfg, l, done, u, c);
    } else {
      var more := SpendReaches(cfg, l, done, u, g, hours, b);
      assert Continues(cfg, l, done, more);
    }
  }

  /** The safe half needs none of those conditions. */
  lemma NothingCarried(cfg: Config, l: Limits, done: seq<Effect>, u: UserId, c: Currency)
    requires Reached(cfg, done) && 0.0 <= cfg.UserBudget(u, c) && Carried(After(done).db, u, c) == 0
    ensures StaysWithin(cfg, l, done, u, c)
    ensures forall more :: Reached(cfg, done + more) && After(done + more).db.clock.period == After(done).db.clock.period ==>
              SettledNow(After(done + more).db, u, c) <= Quantize(cfg.UserBudget(u, c))
  {
    hide Reached, After, Carried, Total, Admitted;
    forall more | Reached(cfg, done + more) && After(done + more).db.clock.period == After(done).db.clock.period
      ensures SettledNow(After(done + more).db, u, c) <= Quantize(cfg.UserBudget(u, c))
    {
      CarriedIsFixed(cfg, done, more, u, c);
      SpendWithinCarried(cfg, done + more, u, c);
    }
  }
}
