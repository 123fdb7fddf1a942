/** What every reachable state of the broker keeps, and the proof that each durable effect keeps it. */
module Books {
  import opened Wrappers
  import opened Money
  import opened States
  import opened Ledger
  import opened Tables
  import opened History
  import opened World

  // ---------------------------------------------------------------- invariants

  /** A ledger row other than an abandonment belongs to a job, that job's owner and its currency. */
  predicate RowFits(jobs: seq<Job>, e: Entry) {
    && 0 <= e.amount
    && (e.job.Some? ==> e.job.value < |jobs|)
    && (e.kind != Abandoned ==>
          e.job.Some?
          && e.currency == jobs[e.job.value].currency
          && e.user == Some(jobs[e.job.value].user))
  }

  ghost predicate RowsFit(db: Db) {
    forall i :: 0 <= i < |db.ledger| ==> RowFits(db.jobs, db.ledger[i])
  }

  ghost predicate RowsPast(db: Db) {
    forall i :: 0 <= i < |db.ledger| ==> db.ledger[i].period <= db.clock.period
  }

  function JobHold(db: Db, j: JobId): int
    requires j < |db.jobs|
  {
    Held(db.ledger, OfJob(j, db.jobs[j].currency))
  }

  function JobSettled(db: Db, j: JobId): int
    requires j < |db.jobs|
  {
    Total(db.ledger, OfJob(j, db.jobs[j].currency), Settle)
  }

  /** While a job holds budget, its hold and its settlements make up its reservation;
      once it is over nothing is held and it never settled more than it reserved. */
  predicate JobBalances(db: Db, j: JobId)
    requires j < |db.jobs|
  {
    var job := db.jobs[j];
    && 0 <= JobSettled(db, j)
    && 0 <= JobHold(db, j)
    && (job.state in HOLDS_BUDGET ==> JobHold(db, j) + JobSettled(db, j) == job.reserved)
    && (job.state in TERMINAL ==> JobHold(db, j) == 0)
    && (job.state in TERMINAL && job.state != Refused ==> JobSettled(db, j) <= job.reserved)
    && (job.state == Refused ==> JobSettled(db, j) == 0)
  }

  ghost predicate BooksBalance(db: Db) {
    forall j :: 0 <= j < |db.jobs| ==> JobBalances(db, j)
  }

  function AtLeastZero(x: int): nat {
    if x < 0 then 0 else x
  }

  ghost predicate PoolCapped(cfg: Config, db: Db, c: Currency) {
    PoolOwed(db, c) <= 0 || PoolOwed(db, c) as real <= cfg.PoolBudget(c)
  }

  ghost predicate UsersCapped(cfg: Config, db: Db) {
    forall u: UserId, c: Currency, p: Period ::
      UserOwed(db, u, c, p) <= AtLeastZero(Nearest(cfg.UserBudget(u, c)))
  }

  /** A job names a machine exactly while it is active, and that machine carries the job's tag. */
  predicate PlaceKnown(w: World, j: JobId)
    requires j < |w.db.jobs|
  {
    var job := w.db.jobs[j];
    && (job.place.Some? <==> job.state in ACTIVE)
    && (job.place.Some? ==> job.place.value in w.machines && w.machines[job.place.value].job == Some(j))
  }

  ghost predicate PlacesKnown(w: World) {
    forall j :: 0 <= j < |w.db.jobs| ==> PlaceKnown(w, j)
  }

  ghost predicate WithinLimits(cfg: Config, db: Db) {
    forall u: UserId :: RunningCount(db, u) <= cfg.maxRunning
  }

  predicate LogFits(db: Db, j: JobId)
    requires j < |db.jobs| == |db.history|
  {
    && LegalLog(db.history[j], db.jobs[j].state)
    && PreemptedRows(db.history[j]) <= db.jobs[j].preemptions
  }

  ghost predicate LogsFit(db: Db) {
    && |db.history| == |db.jobs|
    && forall j :: 0 <= j < |db.jobs| ==> LogFits(db, j)
  }

  ghost predicate Inv(cfg: Config, w: World) {
    && RowsFit(w.db) && RowsPast(w.db) && BooksBalance(w.db)
    && (forall c: Currency :: PoolCapped(cfg, w.db, c))
    && UsersCapped(cfg, w.db)
    && PlacesKnown(w) && WithinLimits(cfg, w.db) && LogsFit(w.db)
  }

  // -------------------------------------------------------- sums over the job table

  /** Two sums of holds differ only by what one job's share differs. */
  lemma {:induction false} SumHoldsOneChanged(jobs: seq<Job>, l: seq<Entry>, jobs': seq<Job>, l': seq<Entry>,
                                              sel: Selection, i: nat, n: nat)
    requires i < n <= |jobs| && n <= |jobs'|
    requires forall j :: 0 <= j < n && j != i ==> HoldShare(jobs, l, sel, j) == HoldShare(jobs', l', sel, j)
    ensures SumHolds(jobs', l', sel, n) - SumHolds(jobs, l, sel, n)
         == HoldShare(jobs', l', sel, i) - HoldShare(jobs, l, sel, i)
  {
    if i < n - 1 {
      SumHoldsOneChanged(jobs, l, jobs', l', sel, i, n - 1);
    } else {
      SumHoldsSame(jobs, l, jobs', l', sel, n - 1);
    }
  }

  lemma {:induction false} SumHoldsSame(jobs: seq<Job>, l: seq<Entry>, jobs': seq<Job>, l': seq<Entry>,
                                        sel: Selection, n: nat)
    requires n <= |jobs| && n <= |jobs'|
    requires forall j :: 0 <= j < n ==> HoldShare(jobs, l, sel, j) == HoldShare(jobs', l', sel, j)
    ensures SumHolds(jobs', l', sel, n) == SumHolds(jobs, l, sel, n)
  {
    if 0 < n {
      SumHoldsSame(jobs, l, jobs', l', sel, n - 1);
    }
  }

  lemma {:induction false} SumHoldsNonNegative(db: Db, sel: Selection, n: nat)
    requires n <= |db.jobs| && BooksBalance(db)
    ensures 0 <= SumHolds(db.jobs, db.ledger, sel, n)
  {
    if 0 < n {
      SumHoldsNonNegative(db, sel, n - 1);
      assert JobBalances(db, n - 1);
    }
  }

  lemma {:induction false} CountOneChanged(jobs: seq<Job>, jobs': seq<Job>, u: UserId, i: nat, n: nat)
    requires i < n <= |jobs| && n <= |jobs'|
    requires forall j :: 0 <= j < n && j != i ==> HoldsMachine(jobs[j], u) == HoldsMachine(jobs'[j], u)
    ensures CountActive(jobs', u, n) - CountActive(jobs, u, n)
         == (if HoldsMachine(jobs'[i], u) then 1 else 0) - (if HoldsMachine(jobs[i], u) then 1 else 0)
  {
    if i < n - 1 {
      CountOneChanged(jobs, jobs', u, i, n - 1);
    } else {
      CountSame(jobs, jobs', u, n - 1);
    }
  }

  lemma {:induction false} CountSame(jobs: seq<Job>, jobs': seq<Job>, u: UserId, n: nat)
    requires n <= |jobs| && n <= |jobs'|
    requires forall j :: 0 <= j < n ==> HoldsMachine(jobs[j], u) == HoldsMachine(jobs'[j], u)
    ensures CountActive(jobs', u, n) == CountActive(jobs, u, n)
  {
    if 0 < n {
      CountSame(jobs, jobs', u, n - 1);
    }
  }

  // ------------------------------------------------------------------- one row more

  /** Appending a row about job `i` leaves every other job's hold and settlements alone. */
  lemma RowAboutOneJob(l: seq<Entry>, e: Entry, i: JobId, j: JobId, c: Currency)
    requires e.job == Some(i) && i != j
    ensures Held(l + [e], OfJob(j, c)) == Held(l, OfJob(j, c))
    ensures Total(l + [e], OfJob(j, c), Settle) == Total(l, OfJob(j, c), Settle)
  {
    HeldAppend(l, e, OfJob(j, c));
    TotalAppend(l, e, OfJob(j, c), Settle);
  }

  lemma NoNegativeRows(db: Db)
    requires RowsFit(db)
    ensures NoNegatives(db.ledger)
  {
    forall i | 0 <= i < |db.ledger| ensures 0 <= db.ledger[i].amount {
      assert RowFits(db.jobs, db.ledger[i]);
    }
  }

  lemma OwedWithinCommitted(db: Db, u: UserId, c: Currency, p: Period)
    requires RowsFit(db)
    ensures UserOwed(db, u, c, p) <= UserCommitted(db, u, c, p)
    ensures PoolOwed(db, c) <= PoolCommitted(db, c)
    ensures 0 <= Total(db.ledger, OfPool(c, p), Settle)
  {
    NoNegativeRows(db);
    TotalNonNegative(db.ledger, OfUser(u, c, p), Abandoned);
    TotalNonNegative(db.ledger, OfPool(c, db.clock.period), Abandoned);
    TotalNonNegative(db.ledger, OfPool(c, p), Settle);
  }

  /** A ledger row's whole effect on what a user owes. */
  lemma UserOwedAppend(l: seq<Entry>, e: Entry, q: Query)
    ensures Held(l + [e], q) + Total(l + [e], q, Settle)
         == Held(l, q) + Total(l, q, Settle) + HeldIn(e, q) + AmountIn(e, q, Settle)
  {
    HeldAppend(l, e, q);
    TotalAppend(l, e, q, Settle);
  }

  // ------------------------------------------------------------------- submitting

  lemma NewJobOwnsNoRows(db: Db, c: Currency)
    requires RowsFit(db)
    ensures Held(db.ledger, OfJob(|db.jobs|, c)) == 0
    ensures Total(db.ledger, OfJob(|db.jobs|, c), Settle) == 0
  {
    forall i | 0 <= i < |db.ledger| ensures !Matches(OfJob(|db.jobs|, c), db.ledger[i]) {
      assert RowFits(db.jobs, db.ledger[i]);
    }
    NothingMatches(db.ledger, OfJob(|db.jobs|, c), Settle);
  }

  lemma SubmitRows(db: Db, u: UserId, g: GpuType, c: Currency, r: int)
    requires RowsFit(db) && RowsPast(db) && BooksBalance(db) && 0 <= r
    ensures var db' := Created(db, u, g, c, r); RowsFit(db') && RowsPast(db') && BooksBalance(db')
  {
    hide Held, Total;
    var db' := Created(db, u, g, c, r);
    var id := |db.jobs|;
    forall i | 0 <= i < |db'.ledger| ensures RowFits(db'.jobs, db'.ledger[i]) {
      if i < |db.ledger| {
        assert RowFits(db.jobs, db.ledger[i]);
      }
    }
    var e := RowFor(db, id, db'.jobs[id], LedgerWrite(Reserve, r, c));
    forall j | 0 <= j < |db'.jobs| ensures JobBalances(db', j) {
      if j < id {
        assert JobBalances(db, j);
        RowAboutOneJob(db.ledger, e, id, j, db.jobs[j].currency);
      } else {
        NewJobOwnsNoRows(db, c);
        HeldAppend(db.ledger, e, OfJob(id, c));
        TotalAppend(db.ledger, e, OfJob(id, c), Settle);
      }
    }
  }

  lemma SubmitPool(db: Db, u: UserId, g: GpuType, c: Currency, r: int, pool: Currency)
    ensures PoolOwed(Created(db, u, g, c, r), pool) == PoolOwed(db, pool)
    ensures PoolCommitted(Created(db, u, g, c, r), pool) == PoolCommitted(db, pool)
  {
    hide Held, Total;
    var db' := Created(db, u, g, c, r);
    var id := |db.jobs|;
    var e := RowFor(db, id, db'.jobs[id], LedgerWrite(Reserve, r, c));
    var q := OfPool(pool, db.clock.period);
    TotalAppend(db.ledger, e, q, Settle);
    TotalAppend(db.ledger, e, q, Abandoned);
    forall j | 0 <= j < id
      ensures HoldShare(db.jobs, db.ledger, ActiveIn(pool), j) == HoldShare(db'.jobs, db'.ledger, ActiveIn(pool), j)
    {
      RowAboutOneJob(db.ledger, e, id, j, db.jobs[j].currency);
    }
    SumHoldsSame(db.jobs, db.ledger, db'.jobs, db'.ledger, ActiveIn(pool), id);
  }

  lemma SubmitUsers(cfg: Config, db: Db, u: UserId, g: GpuType, c: Currency, r: int)
    requires RowsFit(db) && UsersCapped(cfg, db) && 0 <= r
    requires UserCommitted(db, u, c, db.clock.period) + r <= Nearest(cfg.UserBudget(u, c))
    ensures UsersCapped(cfg, Created(db, u, g, c, r))
  {
    var db' := Created(db, u, g, c, r);
    var e := RowFor(db, |db.jobs|, db'.jobs[|db.jobs|], LedgerWrite(Reserve, r, c));
    OwedWithinCommitted(db, u, c, db.clock.period);
    forall v: UserId, d: Currency, p: Period
      ensures UserOwed(db', v, d, p) <= AtLeastZero(Nearest(cfg.UserBudget(v, d)))
    {
      UserOwedAppend(db.ledger, e, OfUser(v, d, p));
      assert UserOwed(db, v, d, p) <= AtLeastZero(Nearest(cfg.UserBudget(v, d)));
    }
  }

  lemma SubmitKeeps(cfg: Config, w: World, e: Effect)
    requires e.Submit? && Inv(cfg, w) && Enabled(cfg, w, e)
    ensures Inv(cfg, Apply(w, e))
  {
    var db, db' := w.db, Apply(w, e).db;
    SubmitRows(db, e.user, e.gpu, e.currency, e.reserved);
    SubmitUsers(cfg, db, e.user, e.gpu, e.currency, e.reserved);
    forall c: Currency ensures PoolCapped(cfg, db', c) {
      SubmitPool(db, e.user, e.gpu, e.currency, e.reserved, c);
      assert PoolCapped(cfg, db, c);
    }
    JobAppended(cfg, w, Apply(w, e));
  }

  /** Appending one inactive job with its opening log row disturbs no place, limit or log. */
  lemma JobAppended(cfg: Config, w: World, w': World)
    requires PlacesKnown(w) && WithinLimits(cfg, w.db) && LogsFit(w.db)
    requires w'.machines == w.machines
    requires |w'.db.jobs| == |w.db.jobs| + 1 && w'.db.jobs[..|w.db.jobs|] == w.db.jobs
    requires var job := w'.db.jobs[|w.db.jobs|];
             job.state in {Queued, Refused} && job.place == None
             && w'.db.history == w.db.history + [[Row(None, job.state)]]
    ensures PlacesKnown(w') && WithinLimits(cfg, w'.db) && LogsFit(w'.db)
  {
    var n := |w.db.jobs|;
    forall j | 0 <= j < n ensures w'.db.jobs[j] == w.db.jobs[j] {
      assert w'.db.jobs[..n][j] == w.db.jobs[j];
    }
    forall j | 0 <= j < |w'.db.jobs| ensures PlaceKnown(w', j) && LogFits(w'.db, j) {
      if j < n {
        assert PlaceKnown(w, j) && LogFits(w.db, j);
      } else {
        assert w'.db.history[n][..0] == [];
      }
    }
    forall u: UserId ensures RunningCount(w'.db, u) <= cfg.maxRunning {
      CountSame(w.db.jobs, w'.db.jobs, u, n);
      assert RunningCount(w.db, u) <= cfg.maxRunning;
    }
  }

  lemma RefuseKeeps(cfg: Config, w: World, e: Effect)
    requires e.Refuse? && Inv(cfg, w) && Enabled(cfg, w, e)
    ensures Inv(cfg, Apply(w, e))
  {
    var db, db' := w.db, Apply(w, e).db;
    var n := |db.jobs|;
    forall i | 0 <= i < |db'.ledger| ensures RowFits(db'.jobs, db'.ledger[i]) {
      assert RowFits(db.jobs, db.ledger[i]);
    }
    NewJobOwnsNoRows(db, e.currency);
    forall j | 0 <= j < |db'.jobs| ensures JobBalances(db', j) {
      if j < n {
        assert JobBalances(db, j);
      }
    }
    forall c: Currency ensures PoolCapped(cfg, db', c) {
      SumHoldsSame(db.jobs, db.ledger, db'.jobs, db'.ledger, ActiveIn(c), n);
      assert PoolCapped(cfg, db, c);
    }
    UsersSame(cfg, db, db');
    JobAppended(cfg, w, Apply(w, e));
  }

  lemma UsersSame(cfg: Config, db: Db, db': Db)
    requires UsersCapped(cfg, db) && db'.ledger == db.ledger
    ensures UsersCapped(cfg, db')
  {
    forall u: UserId, c: Currency, p: Period
      ensures UserOwed(db', u, c, p) <= AtLeastZero(Nearest(cfg.UserBudget(u, c)))
    {
      assert UserOwed(db, u, c, p) <= AtLeastZero(Nearest(cfg.UserBudget(u, c)));
    }
  }

  // --------------------------------------------------------------------- accruing

  lemma AccrueRows(db: Db, id: JobId, a: int)
    requires RowsFit(db) && RowsPast(db) && BooksBalance(db)
    requires id < |db.jobs| && 0 < a && db.jobs[id].state in ACTIVE
    requires Spent(db.ledger, OfJobAnyCurrency(id)) + a <= db.jobs[id].reserved
    ensures var db' := SettledFor(db, id, a);
            && RowsFit(db') && RowsPast(db') && BooksBalance(db')
            && JobHold(db', id) == JobHold(db, id) - a
            && JobSettled(db', id) == JobSettled(db, id) + a
            && forall j :: 0 <= j < |db.jobs| && j != id ==> JobHold(db', j) == JobHold(db, j)
  {
    hide Held, Total;
    var db' := SettledFor(db, id, a);
    var job := db.jobs[id];
    var s := RowFor(db, id, job, LedgerWrite(Settle, a, job.currency));
    var r := RowFor(db, id, job, LedgerWrite(Release, a, job.currency));
    forall i | 0 <= i < |db'.ledger| ensures RowFits(db'.jobs, db'.ledger[i]) {
      if i < |db.ledger| {
        assert RowFits(db.jobs, db.ledger[i]);
      }
    }
    NoNegativeRows(db);
    SettledWithinSpend(db.ledger, id, job.currency);
    var q := OfJob(id, job.currency);
    HeldAppend(db.ledger, s, q);
    HeldAppend(db.ledger + [s], r, q);
    TotalAppend(db.ledger, s, q, Settle);
    TotalAppend(db.ledger + [s], r, q, Settle);
    forall j | 0 <= j < |db.jobs| ensures JobBalances(db', j) && (j != id ==> JobHold(db', j) == JobHold(db, j)) {
      assert JobBalances(db, j);
      if j != id {
        RowAboutOneJob(db.ledger, s, id, j, db.jobs[j].currency);
        RowAboutOneJob(db.ledger + [s], r, id, j, db.jobs[j].currency);
      }
    }
  }

  /** A settlement moves money from held to spent and leaves what the pool is committed to unchanged. */
  lemma AccruePool(db: Db, id: JobId, a: int, c: Currency)
    requires RowsFit(db) && RowsPast(db) && BooksBalance(db)
    requires id < |db.jobs| && 0 < a && db.jobs[id].state in ACTIVE
    requires Spent(db.ledger, OfJobAnyCurrency(id)) + a <= db.jobs[id].reserved
    ensures PoolOwed(SettledFor(db, id, a), c) == PoolOwed(db, c)
  {
    hide Held, Total;
    var db' := SettledFor(db, id, a);
    var job := db.jobs[id];
    var s := RowFor(db, id, job, LedgerWrite(Settle, a, job.currency));
    var r := RowFor(db, id, job, LedgerWrite(Release, a, job.currency));
    AccrueRows(db, id, a);
    var q := OfPool(c, db.clock.period);
    TotalAppend(db.ledger, s, q, Settle);
    TotalAppend(db.ledger + [s], r, q, Settle);
    forall j | 0 <= j < |db.jobs| && j != id
      ensures HoldShare(db.jobs, db.ledger, ActiveIn(c), j) == HoldShare(db'.jobs, db'.ledger, ActiveIn(c), j)
    {
      assert JobHold(db', j) == JobHold(db, j);
    }
    SumHoldsOneChanged(db.jobs, db.ledger, db'.jobs, db'.ledger, ActiveIn(c), id, |db.jobs|);
  }

  lemma AccrueUsers(cfg: Config, db: Db, id: JobId, a: int)
    requires id < |db.jobs| && UsersCapped(cfg, db)
    ensures UsersCapped(cfg, SettledFor(db, id, a))
  {
    var db' := SettledFor(db, id, a);
    var job := db.jobs[id];
    var s := RowFor(db, id, job, LedgerWrite(Settle, a, job.currency));
    var r := RowFor(db, id, job, LedgerWrite(Release, a, job.currency));
    forall u: UserId, c: Currency, p: Period
      ensures UserOwed(db', u, c, p) <= AtLeastZero(Nearest(cfg.UserBudget(u, c)))
    {
      UserOwedAppend(db.ledger, s, OfUser(u, c, p));
      UserOwedAppend(db.ledger + [s], r, OfUser(u, c, p));
      assert UserOwed(db, u, c, p) <= AtLeastZero(Nearest(cfg.UserBudget(u, c)));
    }
  }

  lemma AccrueKeeps(cfg: Config, w: World, e: Effect)
    requires e.Accrue? && Inv(cfg, w) && Enabled(cfg, w, e)
    ensures Inv(cfg, Apply(w, e))
  {
    AccrueRows(w.db, e.id, e.amount);
    AccrueUsers(cfg, w.db, e.id, e.amount);
    var w' := Apply(w, e);
    forall c: Currency ensures PoolCapped(cfg, w'.db, c) {
      AccruePool(w.db, e.id, e.amount, c);
      assert PoolCapped(cfg, w.db, c);
    }
    JobsSame(cfg, w, w');
  }

  /** When the job table, the logs and the machines are untouched, so are the facts about them. */
  lemma JobsSame(cfg: Config, w: World, w': World)
    requires PlacesKnown(w) && WithinLimits(cfg, w.db) && LogsFit(w.db)
    requires w'.db.jobs == w.db.jobs && w'.db.history == w.db.history
    requires w.machines.Keys <= w'.machines.Keys
    requires forall h :: h in w.machines ==> w'.machines[h].job == w.machines[h].job
    ensures PlacesKnown(w') && WithinLimits(cfg, w'.db) && LogsFit(w'.db)
  {
    forall j | 0 <= j < |w'.db.jobs| ensures PlaceKnown(w', j) && LogFits(w'.db, j) {
      assert PlaceKnown(w, j) && LogFits(w.db, j);
    }
    forall u: UserId ensures RunningCount(w'.db, u) <= cfg.maxRunning {
      assert RunningCount(w.db, u) <= cfg.maxRunning;
    }
  }

  // ------------------------------------------------------------------- abandoning

  lemma AbandonKeeps(cfg: Config, w: World, e: Effect)
    requires e.Abandon? && Inv(cfg, w) && Enabled(cfg, w, e)
    ensures Inv(cfg, Apply(w, e))
  {
    hide Held, Total;
    var db, w' := w.db, Apply(w, e);
    var db' := w'.db;
    var row := Entry(e.tag, e.billed, e.currency, Abandoned, e.amount, db.clock.period, db.clock.now,
                    Some(e.handle.serial));
    forall i | 0 <= i < |db'.ledger| ensures RowFits(db'.jobs, db'.ledger[i]) {
      if i < |db.ledger| {
        assert RowFits(db.jobs, db.ledger[i]);
      }
    }
    forall j | 0 <= j < |db.jobs| ensures JobBalances(db', j) && JobHold(db', j) == JobHold(db, j) {
      assert JobBalances(db, j);
      HeldAppend(db.ledger, row, OfJob(j, db.jobs[j].currency));
      TotalAppend(db.ledger, row, OfJob(j, db.jobs[j].currency), Settle);
    }
    forall c: Currency ensures PoolCapped(cfg, db', c) {
      TotalAppend(db.ledger, row, OfPool(c, db.clock.period), Settle);
      forall j | 0 <= j < |db.jobs|
        ensures HoldShare(db.jobs, db.ledger, ActiveIn(c), j) == HoldShare(db'.jobs, db'.ledger, ActiveIn(c), j)
      {
        assert JobHold(db', j) == JobHold(db, j);
      }
      SumHoldsSame(db.jobs, db.ledger, db'.jobs, db'.ledger, ActiveIn(c), |db.jobs|);
      assert PoolCapped(cfg, db, c);
    }
    forall u: UserId, c: Currency, p: Period
      ensures UserOwed(db', u, c, p) <= AtLeastZero(Nearest(cfg.UserBudget(u, c)))
    {
      UserOwedAppend(db.ledger, row, OfUser(u, c, p));
      assert UserOwed(db, u, c, p) <= AtLeastZero(Nearest(cfg.UserBudget(u, c)));
    }
    JobsSame(cfg, w, w');
  }

  // ------------------------------------------------------------------- annotating

  lemma AnnotateKeeps(cfg: Config, w: World, e: Effect)
    requires e.Annotate? && Inv(cfg, w) && Enabled(cfg, w, e)
    ensures Inv(cfg, Apply(w, e))
  {
    var db, db' := w.db, Apply(w, e).db;
    AnnotateRows(cfg, w, e);
    AnnotateJobs(cfg, w, e);
    forall c: Currency ensures PoolCapped(cfg, db', c) {
      SumHoldsSame(db.jobs, db.ledger, db'.jobs, db'.ledger, ActiveIn(c), |db.jobs|);
      assert PoolCapped(cfg, db, c);
    }
    UsersSame(cfg, db, db');
  }

  lemma AnnotateRows(cfg: Config, w: World, e: Effect)
    requires e.Annotate? && Enabled(cfg, w, e) && RowsFit(w.db) && RowsPast(w.db) && BooksBalance(w.db)
    ensures var db' := Apply(w, e).db; RowsFit(db') && RowsPast(db') && BooksBalance(db')
  {
    hide Held, Total;
    var db, db' := w.db, Apply(w, e).db;
    forall i | 0 <= i < |db'.ledger| ensures RowFits(db'.jobs, db'.ledger[i]) {
      assert RowFits(db.jobs, db.ledger[i]);
    }
    forall j | 0 <= j < |db'.jobs| ensures JobBalances(db', j) {
      assert JobBalances(db, j);
    }
  }

  lemma AnnotateJobs(cfg: Config, w: World, e: Effect)
    requires e.Annotate? && Enabled(cfg, w, e) && PlacesKnown(w) && WithinLimits(cfg, w.db) && LogsFit(w.db)
    ensures var w' := Apply(w, e); PlacesKnown(w') && WithinLimits(cfg, w'.db) && LogsFit(w'.db)
  {
    var db, w' := w.db, Apply(w, e);
    var db' := w'.db;
    forall j | 0 <= j < |db'.jobs| ensures PlaceKnown(w', j) && LogFits(db', j) {
      assert PlaceKnown(w, j) && LogFits(db, j);
    }
    forall u: UserId ensures RunningCount(db', u) <= cfg.maxRunning {
      CountSame(db.jobs, db'.jobs, u, |db.jobs|);
      assert RunningCount(db, u) <= cfg.maxRunning;
    }
  }

  // ----------------------------------------------------------------------- moving

  /** The ledger rows of a transition made on the current row, with nothing extra:
      one release of the whole remaining hold when the job ends, and otherwise none. */
  lemma MoveLedger(db: Db, e: Effect)
    requires e.Move? && e.id < |db.jobs| == |db.history|
    ensures var job := db.jobs[e.id];
            Transitioned(db, e.id, job, e.to, e.place, e.exit, e.clear, []).ledger
              == (if e.to in TERMINAL && 0 < JobHold(db, e.id)
                  then db.ledger + [RowFor(db, e.id, job, LedgerWrite(Release, JobHold(db, e.id), job.currency))]
                  else db.ledger)
  {
    var job := db.jobs[e.id];
    var ws := WritesOf(db, e.id, job, e.to, []);
    if ws == [] {
      assert Written(db, e.id, job, ws) == db.ledger;
    } else {
      assert Written(db, e.id, job, ws) == db.ledger + [RowFor(db, e.id, job, ws[0])];
    }
  }

  /** What those rows leave the moved job, and every other job, with. */
  lemma MoveRows(db: Db, e: Effect)
    requires e.Move? && e.id < |db.jobs| == |db.history|
    requires RowsFit(db) && RowsPast(db) && BooksBalance(db)
    requires CanTransition(db.jobs[e.id].state, e.to)
    ensures var job := db.jobs[e.id];
            var db' := Transitioned(db, e.id, job, e.to, e.place, e.exit, e.clear, []);
            && db'.ledger == (if e.to in TERMINAL && 0 < JobHold(db, e.id)
                              then db.ledger + [RowFor(db, e.id, job, LedgerWrite(Release, JobHold(db, e.id), job.currency))]
                              else db.ledger)
            && JobHold(db', e.id) == (if e.to in TERMINAL then 0 else JobHold(db, e.id))
            && JobSettled(db', e.id) == JobSettled(db, e.id)
            && RowsFit(db') && RowsPast(db') && BooksBalance(db')
            && forall j :: 0 <= j < |db.jobs| && j != e.id ==> JobHold(db', j) == JobHold(db, j)
  {
    hide Written, WritesOf, Held, Total;
    var job := db.jobs[e.id];
    var db' := Transitioned(db, e.id, job, e.to, e.place, e.exit, e.clear, []);
    var row := RowFor(db, e.id, job, LedgerWrite(Release, JobHold(db, e.id), job.currency));
    MoveLedger(db, e);
    assert JobBalances(db, e.id);
    forall i | 0 <= i < |db'.ledger| ensures RowFits(db'.jobs, db'.ledger[i]) {
      if i < |db.ledger| {
        assert RowFits(db.jobs, db.ledger[i]);
      }
    }
    HeldAppend(db.ledger, row, OfJob(e.id, job.currency));
    TotalAppend(db.ledger, row, OfJob(e.id, job.currency), Settle);
    StatesAreSplit(job.state);
    StatesAreSplit(e.to);
    forall j | 0 <= j < |db.jobs| ensures JobBalances(db', j) && (j != e.id ==> JobHold(db', j) == JobHold(db, j)) {
      assert JobBalances(db, j);
      if j != e.id {
        RowAboutOneJob(db.ledger, row, e.id, j, db.jobs[j].currency);
      }
    }
  }

  /** A transition changes what the pool owes only by whether the job's hold counts. */
  lemma MovePool(db: Db, e: Effect, c: Currency)
    requires e.Move? && e.id < |db.jobs| == |db.history|
    requires RowsFit(db) && RowsPast(db) && BooksBalance(db)
    requires CanTransition(db.jobs[e.id].state, e.to)
    ensures var job := db.jobs[e.id];
            var db' := Transitioned(db, e.id, job, e.to, e.place, e.exit, e.clear, []);
            && PoolOwed(db', c) - PoolOwed(db, c) == PoolCommitted(db', c) - PoolCommitted(db, c)
            && PoolOwed(db', c) <= PoolOwed(db, c) + (if e.to == Allocating && job.currency == c then job.reserved else 0)
  {
    hide Held, Total;
    var job := db.jobs[e.id];
    var db' := Transitioned(db, e.id, job, e.to, e.place, e.exit, e.clear, []);
    MoveRows(db, e);
    var row := RowFor(db, e.id, job, LedgerWrite(Release, JobHold(db, e.id), job.currency));
    var q := OfPool(c, db.clock.period);
    TotalAppend(db.ledger, row, q, Settle);
    TotalAppend(db.ledger, row, q, Abandoned);
    forall j | 0 <= j < |db.jobs| && j != e.id
      ensures HoldShare(db.jobs, db.ledger, ActiveIn(c), j) == HoldShare(db'.jobs, db'.ledger, ActiveIn(c), j)
    {
      assert JobHold(db', j) == JobHold(db, j);
    }
    SumHoldsOneChanged(db.jobs, db.ledger, db'.jobs, db'.ledger, ActiveIn(c), e.id, |db.jobs|);
    ActiveBoundary(job.state, e.to);
    assert JobBalances(db, e.id) && JobBalances(db', e.id);
  }

  lemma MoveUsers(cfg: Config, db: Db, e: Effect)
    requires e.Move? && e.id < |db.jobs| == |db.history|
    requires RowsFit(db) && RowsPast(db) && BooksBalance(db) && UsersCapped(cfg, db)
    requires CanTransition(db.jobs[e.id].state, e.to)
    ensures UsersCapped(cfg, Transitioned(db, e.id, db.jobs[e.id], e.to, e.place, e.exit, e.clear, []))
  {
    var job := db.jobs[e.id];
    var db' := Transitioned(db, e.id, job, e.to, e.place, e.exit, e.clear, []);
    MoveRows(db, e);
    var row := RowFor(db, e.id, job, LedgerWrite(Release, JobHold(db, e.id), job.currency));
    forall u: UserId, c: Currency, p: Period
      ensures UserOwed(db', u, c, p) <= AtLeastZero(Nearest(cfg.UserBudget(u, c)))
    {
      UserOwedAppend(db.ledger, row, OfUser(u, c, p));
      assert UserOwed(db, u, c, p) <= AtLeastZero(Nearest(cfg.UserBudget(u, c)));
    }
  }

  lemma MovePlacesAndLogs(cfg: Config, w: World, e: Effect)
    requires e.Move? && Enabled(cfg, w, e)
    requires PlacesKnown(w) && WithinLimits(cfg, w.db) && LogsFit(w.db)
    ensures var w' := Apply(w, e); PlacesKnown(w') && WithinLimits(cfg, w'.db) && LogsFit(w'.db)
  {
    var db, w' := w.db, Apply(w, e);
    var db' := w'.db;
    var from := db.jobs[e.id].state;
    ActiveBoundary(from, e.to);
    forall j | 0 <= j < |db'.jobs| ensures PlaceKnown(w', j) && LogFits(db', j) {
      assert PlaceKnown(w, j) && LogFits(db, j);
      if j == e.id {
        LogExtends(db.history[j], from, e.to);
        PreemptedRowsAppend(db.history[j], Row(Some(from), e.to));
      }
    }
    forall u: UserId ensures RunningCount(db', u) <= cfg.maxRunning {
      CountOneChanged(db.jobs, db'.jobs, u, e.id, |db.jobs|);
      assert RunningCount(db, u) <= cfg.maxRunning;
    }
  }

  lemma MoveKeeps(cfg: Config, w: World, e: Effect)
    requires e.Move? && Inv(cfg, w) && Enabled(cfg, w, e)
    ensures Inv(cfg, Apply(w, e))
  {
    MoveRows(w.db, e);
    MoveUsers(cfg, w.db, e);
    MovePlacesAndLogs(cfg, w, e);
    forall c: Currency ensures PoolCapped(cfg, Apply(w, e).db, c) {
      MovePool(w.db, e, c);
      OwedWithinCommitted(w.db, w.db.jobs[e.id].user, c, w.db.clock.period);
      assert PoolCapped(cfg, w.db, c);
    }
  }

  // ---------------------------------------------------------------- time, machines

  /** Time passing never raises what the pool owes: a new period starts with nothing spent in it. */
  lemma ElapsePool(db: Db, clock: Clock, c: Currency)
    requires RowsFit(db) && RowsPast(db) && db.clock.period <= clock.period
    ensures PoolOwed(db.(clock := clock), c) <= PoolOwed(db, c)
    ensures PoolCommitted(db.(clock := clock), c) <= PoolCommitted(db, c)
    ensures db.clock.period < clock.period ==> PoolCommitted(db.(clock := clock), c) == ActiveHolds(db, c)
  {
    NoNegativeRows(db);
    TotalNonNegative(db.ledger, OfPool(c, db.clock.period), Settle);
    TotalNonNegative(db.ledger, OfPool(c, db.clock.period), Abandoned);
    if db.clock.period < clock.period {
      NothingMatches(db.ledger, OfPool(c, clock.period), Settle);
      NothingMatches(db.ledger, OfPool(c, clock.period), Abandoned);
    }
  }

  lemma ElapseKeeps(cfg: Config, w: World, e: Effect)
    requires e.Elapse? && Inv(cfg, w) && Enabled(cfg, w, e)
    ensures Inv(cfg, Apply(w, e))
  {
    var db, w' := w.db, Apply(w, e);
    var db' := w'.db;
    forall i | 0 <= i < |db'.ledger| ensures RowFits(db'.jobs, db'.ledger[i]) {
      assert RowFits(db.jobs, db.ledger[i]);
    }
    forall j | 0 <= j < |db'.jobs| ensures JobBalances(db', j) {
      assert JobBalances(db, j);
    }
    forall c: Currency ensures PoolCapped(cfg, db', c) {
      ElapsePool(db, e.clock, c);
      assert PoolCapped(cfg, db, c);
    }
    UsersSame(cfg, db, db');
    JobsSame(cfg, w, w');
  }

  lemma OutsideKeeps(cfg: Config, w: World, e: Effect)
    requires e.Launch? || e.Terminate? || e.Appear? || e.SetSuspended?
    requires Inv(cfg, w) && Enabled(cfg, w, e)
    ensures Inv(cfg, Apply(w, e))
  {
    var db, w' := w.db, Apply(w, e);
    var db' := w'.db;
    forall i | 0 <= i < |db'.ledger| ensures RowFits(db'.jobs, db'.ledger[i]) {
      assert RowFits(db.jobs, db.ledger[i]);
    }
    forall j | 0 <= j < |db'.jobs| ensures JobBalances(db', j) {
      assert JobBalances(db, j);
    }
    forall c: Currency ensures PoolCapped(cfg, db', c) {
      assert PoolCapped(cfg, db, c);
    }
    UsersSame(cfg, db, db');
    JobsSame(cfg, w, w');
  }

  // ------------------------------------------------------------------ every effect

  lemma EffectKeeps(cfg: Config, w: World, e: Effect)
    requires Inv(cfg, w) && Enabled(cfg, w, e)
    ensures Inv(cfg, Apply(w, e))
  {
    match e
    case Submit(_, _, _, _) => SubmitKeeps(cfg, w, e);
    case Refuse(_, _, _, _) => RefuseKeeps(cfg, w, e);
    case Accrue(_, _) => AccrueKeeps(cfg, w, e);
    case Abandon(_, _, _, _, _) => AbandonKeeps(cfg, w, e);
    case Annotate(_, _) => AnnotateKeeps(cfg, w, e);
    case Move(_, _, _, _, _) => MoveKeeps(cfg, w, e);
    case Elapse(_) => ElapseKeeps(cfg, w, e);
    case _ => OutsideKeeps(cfg, w, e);
  }

  lemma EmptyKeeps(cfg: Config)
    ensures Inv(cfg, EMPTY)
  {
    forall c: Currency ensures PoolCapped(cfg, EMPTY.db, c) {
      assert PoolOwed(EMPTY.db, c) == 0;
    }
    forall u: UserId, c: Currency, p: Period
      ensures UserOwed(EMPTY.db, u, c, p) <= AtLeastZero(Nearest(cfg.UserBudget(u, c)))
    {
    }
    forall u: UserId ensures RunningCount(EMPTY.db, u) <= cfg.maxRunning {
    }
  }

  /** Every state of every run that starts from a good state is good. A crash between two
      effects leaves one of these states behind. */
  lemma {:induction false} RunKeeps(cfg: Config, run: Run, k: nat)
    requires IsRun(cfg, run) && Inv(cfg, run.states[0]) && k < |run.states|
    ensures Inv(cfg, run.states[k])
  {
    if 0 < k {
      RunKeeps(cfg, run, k - 1);
      EffectKeeps(cfg, run.states[k - 1], run.effects[k - 1]);
    }
  }
}
