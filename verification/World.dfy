/** Everything that outlives a crash, and the single durable effects that change it.

    A process that dies loses only what it had in memory, so the states a crash can leave
    behind are exactly the states between two effects of a run. */
module World {
  import opened Wrappers
  import opened Money
  import opened States
  import opened Ledger
  import opened Tables
  import opened History

  /** A machine a backend launched: the job in its tags, and whether it is still up. */
  datatype Machine = Machine(job: Option<JobId>, live: bool)

  datatype World = World(db: Db, machines: map<Handle, Machine>)

  datatype Account = Account(usd: real, gpuHours: real)

  datatype Config = Config(poolUsd: real, poolGpuHours: real, accounts: map<UserId, Account>,
                           maxRunning: nat, backends: set<BackendId>, pinAfter: nat)
  {
    function PoolBudget(c: Currency): real {
      if c == Usd then poolUsd else poolGpuHours
    }

    /** A user's monthly budget; nobody without an account has one. */
    function UserBudget(u: UserId, c: Currency): real {
      if u !in accounts then 0.0 else if c == Usd then accounts[u].usd else accounts[u].gpuHours
    }
  }

  const EMPTY_DB := Db([], [], [], {}, Clock(0.0, 0))
  const EMPTY := World(EMPTY_DB, map[])

  // ------------------------------------------------------------------- measures

  /** Which jobs a sum of holds runs over. */
  datatype Selection = ActiveIn(currency: Currency) | OwnedBy(user: UserId, currency: Currency)

  predicate Selected(sel: Selection, job: Job) {
    match sel
    case ActiveIn(c) => job.state in ACTIVE && job.currency == c
    case OwnedBy(u, c) => job.user == u && job.currency == c
  }

  /** What job `j` adds to the sum: its outstanding hold when selected. */
  function HoldShare(jobs: seq<Job>, l: seq<Entry>, sel: Selection, j: nat): int
    requires j < |jobs|
  {
    if Selected(sel, jobs[j]) then Held(l, OfJob(j, jobs[j].currency)) else 0
  }

  /** The outstanding holds of the selected jobs among the first `n`. */
  function SumHolds(jobs: seq<Job>, l: seq<Entry>, sel: Selection, n: nat): int
    requires n <= |jobs|
  {
    if n == 0 then 0 else SumHolds(jobs, l, sel, n - 1) + HoldShare(jobs, l, sel, n - 1)
  }

  predicate HoldsMachine(job: Job, user: UserId) {
    job.user == user && job.state in ACTIVE
  }

  /** How many of the first `n` jobs hold a machine for `user`. */
  function CountActive(jobs: seq<Job>, user: UserId, n: nat): (count: nat)
    requires n <= |jobs|
  {
    if n == 0 then 0
    else CountActive(jobs, user, n - 1) + (if HoldsMachine(jobs[n - 1], user) then 1 else 0)
  }

  /** `running_count`. */
  function RunningCount(db: Db, user: UserId): nat {
    CountActive(db.jobs, user, |db.jobs|)
  }

  /** Which jobs that counts: those booting, running, writing a checkpoint or restoring one. */
  lemma {:induction false} CountIsMachines(jobs: seq<Job>, user: UserId, n: nat)
    requires n <= |jobs|
    ensures CountActive(jobs, user, n)
         == |set j | 0 <= j < n && jobs[j].user == user
                     && jobs[j].state in {Allocating, Running, Checkpointing, Resuming}|
  {
    if 0 < n {
      CountIsMachines(jobs, user, n - 1);
      OneJobMore(jobs, user, n - 1);
    }
  }

  lemma OneJobMore(jobs: seq<Job>, user: UserId, n: nat)
    requires n < |jobs|
    ensures |set j | 0 <= j < n + 1 && jobs[j].user == user
                     && jobs[j].state in {Allocating, Running, Checkpointing, Resuming}|
         == |set j | 0 <= j < n && jobs[j].user == user
                     && jobs[j].state in {Allocating, Running, Checkpointing, Resuming}|
            + (if HoldsMachine(jobs[n], user) then 1 else 0)
  {
    var before := set j | 0 <= j < n && jobs[j].user == user
                          && jobs[j].state in {Allocating, Running, Checkpointing, Resuming};
    var all := set j | 0 <= j < n + 1 && jobs[j].user == user
                       && jobs[j].state in {Allocating, Running, Checkpointing, Resuming};
    if HoldsMachine(jobs[n], user) {
      assert all == before + {n};
    } else {
      assert all == before;
    }
  }

  /** The holds of the jobs that have a machine. */
  function ActiveHolds(db: Db, c: Currency): int {
    SumHolds(db.jobs, db.ledger, ActiveIn(c), |db.jobs|)
  }

  /** `pool_committed`: spent this period, plus the holds of active jobs. */
  function PoolCommitted(db: Db, c: Currency): int {
    Spent(db.ledger, OfPool(c, db.clock.period)) + ActiveHolds(db, c)
  }

  /** The same without abandoned capacity, which the broker writes down but never decided to buy. */
  function PoolOwed(db: Db, c: Currency): int {
    Total(db.ledger, OfPool(c, db.clock.period), Settle) + ActiveHolds(db, c)
  }

  /** Held plus settled by one user in one period. */
  function UserOwed(db: Db, u: UserId, c: Currency, p: Period): int {
    Held(db.ledger, OfUser(u, c, p)) + Total(db.ledger, OfUser(u, c, p), Settle)
  }

  /** `Balance.committed`: what admission compares with the budget. */
  function UserCommitted(db: Db, u: UserId, c: Currency, p: Period): int {
    Held(db.ledger, OfUser(u, c, p)) + Spent(db.ledger, OfUser(u, c, p))
  }

  // -------------------------------------------------------------------- effects

  datatype Effect =
    | Submit(user: UserId, gpu: GpuType, currency: Currency, reserved: int)
    | Refuse(user: UserId, gpu: GpuType, currency: Currency, reserved: int)
    | Accrue(id: JobId, amount: int)
    | Abandon(handle: Handle, tag: Option<JobId>, billed: Option<UserId>, currency: Currency, amount: int)
    | Annotate(id: JobId, note: Note)
    | Move(id: JobId, to: JobState, place: Option<Handle>, exit: Option<int>, clear: bool)
    | SetSuspended(users: set<UserId>)
    | Launch(handle: Handle, id: JobId)
    | Terminate(handle: Handle)
    /** Somebody other than this broker starts a machine, tagged or not. */
    | Appear(handle: Handle, machine: Machine)
    | Elapse(clock: Clock)

  /** What a run of the broker may do next. Every guard is a check some caller makes, or says what
      no caller asks for: nothing ever moves a job to CHECKPOINTING. */
  predicate Enabled(cfg: Config, w: World, e: Effect) {
    var db := w.db;
    match e
    case Submit(u, g, c, r) =>
      && 0 <= r
      && UserCommitted(db, u, c, db.clock.period) + r <= Nearest(cfg.UserBudget(u, c))
    case Refuse(u, g, c, r) => true
    case Accrue(id, a) =>
      && id < |db.jobs|
      && 0 < a && db.jobs[id].state in ACTIVE
      && Spent(db.ledger, OfJobAnyCurrency(id)) + a <= db.jobs[id].reserved
    case Abandon(_, t, _, _, a) => 0 < a && (t.Some? ==> t.value < |db.jobs|)
    case Annotate(id, note) => id < |db.jobs|
    case Move(id, to, place, exit, clear) =>
      && id < |db.jobs| && id < |db.history|
      && CanTransition(db.jobs[id].state, to) && to != Checkpointing
      && (to == Allocating ==> MayDispatch(cfg, w, id, place) && !clear)
      && (to != Allocating ==> place == None)
      && (to in ACTIVE ==> !clear)
      && (db.jobs[id].state in ACTIVE && to !in ACTIVE ==> clear)
      && (to == Preempted ==> PreemptedRows(db.history[id]) < db.jobs[id].preemptions)
    case SetSuspended(us) => true
    case Launch(h, id) =>
      id < |db.jobs| && NameFree(w.machines, h, id)
    case Terminate(h) => true
    case Appear(h, m) => h !in w.machines
    case Elapse(clock) => db.clock.now <= clock.now && db.clock.period <= clock.period
  }

  /** A backend never gives a name that is taken. One that derives names from jobs may give a job
      the name of a machine of its own that is down. */
  predicate NameFree(machines: map<Handle, Machine>, h: Handle, id: JobId) {
    h in machines ==> machines[h] == Machine(Some(id), false)
  }

  /** What must hold at the instant a job is given a machine. */
  predicate MayDispatch(cfg: Config, w: World, id: JobId, place: Option<Handle>)
    requires id < |w.db.jobs|
  {
    var job := w.db.jobs[id];
    && place.Some? && place.value in w.machines && w.machines[place.value].job == Some(id)
    && job.user !in w.db.suspended
    && RunningCount(w.db, job.user) < cfg.maxRunning
    && (PoolCommitted(w.db, job.currency) + job.reserved) as real <= cfg.PoolBudget(job.currency)
  }

  /** The world one effect later. An effect that names no job or machine changes nothing. */
  function Apply(w: World, e: Effect): World {
    var db := w.db;
    match e
    case Submit(u, g, c, r) => w.(db := Created(db, u, g, c, r))
    case Refuse(u, g, c, r) => w.(db := RefusalRecorded(db, u, g, c, r))
    case Accrue(id, a) => if id < |db.jobs| then w.(db := SettledFor(db, id, a)) else w
    case Abandon(h, t, b, c, a) => w.(db := Charged(db, h, t, b, c, a))
    case Annotate(id, note) => if id < |db.jobs| then w.(db := Noted(db, id, note)) else w
    case Move(id, to, place, exit, clear) =>
      if id < |db.jobs| == |db.history|
      then w.(db := Transitioned(db, id, db.jobs[id], to, place, exit, clear, []))
      else w
    case SetSuspended(us) => w.(db := db.(suspended := us))
    case Launch(h, id) => w.(machines := w.machines[h := Machine(Some(id), true)])
    case Terminate(h) =>
      if h in w.machines then w.(machines := w.machines[h := w.machines[h].(live := false)]) else w
    case Appear(h, m) => w.(machines := w.machines[h := m])
    case Elapse(clock) => w.(db := db.(clock := clock))
  }

  // ----------------------------------------------------------------------- runs

  /** The states a run passes through, and the effects between them. */
  datatype Run = Run(states: seq<World>, effects: seq<Effect>)

  predicate IsRun(cfg: Config, run: Run) {
    && |run.states| == |run.effects| + 1
    && forall k :: 0 <= k < |run.effects| ==>
         Enabled(cfg, run.states[k], run.effects[k])
         && run.states[k + 1] == Apply(run.states[k], run.effects[k])
  }
}
