/** The other ways a job enters or leaves the ledger (gpu_broker/broker.py `submit`, `cancel`, `_reclaim_one`). */
module Broker {
  import opened Wrappers
  import opened Money
  import opened States
  import opened Ledger
  import opened Tables
  import opened World
  import opened Books
  import opened Admission
  import opened Advance
  import opened Store
  import opened Engine
  import opened Drift
  import opened Accrual
  import Lifetimes

  // ----------------------------------------------------------------- submitting

  function CountQueued(jobs: seq<Job>, user: UserId, n: nat): (count: nat)
    requires n <= |jobs|
  {
    if n == 0 then 0
    else CountQueued(jobs, user, n - 1) + (if jobs[n - 1].user == user && jobs[n - 1].state == Queued then 1 else 0)
  }

  lemma {:induction false} QueuedAreCounted(jobs: seq<Job>, user: UserId, n: nat)
    requires n <= |jobs|
    ensures CountQueued(jobs, user, n) == |set j | 0 <= j < n && jobs[j].user == user && jobs[j].state == Queued|
  {
    if 0 < n {
      QueuedAreCounted(jobs, user, n - 1);
      var before := set j | 0 <= j < n - 1 && jobs[j].user == user && jobs[j].state == Queued;
      var all := set j | 0 <= j < n && jobs[j].user == user && jobs[j].state == Queued;
      if jobs[n - 1].user == user && jobs[n - 1].state == Queued {
        assert all == before + {n - 1};
      } else {
        assert all == before;
      }
    }
  }

  /** `queued_count`. */
  method QueuedCountOf(store: Store, user: UserId) returns (n: nat)
    ensures n == CountQueued(store.jobs, user, |store.jobs|)
    ensures n == |set j | 0 <= j < |store.jobs| && store.jobs[j].user == user && store.jobs[j].state == Queued|
  {
    QueuedAreCounted(store.jobs, user, |store.jobs|);
    n := 0;
    for i := 0 to |store.jobs|
      invariant n == CountQueued(store.jobs, user, i)
    {
      if store.jobs[i].user == user && store.jobs[i].state == Queued {
        n := n + 1;
      }
    }
  }

  /** What a member asks for. Without a budget of their own, the default reservation is used. */
  datatype Request = Request(user: UserId, gpu: GpuType, hours: real, budget: Option<real>, command: nat)

  function Asked(l: Limits, r: Request): real
    requires r.gpu in l.gpus
  {
    match r.budget
    case Some(b) => b
    case None => DefaultReservation(l.gpus[r.gpu].price, r.hours, l.startup) as real
  }

  /** Everything policy asks of a well-formed request. */
  predicate Admissible(cfg: Config, l: Limits, db: Db, r: Request)
    requires r.gpu in l.gpus
  {
    var c := l.gpus[r.gpu].currency;
    && r.user !in db.suspended
    && 0.0 < Asked(l, r) <= l.MaxJob(c)
    && CountQueued(db.jobs, r.user, |db.jobs|) < l.maxQueued
    && UserCommitted(db, r.user, c, db.clock.period) as real + Asked(l, r) <= cfg.UserBudget(r.user, c)
  }

  /** The first check that fails, in the order the broker asks them. */
  predicate Explains(cfg: Config, l: Limits, db: Db, r: Request, refusal: Refusal)
    requires r.gpu in l.gpus
  {
    var c := l.gpus[r.gpu].currency;
    var member, depth := r.user !in db.suspended, CountQueued(db.jobs, r.user, |db.jobs|) < l.maxQueued;
    match refusal
    case UserSuspended => !member
    case InvalidBudget => member && Asked(l, r) <= 0.0
    case JobCapExceeded(short) =>
      member && 0.0 < Asked(l, r) && l.MaxJob(c) < Asked(l, r) && short == Quantize(Asked(l, r) - l.MaxJob(c))
    case QueueDepthExceeded => member && 0.0 < Asked(l, r) <= l.MaxJob(c) && !depth
    case UserBudgetExceeded(short) =>
      member && depth && 0.0 < Asked(l, r) <= l.MaxJob(c)
      && cfg.UserBudget(r.user, c) < UserCommitted(db, r.user, c, db.clock.period) as real + Asked(l, r)
      && short == Quantize(Asked(l, r)
                           - (cfg.UserBudget(r.user, c) - UserCommitted(db, r.user, c, db.clock.period) as real))
  }

  /** The checks in order, and the first refusal among them. */
  method Check(engine: Engine, l: Limits, r: Request, reserved: real) returns (refusal: Option<Refusal>)
    requires r.gpu in l.gpus && reserved == Asked(l, r)
    ensures refusal.None? <==> Admissible(engine.cfg, l, engine.store.View(), r)
    ensures refusal.Some? ==> Explains(engine.cfg, l, engine.store.View(), r, refusal.value)
  {
    var c := l.gpus[r.gpu].currency;
    refusal := CheckMembership(r.user in engine.store.suspended);
    if refusal.None? {
      refusal := CheckJobCap(l.MaxJob(c), reserved);
    }
    if refusal.None? {
      var queued := QueuedCountOf(engine.store, r.user);
      refusal := CheckQueueDepth(l.maxQueued, queued);
    }
    if refusal.None? {
      var held, spent := Aggregate(engine.store.ledger, OfUser(r.user, c, engine.store.clock.period));
      refusal := CheckUserBudget(engine.cfg.UserBudget(r.user, c), held + spent, reserved);
    }
  }

  /** What is reserved: the budget asked for, rounded, or the default reservation. */
  lemma AskedRounds(l: Limits, r: Request)
    requires r.gpu in l.gpus
    ensures Quantize(Asked(l, r))
         == (match r.budget case Some(b) => Quantize(b)
             case None => DefaultReservation(l.gpus[r.gpu].price, r.hours, l.startup))
  {
    hide DefaultReservation;
    if r.budget.None? {
      QuantizeWhole(DefaultReservation(l.gpus[r.gpu].price, r.hours, l.startup));
    }
  }

  /** When policy allows a request: its user is not suspended, what it asks for is positive, within the cap of one job
      and within what is left of the month's budget after everything held, settled or abandoned, and fewer of the
      user's jobs are waiting than may. */
  lemma AdmissibleWhen(cfg: Config, l: Limits, db: Db, r: Request)
    requires r.gpu in l.gpus && r.user in cfg.accounts
    ensures var gpu, account := l.gpus[r.gpu], cfg.accounts[r.user];
            var month := OfUser(r.user, gpu.currency, db.clock.period);
            var asked := match r.budget case Some(b) => b
                         case None => DefaultReservation(gpu.price, r.hours, l.startup) as real;
            Admissible(cfg, l, db, r)
            <==>
            && r.user !in db.suspended && 0.0 < asked
            && asked <= (match gpu.currency case Usd => l.maxJobUsd case GpuHour => l.maxJobGpuHours)
            && |set j | 0 <= j < |db.jobs| && db.jobs[j].user == r.user && db.jobs[j].state == Queued| < l.maxQueued
            && (Held(db.ledger, month) + Total(db.ledger, month, Settle)
                + Total(db.ledger, month, Abandoned)) as real + asked
                 <= (match gpu.currency case Usd => account.usd case GpuHour => account.gpuHours)
  {
    QueuedAreCounted(db.jobs, r.user, |db.jobs|);
    CurrencyCases(l.gpus[r.gpu].currency);
    var counted := set j | 0 <= j < |db.jobs| && db.jobs[j].user == r.user && db.jobs[j].state == Queued;
    assert CountQueued(db.jobs, r.user, |db.jobs|) == |counted|;
  }

  /** What each refusal means. They are told apart in this order: suspended, not positive, over the cap of one job, too
      many jobs waiting, over what is left of the month's budget; the two that name an amount name what is
      missing, to the nearest quantum. */
  lemma RefusedBecause(cfg: Config, l: Limits, db: Db, r: Request, refusal: Refusal)
    requires r.gpu in l.gpus && r.user in cfg.accounts && Explains(cfg, l, db, r, refusal)
    ensures var gpu, account := l.gpus[r.gpu], cfg.accounts[r.user];
            var month := OfUser(r.user, gpu.currency, db.clock.period);
            var asked := match r.budget case Some(b) => b
                         case None => DefaultReservation(gpu.price, r.hours, l.startup) as real;
            var cap := match gpu.currency case Usd => l.maxJobUsd case GpuHour => l.maxJobGpuHours;
            var budget := match gpu.currency case Usd => account.usd case GpuHour => account.gpuHours;
            var left := budget - (Held(db.ledger, month) + Total(db.ledger, month, Settle)
                                  + Total(db.ledger, month, Abandoned)) as real;
            var waiting := |set j | 0 <= j < |db.jobs| && db.jobs[j].user == r.user && db.jobs[j].state == Queued|;
            && (refusal == UserSuspended <==> r.user in db.suspended)
            && (refusal == InvalidBudget <==> r.user !in db.suspended && asked <= 0.0)
            && (refusal.JobCapExceeded? <==> r.user !in db.suspended && 0.0 < asked && cap < asked)
            && (refusal == QueueDepthExceeded <==>
                  r.user !in db.suspended && 0.0 < asked <= cap && l.maxQueued <= waiting)
            && (refusal.UserBudgetExceeded? <==>
                  r.user !in db.suspended && 0.0 < asked <= cap && waiting < l.maxQueued && left < asked)
            && (refusal.JobCapExceeded? ==> asked - cap - 0.5 <= refusal.short as real <= asked - cap + 0.5)
            && (refusal.UserBudgetExceeded? ==> asked - left - 0.5 <= refusal.short as real <= asked - left + 0.5)
  {
    QueuedAreCounted(db.jobs, r.user, |db.jobs|);
    CurrencyCases(l.gpus[r.gpu].currency);
    var counted := set j | 0 <= j < |db.jobs| && db.jobs[j].user == r.user && db.jobs[j].state == Queued;
    assert CountQueued(db.jobs, r.user, |db.jobs|) == |counted|;
  }

  /** `submit`: a typo raises and leaves no record; a well-formed request becomes one row, QUEUED with
      its hold when policy allows it, and REFUSED with the reason when it does not. */
  method SubmitJob(engine: Engine, l: Limits, r: Request) returns (result: Result<(JobId, Option<Refusal>), Typo>)
    requires engine.Valid()
    modifies engine, engine.store
    ensures engine.Valid()
    ensures result.Err? <==>
              !(r.gpu in l.gpus && 0.0 < r.hours <= l.maxHours && r.command <= l.maxCommand
                && r.user in engine.cfg.accounts)
    ensures result.Err? ==> engine.done == old(engine.done) && engine.store.View() == old(engine.store.View())
    ensures result.Ok? ==> old(engine.done) <= engine.done && |engine.done| == |old(engine.done)| + 1
    ensures result.Ok? ==>
              var c, before := l.gpus[r.gpu].currency, old(engine.store.View());
              && result.value.0 == |before.jobs|
              && (result.value.1.None? <==> Admissible(engine.cfg, l, before, r))
              && engine.store.View() == (if result.value.1.None?
                                         then Created(before, r.user, r.gpu, c, Quantize(Asked(l, r)))
                                         else RefusalRecorded(before, r.user, r.gpu, c, Quantize(Asked(l, r))))
              && (result.value.1.Some? ==> Explains(engine.cfg, l, before, r, result.value.1.value))
              && NoNewDrift(old(engine.Now()), engine.Now())
    ensures result.Ok? ==>
              var db, gpu, now := old(engine.store.View()), l.gpus[r.gpu], old(engine.store.clock.now);
              var reserved := match r.budget case Some(b) => Quantize(b)
                              case None => DefaultReservation(gpu.price, r.hours, l.startup);
              var accepted := result.value.1.None?;
              && engine.store.jobs
                   == db.jobs + [Job(r.user, r.gpu, gpu.currency, reserved, if accepted then Queued else Refused, now,
                                     None, if accepted then None else Some(now), None, None, 0, 0, None, None, false, 0)]
              && engine.store.ledger
                   == db.ledger + (if accepted && 0 < reserved
                                   then [Entry(Some(|db.jobs|), Some(r.user), gpu.currency, Reserve, reserved,
                                               db.clock.period, now, None)]
                                   else [])
  {
    hide Reached, After, CountQueued, NoNewDrift, Explains;
    ghost var w := engine.Now();
    var typo := ValidateRequest(l, r.gpu, r.hours, r.command);
    if typo.Some? {
      return Err(typo.value);
    }
    if r.user !in engine.cfg.accounts {
      return Err(UnknownUser);
    }
    var c := l.gpus[r.gpu].currency;
    var reserved := Asked(l, r);
    AskedRounds(l, r);
    var refusal := Check(engine, l, r, reserved);
    var id;
    if refusal.Some? {
      id := engine.Refuse(r.user, r.gpu, c, reserved);
    } else {
      AcceptedFits(engine.cfg.UserBudget(r.user, c),
                   UserCommitted(engine.store.View(), r.user, c, engine.store.clock.period), reserved);
      id := engine.Submit(r.user, r.gpu, c, reserved);
    }
    NewJobDrift(w, engine.Now());
    return Ok((id, refusal));
  }

  /** A job that has just been written down has no machine and is not between attempts. */
  lemma NewJobDrift(w: World, w': World)
    requires w'.machines == w.machines && |w'.db.jobs| == |w.db.jobs| + 1
    requires forall j :: 0 <= j < |w.db.jobs| ==> w'.db.jobs[j] == w.db.jobs[j]
    requires w'.db.jobs[|w.db.jobs|].state in {Queued, Refused}
    ensures NoNewDrift(w, w')
  {
    forall g | Recorded(w.db.jobs, g) ensures Recorded(w'.db.jobs, g) {
      var j :| 0 <= j < |w.db.jobs| && Holds(w.db.jobs, j, g);
      assert Holds(w'.db.jobs, j, g);
    }
    forall j | j in Lost(w') ensures j in Lost(w) {
      assert j < |w.db.jobs|;
    }
  }

  // ------------------------------------------------------------------ stopping

  /** The machine first, if anybody can reach it, and then the record. */
  function StopScript(cfg: Config, id: JobId, job: Job, to: JobState): seq<Effect> {
    (if Reachable(cfg, job) then [Terminate(job.place.value)] else [])
    + (if CanTransition(job.state, to) then [Stop(id, to, None)] else [])
  }

  function StopCut(cfg: Config, w: World, id: JobId, job: Job, to: JobState, k: nat): World {
    var stopped := if Reachable(cfg, job) && 0 < k then Apply(w, Terminate(job.place.value)) else w;
    var reached := if Reachable(cfg, job) then 2 else 1;
    if CanTransition(job.state, to) && reached <= k then Apply(stopped, Stop(id, to, None)) else stopped
  }

  lemma PlayTwo(w: World, d: Effect, e: Effect)
    ensures Play(w, [d]) == Apply(w, d) && Play(w, [d, e]) == Apply(Apply(w, d), e)
  {
    hide Apply;
    assert [d] == [] + [d] && [d, e] == [d] + [e];
    PlayOne(w, [], d);
    PlayOne(w, [d], e);
  }

  lemma PlayStop(cfg: Config, w: World, id: JobId, job: Job, to: JobState, k: nat)
    requires k <= |StopScript(cfg, id, job, to)|
    ensures Play(w, StopScript(cfg, id, job, to)[..k]) == StopCut(cfg, w, id, job, to, k)
  {
    hide Apply;
    var es := StopScript(cfg, id, job, to);
    if k == 0 {
      assert es[..k] == [];
    } else if k == 1 {
      assert es[..k] == [es[0]];
      PlayTwo(w, es[0], es[0]);
    } else {
      assert es[..k] == [es[0], es[1]];
      PlayTwo(w, es[0], es[1]);
    }
  }

  /** Whether a stop cut after `k` effects had ended the job. */
  predicate Ended(cfg: Config, job: Job, to: JobState, k: nat) {
    CanTransition(job.state, to) && (if Reachable(cfg, job) then 2 else 1) <= k
  }

  /** The machine a stop leaves up with no record naming it: one whose backend is no longer configured. */
  function LeftUp(cfg: Config, w: World, job: Job): set<Handle> {
    set h | h in w.machines && job.place == Some(h) && w.machines[h].live && !Reachable(cfg, job)
  }

  /** Exactly what a stop cut after `k` effects leaves, compared with what there was: the job is lost from the
      moment its machine is down until it is over, and its machine is orphaned if and only if the job is
      over, the machine was up and its backend is no longer configured. */
  ghost predicate StopLeaves(cfg: Config, w: World, w': World, id: JobId, to: JobState, k: nat)
    requires id < |w.db.jobs|
  {
    var job := w.db.jobs[id];
    if Ended(cfg, job, to, k) then
      && Orphans(w') == Orphans(w) + LeftUp(cfg, w, job)
      && Lost(w') == Lost(w) - {id} && Stranded(w') == Stranded(w) - {id}
    else
      && Orphans(w') == Orphans(w) && Stranded(w') == Stranded(w)
      && Lost(w') == Lost(w) + (if Reachable(cfg, job) && 1 <= k then {id} else {})
  }

  /** What a cut stop changed: the job once it is over, and its machine once that has been stopped. */
  ghost predicate StopChanges(cfg: Config, w: World, w': World, id: JobId, to: JobState, k: nat)
    requires id < |w.db.jobs|
  {
    var job := w.db.jobs[id];
    && |w'.db.jobs| == |w.db.jobs|
    && (forall j :: 0 <= j < |w.db.jobs| && j != id ==> w'.db.jobs[j] == w.db.jobs[j])
    && (if Ended(cfg, job, to, k) then w'.db.jobs[id].state == to && w'.db.jobs[id].place.None?
        else w'.db.jobs[id] == job)
    && w'.machines.Keys == w.machines.Keys
    && forall g :: g in w.machines ==>
         w'.machines[g] == (if Reachable(cfg, job) && 1 <= k && job.place == Some(g)
                            then w.machines[g].(live := false) else w.machines[g])
  }

  lemma EndChanges(w: World, id: JobId, to: JobState)
    requires id < |w.db.jobs| == |w.db.history|
    ensures var w' := Apply(w, Stop(id, to, None));
            && w'.machines == w.machines && w'.db.jobs == w.db.jobs[id := w'.db.jobs[id]]
            && w'.db.jobs[id].state == to && w'.db.jobs[id].place.None?
  {
    hide WritesOf, Written;
  }

  lemma TerminateChanges(w: World, h: Handle)
    requires h in w.machines
    ensures var w' := Apply(w, Terminate(h));
            w'.db == w.db && w'.machines == w.machines[h := w.machines[h].(live := false)]
  {
  }

  lemma StopCrash(cfg: Config, w: World, id: JobId, to: JobState, k: nat)
    requires PlacesKnown(w) && |w.db.history| == |w.db.jobs| && id < |w.db.jobs| && to in TERMINAL
    ensures StopLeaves(cfg, w, StopCut(cfg, w, id, w.db.jobs[id], to, k), id, to, k)
  {
    hide StopLeaves, Apply, CanTransition;
    var job, w' := w.db.jobs[id], StopCut(cfg, w, id, w.db.jobs[id], to, k);
    assert PlaceKnown(w, id);
    EndChanges(w, id, to);
    if Reachable(cfg, job) {
      TerminateChanges(w, job.place.value);
      EndChanges(Apply(w, Terminate(job.place.value)), id, to);
    }
    ChangesLeave(cfg, w, w', id, to, k);
  }

  lemma ChangesLeave(cfg: Config, w: World, w': World, id: JobId, to: JobState, k: nat)
    requires PlacesKnown(w) && id < |w.db.jobs| && to in TERMINAL && StopChanges(cfg, w, w', id, to, k)
    ensures StopLeaves(cfg, w, w', id, to, k)
  {
    hide Ended, Reachable, Recorded;
    var job := w.db.jobs[id];
    assert PlaceKnown(w, id);
    forall h ensures h in Orphans(w') <==> h in Orphans(w) || (Ended(cfg, job, to, k) && h in LeftUp(cfg, w, job)) {
      RecordedAfterStop(cfg, w, w', id, to, k, h);
      EndedReached(cfg, job, to, k);
    }
    forall j | 0 <= j < |w.db.jobs| && j != id
      ensures (j in Lost(w') <==> j in Lost(w)) && (j in Stranded(w') <==> j in Stranded(w))
    {
      assert PlaceKnown(w, j);
    }
    assert Stranded(w') == if Ended(cfg, job, to, k) then Stranded(w) - {id} else Stranded(w);
    if Ended(cfg, job, to, k) {
      assert id !in Lost(w');
      assert Lost(w') == Lost(w) - {id};
      assert Orphans(w') == Orphans(w) + LeftUp(cfg, w, job);
    } else {
      assert Orphans(w') == Orphans(w);
      EndedReached(cfg, job, to, k);
      assert id in Lost(w') <==> id in Lost(w) || (Reachable(cfg, job) && 1 <= k);
      assert Lost(w') == Lost(w) + (if Reachable(cfg, job) && 1 <= k then {id} else {});
    }
  }

  lemma EndedReached(cfg: Config, job: Job, to: JobState, k: nat)
    ensures Reachable(cfg, job) ==> job.place.Some?
    ensures Ended(cfg, job, to, k) ==> 1 <= k
  {
  }

  lemma RecordedAfterStop(cfg: Config, w: World, w': World, id: JobId, to: JobState, k: nat, h: Handle)
    requires PlacesKnown(w) && id < |w.db.jobs| && to in TERMINAL && StopChanges(cfg, w, w', id, to, k)
    ensures Recorded(w'.db.jobs, h)
       <==> Recorded(w.db.jobs, h) && !(Ended(cfg, w.db.jobs[id], to, k) && w.db.jobs[id].place == Some(h))
    ensures w.db.jobs[id].place == Some(h) ==> Recorded(w.db.jobs, h)
  {
    hide Ended, Reachable;
    assert PlaceKnown(w, id);
    if w.db.jobs[id].place == Some(h) {
      assert Holds(w.db.jobs, id, h);
    }
    forall j | 0 <= j < |w.db.jobs|
      ensures Holds(w'.db.jobs, j, h)
         <==> (Holds(w.db.jobs, j, h))
              && !(Ended(cfg, w.db.jobs[id], to, k) && w.db.jobs[id].place == Some(h))
    {
      assert PlaceKnown(w, j);
    }
  }

  /** So a cut stop drifts by at most one thing. */
  lemma StopIsSafe(cfg: Config, w: World, w': World, id: JobId, to: JobState, k: nat)
    requires id < |w.db.jobs| && StopLeaves(cfg, w, w', id, to, k)
    ensures CutSafe(w, w')
    ensures Ended(cfg, w.db.jobs[id], to, k) && LeftUp(cfg, w, w.db.jobs[id]) == {} ==> NoNewDrift(w, w')
  {
    hide Lost, Orphans, Stranded;
    var job := w.db.jobs[id];
    if Ended(cfg, job, to, k) && job.place.Some? {
      assert LeftUp(cfg, w, job) <= {job.place.value};
      assert DriftOfMachine(w, w', job.place.value);
    } else {
      assert DriftOfJob(w, w', id);
    }
  }

  lemma StopCuts(cfg: Config, done: seq<Effect>, id: JobId, to: JobState)
    requires Reached(cfg, done) && id < |After(done).db.jobs| && to in TERMINAL
    ensures var w := After(done); var job := w.db.jobs[id]; var es := StopScript(cfg, id, job, to);
            && CutsSafe(w, done + es, |done|)
            && forall k :: 0 <= k <= |es| ==> StopLeaves(cfg, w, After(done + es[..k]), id, to, k)
  {
    hide StopLeaves, CutSafe, Reached, StopScript;
    var w := After(done);
    var job, es := w.db.jobs[id], StopScript(cfg, id, w.db.jobs[id], to);
    ReachedIsGood(cfg, done);
    NothingYet(done);
    forall k | 0 <= k <= |es|
      ensures CutSafe(w, Play(w, es[..k])) && StopLeaves(cfg, w, After(done + es[..k]), id, to, k)
    {
      PlayStop(cfg, w, id, job, to, k);
      StopCrash(cfg, w, id, to, k);
      StopIsSafe(cfg, w, Play(w, es[..k]), id, to, k);
      PlayConcat(EMPTY, done, es[..k]);
    }
    CutsExtend(w, done, |done|, es);
  }

  lemma WholeStop(cfg: Config, job: Job, id: JobId, to: JobState)
    ensures var es := StopScript(cfg, id, job, to);
            es[..|es|] == es && (CanTransition(job.state, to) <==> Ended(cfg, job, to, |es|))
  {
  }

  /** The last part of `cancel` and all of `_reclaim_one`: first the machine is stopped, then the job
      ended, which returns what is left of its hold. It raises when the job's state has no such edge,
      and by then the machine is already stopped. A stop that returns orphans the job's machine
      if and only if that machine was up and its backend is no longer configured. */
  method StopJob(engine: Engine, id: JobId, to: JobState) returns (r: Result<(), IllegalTransition>)
    requires engine.Valid() && id < |engine.store.jobs| && to in {Cancelled, Reclaimed}
    modifies engine, engine.store, engine.fleet
    ensures engine.Valid()
    ensures r.Ok? <==> CanTransition(old(engine.store.jobs[id].state), to)
    ensures engine.done == old(engine.done) + StopScript(engine.cfg, id, old(engine.store.jobs[id]), to)
    ensures CutsSafe(old(engine.Now()), engine.done, old(|engine.done|))
    ensures r.Ok? ==>
              && Orphans(engine.Now()) == old(Orphans(engine.Now()))
                                          + old(LeftUp(engine.cfg, engine.Now(), engine.store.jobs[id]))
              && Lost(engine.Now()) == old(Lost(engine.Now())) - {id}
              && Stranded(engine.Now()) == old(Stranded(engine.Now())) - {id}
    ensures r.Ok? ==>
              engine.store.jobs == old(engine.store.jobs)[id := old(engine.store.jobs[id]).(
                                     state := to, place := None, finishedAt := Some(old(engine.store.clock.now)))]
    ensures r.Ok? ==>
              && |engine.store.jobs| == old(|engine.store.jobs|) && engine.store.jobs[id].state == to
              && engine.store.jobs[id].place.None? && JobHold(engine.store.View(), id) == 0
              && Spent(engine.store.ledger, OfJobAnyCurrency(id)) == old(Spent(engine.store.ledger, OfJobAnyCurrency(id)))
  {
    hide Reached, CutsSafe, JobHold, Play, Ended, Lost, Orphans, Stranded, LeftUp, MayDispatch, WritesOf, Written, Spent;
    StopCuts(engine.cfg, engine.done, id, to);
    ghost var w, start := engine.Now(), engine.done;
    var job := engine.store.jobs[id];
    WholeStop(engine.cfg, job, id, to);
    if job.place.Some? && job.place.value.backend in engine.cfg.backends {
      engine.Terminate(job.place.value);
    }
    ghost var db := engine.store.View();
    r := engine.Move(id, to, None, None, true);
    assert engine.done == start + StopScript(engine.cfg, id, job, to);
    assert StopLeaves(engine.cfg, w, engine.Now(), id, to, |StopScript(engine.cfg, id, job, to)|);
    if r.Ok? {
      EndedHoldsNothing(engine, id, db, to);
    }
  }

  lemma EndedHoldsNothing(engine: Engine, id: JobId, db: Db, to: JobState)
    requires engine.Valid() && id < |db.jobs| == |db.history| && to in TERMINAL
    requires engine.store.View() == Transitioned(db, id, db.jobs[id], to, None, None, true, [])
    ensures JobHold(engine.store.View(), id) == 0
    ensures Spent(engine.store.ledger, OfJobAnyCurrency(id)) == Spent(db.ledger, OfJobAnyCurrency(id))
  {
    engine.Good();
    assert JobBalances(engine.store.View(), id);
    MoveLedger(db, Stop(id, to, None));
    var job := db.jobs[id];
    var row := RowFor(db, id, job, LedgerWrite(Release, JobHold(db, id), job.currency));
    TotalAppend(db.ledger, row, OfJobAnyCurrency(id), Settle);
    TotalAppend(db.ledger, row, OfJobAnyCurrency(id), Abandoned);
  }

  datatype CancelError = UnknownJob | Unauthorized | AlreadyOver | Illegal(error: IllegalTransition)

  /** Owners cancel their own jobs, officers anybody's, and a caller that names no actor is the broker itself. */
  predicate MayCancel(owner: UserId, actor: Option<UserId>, admin: bool, officers: set<UserId>) {
    actor.None? || actor.value == owner || admin || actor.value in officers
  }

  /** `cancel`. It never ends in an IllegalTransition: every state a job can be in, short of the terminal ones,
      has the edge to CANCELLED. */
  method Cancel(engine: Engine, id: JobId, actor: Option<UserId>, admin: bool, officers: set<UserId>)
    returns (r: Result<(), CancelError>)
    requires engine.Valid()
    modifies engine, engine.store, engine.fleet
    ensures engine.Valid() && CutsSafe(old(engine.Now()), engine.done, old(|engine.done|))
    ensures r == Err(UnknownJob) <==> id >= old(|engine.store.jobs|)
    ensures id < old(|engine.store.jobs|) ==>
              var job := old(engine.store.jobs[id]);
              && (r == Err(Unauthorized) <==> !MayCancel(job.user, actor, admin, officers))
              && (r == Err(AlreadyOver) <==> MayCancel(job.user, actor, admin, officers) && job.state in TERMINAL)
              && (r.Ok? <==> MayCancel(job.user, actor, admin, officers) && job.state !in TERMINAL)
              && (actor == None || actor == Some(job.user) || admin || actor.value in officers ==>
                    r != Err(Unauthorized))
              && (actor.Some? && actor.value != job.user && !admin && actor.value !in officers ==>
                    r == Err(Unauthorized))
    ensures r.Err? ==> engine.done == old(engine.done)
    ensures r.Ok? ==> engine.done == old(engine.done) + StopScript(engine.cfg, id, old(engine.store.jobs[id]), Cancelled)
    ensures r.Ok? ==>
              && Orphans(engine.Now()) == old(Orphans(engine.Now()))
                                          + old(LeftUp(engine.cfg, engine.Now(), engine.store.jobs[id]))
              && Lost(engine.Now()) == old(Lost(engine.Now())) - {id}
              && Stranded(engine.Now()) == old(Stranded(engine.Now())) - {id}
    ensures r.Ok? ==>
              && |engine.store.jobs| == old(|engine.store.jobs|) && engine.store.jobs[id].state == Cancelled
              && engine.store.jobs[id].place.None? && JobHold(engine.store.View(), id) == 0
              && Spent(engine.store.ledger, OfJobAnyCurrency(id)) == old(Spent(engine.store.ledger, OfJobAnyCurrency(id)))
  {
    hide Reached, CutsSafe, NoNewDrift, JobHold, Play, StopScript, Orphans, Lost, Stranded, LeftUp;
    NothingYet(engine.done);
    if id >= |engine.store.jobs| {
      return Err(UnknownJob);
    }
    var job := engine.store.jobs[id];
    if actor.Some? && actor.value != job.user && !admin && actor.value !in officers {
      return Err(Unauthorized);
    }
    if job.state in TERMINAL {
      return Err(AlreadyOver);
    }
    Lifetimes.ReachedCancels(engine.cfg, engine.done, id);
    var stopped := StopJob(engine, id, Cancelled);
    match stopped
    case Ok(_) => return Ok(());
    case Err(e) => return Err(Illegal(e));
  }
}
