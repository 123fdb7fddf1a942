/** The durable surface everything else works through: the tables and the machines, one effect at a time.

    `done` records every effect ever committed. `Valid` says that they make up a run of the world
    from its empty state, and that this run has led to the tables and machines as they are now,
    so every theorem about runs holds of every state these objects have been in. */
module Engine {
  import opened Wrappers
  import opened Money
  import opened States
  import opened Ledger
  import opened Tables
  import opened History
  import opened World
  import opened Books
  import opened Theorems
  import opened Advance
  import opened Store

  // ----------------------------------------------------------------- effect lists

  /** The world a list of effects leads to from nothing. */
  function After(done: seq<Effect>): World {
    Play(EMPTY, done)
  }

  /** Every effect was enabled when it was committed. */
  ghost predicate Reached(cfg: Config, done: seq<Effect>) {
    forall k :: 0 <= k < |done| ==> Enabled(cfg, After(done[..k]), done[k])
  }

  function RunOf(done: seq<Effect>): Run {
    Run(seq(|done| + 1, k requires 0 <= k <= |done| => After(done[..k])), done)
  }

  lemma ReachedIsFreshRun(cfg: Config, done: seq<Effect>)
    requires Reached(cfg, done)
    ensures FreshRun(cfg, RunOf(done)) && RunOf(done).states[|done|] == After(done)
  {
    hide Apply, Enabled;
    var run := RunOf(done);
    forall k | 0 <= k < |done|
      ensures Enabled(cfg, run.states[k], done[k]) && run.states[k + 1] == Apply(run.states[k], done[k])
    {
      assert done[..k + 1] == done[..k] + [done[k]];
      PlayOne(EMPTY, done[..k], done[k]);
    }
    assert done[..0] == [] && done[..|done|] == done;
  }

  lemma ReachedIsGood(cfg: Config, done: seq<Effect>)
    requires Reached(cfg, done)
    ensures Inv(cfg, After(done))
  {
    ReachedIsFreshRun(cfg, done);
    EveryStateIsGood(cfg, RunOf(done), |done|);
  }

  lemma ReachesOneMore(cfg: Config, done: seq<Effect>, e: Effect)
    requires Reached(cfg, done) && Enabled(cfg, After(done), e)
    ensures Reached(cfg, done + [e]) && After(done + [e]) == Apply(After(done), e)
  {
    hide Apply, Enabled;
    PlayOne(EMPTY, done, e);
    var more := done + [e];
    forall k | 0 <= k < |more| ensures Enabled(cfg, After(more[..k]), more[k]) {
      if k < |done| {
        assert more[..k] == done[..k];
      } else {
        assert more[..k] == done;
      }
    }
  }

  /** Whatever the broker has done so far, and wherever in it a crash falls: the pool owes no more than its
      budget, no user owes more than theirs in any period, every job's money adds up, and every log is legal. */
  lemma BooksHoldThroughout(cfg: Config, done: seq<Effect>, k: nat)
    requires Reached(cfg, done) && k <= |done|
    ensures var db := After(done[..k]).db;
            && (forall c: Currency :: 0.0 <= cfg.PoolBudget(c) ==> PoolOwed(db, c) as real <= cfg.PoolBudget(c))
            && (forall u: UserId, c: Currency, p: Period :: 0.0 <= cfg.UserBudget(u, c) ==>
                  UserOwed(db, u, c, p) <= Quantize(cfg.UserBudget(u, c)))
            && (forall j :: 0 <= j < |db.jobs| ==>
                  JobBalances(db, j) && j < |db.history| && LegalLog(db.history[j], db.jobs[j].state))
  {
    ReachedIsFreshRun(cfg, done);
    var run := RunOf(done);
    var db := After(done[..k]).db;
    assert run.states[k].db == db;
    EveryStateIsGood(cfg, run, k);
    forall c: Currency | 0.0 <= cfg.PoolBudget(c) ensures PoolOwed(db, c) as real <= cfg.PoolBudget(c) {
      PoolCap(cfg, run, k, c);
    }
    forall u: UserId, c: Currency, p: Period | 0.0 <= cfg.UserBudget(u, c)
      ensures UserOwed(db, u, c, p) <= Quantize(cfg.UserBudget(u, c))
    {
      UserBudget(cfg, run, k, u, c, p);
    }
    forall j | 0 <= j < |db.jobs|
      ensures JobBalances(db, j) && j < |db.history| && LegalLog(db.history[j], db.jobs[j].state)
    {
      assert JobBalances(db, j);
      LegalHistory(cfg, run, k, j);
    }
  }

  // --------------------------------------------------------------------- machines

  /** Every machine every backend ever launched, by its last use of the name. */
  class Fleet {
    var machines: map<Handle, Machine>

    constructor ()
      ensures machines == map[]
    {
      machines := map[];
    }

    /** A launch gives a machine tagged with the job, under a name that is free, or fails and leaves
        nothing behind. */
    method LaunchOn(b: BackendId, id: JobId) returns (r: Option<Handle>)
      modifies this
      ensures r.None? ==> machines == old(machines)
      ensures r.Some? ==> r.value.backend == b && NameFree(old(machines), r.value, id)
                          && machines == old(machines)[r.value := Machine(Some(id), true)]
    {
      var fails: bool := *;
      var name: nat := *;
      var h := Handle(b, name);
      if fails || (h in machines && machines[h] != Machine(Some(id), false)) {
        return None;
      }
      machines := machines[h := Machine(Some(id), true)];
      return Some(h);
    }

    /** Safe on a machine that is already down, or that nobody knows. */
    method Terminate(h: Handle)
      modifies this`machines
      ensures machines == if h in old(machines) then old(machines)[h := old(machines)[h].(live := false)]
                          else old(machines)
    {
      if h in machines {
        machines := machines[h := machines[h].(live := false)];
      }
    }
  }

  // ------------------------------------------------------------------------ engine

  class Engine {
    const store: Store
    const fleet: Fleet
    const cfg: Config
    ghost var done: seq<Effect>

    ghost function Now(): World
      reads store, fleet
    {
      World(store.View(), fleet.machines)
    }

    ghost predicate Valid()
      reads this, store, fleet
    {
      && store.Valid()
      && Reached(cfg, done) && After(done) == Now()
    }

    constructor (cfg: Config)
      ensures Valid() && done == [] && this.cfg == cfg
      ensures fresh(store) && fresh(fleet)
    {
      this.cfg := cfg;
      store := new Store();
      fleet := new Fleet();
      done := [];
    }

    lemma Good()
      requires Valid()
      ensures Inv(cfg, Now())
    {
      ReachedIsGood(cfg, done);
    }

    ghost method Commit(before: World, e: Effect)
      requires store.Valid()
      requires Reached(cfg, done) && After(done) == before && Enabled(cfg, before, e)
      requires Now() == Apply(before, e)
      modifies this`done
      ensures Valid() && done == old(done) + [e]
    {
      ReachesOneMore(cfg, done, e);
      done := done + [e];
    }

    method Elapse(moment: Clock)
      requires Valid() && store.clock.now <= moment.now && store.clock.period <= moment.period
      modifies this, store
      ensures Valid() && done == old(done) + [Effect.Elapse(moment)]
      ensures store.View() == old(store.View()).(clock := moment)
    {
      ghost var before := Now();
      store.Elapse(moment);
      Commit(before, Effect.Elapse(moment));
    }

    method Submit(user: UserId, gpu: GpuType, currency: Currency, reserved: real) returns (id: JobId)
      requires Valid()
      requires Enabled(cfg, Now(), Effect.Submit(user, gpu, currency, Quantize(reserved)))
      modifies this, store
      ensures Valid() && id == old(|store.jobs|)
      ensures done == old(done) + [Effect.Submit(user, gpu, currency, Quantize(reserved))]
      ensures store.View() == Created(old(store.View()), user, gpu, currency, Quantize(reserved))
    {
      ghost var before := Now();
      id := store.CreateJob(user, gpu, currency, reserved);
      Commit(before, Effect.Submit(user, gpu, currency, Quantize(reserved)));
    }

    method Refuse(user: UserId, gpu: GpuType, currency: Currency, reserved: real) returns (id: JobId)
      requires Valid()
      modifies this, store
      ensures Valid() && id == old(|store.jobs|)
      ensures done == old(done) + [Effect.Refuse(user, gpu, currency, Quantize(reserved))]
      ensures store.View() == RefusalRecorded(old(store.View()), user, gpu, currency, Quantize(reserved))
    {
      ghost var before := Now();
      id := store.RecordRefusal(user, gpu, currency, reserved);
      Commit(before, Effect.Refuse(user, gpu, currency, Quantize(reserved)));
    }

    method Accrue(id: JobId, amount: int)
      requires Valid() && Enabled(cfg, Now(), Effect.Accrue(id, amount))
      modifies this, store
      ensures Valid() && done == old(done) + [Effect.Accrue(id, amount)]
      ensures store.View() == SettledFor(old(store.View()), id, amount)
    {
      ghost var before := Now();
      store.Settle(id, amount);
      Commit(before, Effect.Accrue(id, amount));
    }

    method Annotate(id: JobId, note: Note)
      requires Valid() && id < |store.jobs|
      modifies this, store
      ensures Valid() && done == old(done) + [Effect.Annotate(id, note)]
      ensures store.View() == Noted(old(store.View()), id, note)
    {
      ghost var before := Now();
      store.Annotate(id, note);
      Commit(before, Effect.Annotate(id, note));
    }

    /** Moves the job from the state it is in now, or raises and changes nothing. */
    method Move(id: JobId, to: JobState, place: Option<Handle>, exit: Option<int>, clear: bool)
      returns (r: Result<(), IllegalTransition>)
      requires Valid() && id < |store.jobs|
      requires CanTransition(store.jobs[id].state, to) ==> Enabled(cfg, Now(), Effect.Move(id, to, place, exit, clear))
      modifies this, store
      ensures Valid()
      ensures r.Ok? <==> CanTransition(old(store.jobs[id].state), to)
      ensures r.Err? ==> done == old(done) && store.View() == old(store.View())
      ensures r.Ok? ==> done == old(done) + [Effect.Move(id, to, place, exit, clear)]
      ensures r.Ok? ==> store.View() == Transitioned(old(store.View()), id, old(store.jobs[id]), to, place, exit, clear, [])
    {
      ghost var before := Now();
      var moved := store.Transition(id, store.jobs[id], to, place, exit, clear, []);
      if moved.Err? {
        return Err(moved.error);
      }
      Commit(before, Effect.Move(id, to, place, exit, clear));
      return Ok(());
    }

    method SetSuspended(users: set<UserId>)
      requires Valid()
      modifies this, store
      ensures Valid() && done == old(done) + [Effect.SetSuspended(users)]
      ensures store.View() == old(store.View()).(suspended := users)
    {
      ghost var before := Now();
      store.SetSuspended(users);
      Commit(before, Effect.SetSuspended(users));
    }

    /** Charges the part of a machine's cost that its name does not carry yet; nothing to charge is no effect. */
    method Abandon(h: Handle, tag: Option<JobId>, user: Option<UserId>, currency: Currency, burned: real)
      returns (delta: int)
      requires Valid()
      modifies this, store
      ensures Valid() && 0 <= delta
      ensures var known := if tag.Some? && tag.value < old(|store.jobs|) then tag else None;
              done == old(done) + (if delta == 0 then [] else [Effect.Abandon(h, known, user, currency, delta)])
      ensures store.View() == Charged(old(store.View()), h,
                                      if tag.Some? && tag.value < old(|store.jobs|) then tag else None,
                                      user, currency, delta)
      ensures 0 <= old(Total(store.ledger, OfMachine(h.serial, currency), Abandoned)) ==>
                Total(store.ledger, OfMachine(h.serial, currency), Abandoned)
                  == (if old(Total(store.ledger, OfMachine(h.serial, currency), Abandoned)) < Quantize(burned)
                      then Quantize(burned)
                      else old(Total(store.ledger, OfMachine(h.serial, currency), Abandoned)))
    {
      ghost var before := Now();
      var known := if tag.Some? && tag.value < |store.jobs| then tag else None;
      delta := store.RecordAbandoned(h, tag, user, currency, burned);
      if 0 < delta {
        Commit(before, Effect.Abandon(h, known, user, currency, delta));
      }
    }

    method Launch(b: BackendId, id: JobId) returns (r: Option<Handle>)
      requires Valid() && id < |store.jobs|
      modifies this, fleet
      ensures Valid()
      ensures r.None? ==> done == old(done) && fleet.machines == old(fleet.machines)
      ensures r.Some? ==> r.value.backend == b && NameFree(old(fleet.machines), r.value, id)
      ensures r.Some? ==> done == old(done) + [Effect.Launch(r.value, id)]
                          && fleet.machines == old(fleet.machines)[r.value := Machine(Some(id), true)]
    {
      ghost var before := Now();
      r := fleet.LaunchOn(b, id);
      if r.Some? {
        Commit(before, Effect.Launch(r.value, id));
      }
    }

    method Terminate(h: Handle)
      requires Valid()
      modifies this, fleet
      ensures Valid() && done == old(done) + [Effect.Terminate(h)]
      ensures fleet.machines == (if h in old(fleet.machines)
                                 then old(fleet.machines)[h := old(fleet.machines)[h].(live := false)]
                                 else old(fleet.machines))
    {
      ghost var before := Now();
      fleet.Terminate(h);
      Commit(before, Effect.Terminate(h));
    }
  }
}
