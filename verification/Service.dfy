/** The broker over any sequence of whole calls: what drifts, and what a crash in the middle of any of them leaves. */
module Service {
  import opened Wrappers
  import opened Money
  import opened States
  import opened Ledger
  import opened Tables
  import opened World
  import opened Books
  import opened Admission
  import opened Advance
  import opened Engine
  import opened Drift
  import opened Dispatch
  import Broker
  import Reconcile
  import Tick

  datatype Call =
    | Tick
    | Submit(request: Broker.Request)
    | Cancel(id: JobId, actor: Option<UserId>, admin: bool, officers: set<UserId>)
    | Reclaim(id: JobId)
    | Reap(leaks: seq<Reconcile.Leak>)
    | Suspend(users: set<UserId>)
    | Wait(moment: Clock)

  /** What the broker is configured with. */
  datatype Setup = Setup(policy: Policy, limits: Limits, price: GpuType -> real)

  // ------------------------------------------------------------------- drift so far

  /** Compared with `w`, nothing has drifted but these jobs, which ticks raised on, and these machines, whose jobs
      were stopped while their backend was not configured. */
  ghost predicate Within(w: World, w': World, raised: set<JobId>, left: set<Handle>) {
    Orphans(w') <= Orphans(w) + left && Lost(w') <= Lost(w) + raised && Stranded(w') <= Stranded(w)
  }

  /** The same, and at most one thing more. */
  ghost predicate OneMore(w: World, w': World, raised: set<JobId>, left: set<Handle>) {
    || (exists id: JobId :: && Orphans(w') <= Orphans(w) + left && Lost(w') <= Lost(w) + raised + {id}
                            && Stranded(w') <= Stranded(w) + {id})
    || (exists h: Handle :: && Orphans(w') <= Orphans(w) + left + {h} && Lost(w') <= Lost(w) + raised
                            && Stranded(w') <= Stranded(w))
  }

  /** Wherever the effects from the `n`th on are cut, at most one thing more has drifted. */
  ghost predicate CutsWithin(w: World, done: seq<Effect>, n: nat, raised: set<JobId>, left: set<Handle>) {
    n <= |done| && forall k :: n <= k <= |done| ==> OneMore(w, After(done[..k]), raised, left)
  }

  lemma CutAfter(w: World, w': World, w'': World, raised: set<JobId>, left: set<Handle>)
    requires Within(w, w', raised, left) && CutSafe(w', w'')
    ensures OneMore(w, w'', raised, left)
  {
    hide Orphans, Lost, Stranded;
    if id: JobId :| DriftOfJob(w', w'', id) {
      assert Orphans(w'') <= Orphans(w) + left && Lost(w'') <= Lost(w) + raised + {id}
             && Stranded(w'') <= Stranded(w) + {id};
    } else {
      var h: Handle :| DriftOfMachine(w', w'', h);
      assert Orphans(w'') <= Orphans(w) + left + {h} && Lost(w'') <= Lost(w) + raised && Stranded(w'') <= Stranded(w);
    }
  }

  lemma MoreRaised(w: World, w': World, raised: set<JobId>, left: set<Handle>, raised': set<JobId>, left': set<Handle>)
    requires OneMore(w, w', raised, left) && raised <= raised' && left <= left'
    ensures OneMore(w, w', raised', left')
  {
    hide Orphans, Lost, Stranded;
    if id: JobId :| Orphans(w') <= Orphans(w) + left && Lost(w') <= Lost(w) + raised + {id}
                    && Stranded(w') <= Stranded(w) + {id} {
      assert Orphans(w') <= Orphans(w) + left' && Lost(w') <= Lost(w) + raised' + {id}
             && Stranded(w') <= Stranded(w) + {id};
    } else {
      var h: Handle :| Orphans(w') <= Orphans(w) + left + {h} && Lost(w') <= Lost(w) + raised
                       && Stranded(w') <= Stranded(w);
      assert Orphans(w') <= Orphans(w) + left' + {h} && Lost(w') <= Lost(w) + raised' && Stranded(w') <= Stranded(w);
    }
  }

  /** One more call, itself safe wherever it is cut, may follow. */
  lemma CallFollows(w: World, done: seq<Effect>, more: seq<Effect>, n: nat, raised: set<JobId>, left: set<Handle>,
                    raised': set<JobId>, left': set<Handle>)
    requires CutsWithin(w, done, n, raised, left) && Within(w, After(done), raised, left)
    requires done <= more && CutsSafe(After(done), more, |done|) && raised <= raised' && left <= left'
    ensures CutsWithin(w, more, n, raised', left')
  {
    hide Orphans, Lost, Stranded, After, CutSafe, OneMore, Within;
    forall k | n <= k <= |more| ensures OneMore(w, After(more[..k]), raised', left') {
      if k <= |done| {
        assert more[..k] == done[..k];
        MoreRaised(w, After(more[..k]), raised, left, raised', left');
      } else {
        CutAfter(w, After(done), After(more[..k]), raised, left);
        MoreRaised(w, After(more[..k]), raised, left, raised', left');
      }
    }
  }

  lemma AddsUp(w: World, w': World, w'': World, raised: set<JobId>, left: set<Handle>, r: set<JobId>, h: set<Handle>)
    requires Within(w, w', raised, left) && Within(w', w'', r, h)
    ensures Within(w, w'', raised + r, left + h)
  {
    hide Orphans, Lost, Stranded;
  }

  lemma FromTheStart(done: seq<Effect>)
    ensures CutsWithin(After(done), done, |done|, {}, {}) && Within(After(done), After(done), {}, {})
  {
    hide Orphans, Lost, Stranded, After;
    NothingYet(done);
    assert done[..|done|] == done;
    assert OneMore(After(done), After(done), {}, {}) by {
      assert Within(After(done), After(done), {}, {}) && CutSafe(After(done), After(done));
      CutAfter(After(done), After(done), After(done), {}, {});
    }
  }

  // ------------------------------------------------------------------------ one call

  /** Nothing the records or the machines say has changed. */
  lemma Unmoved(w: World, w': World)
    requires w'.db.jobs == w.db.jobs && w'.machines == w.machines
    ensures Within(w, w', {}, {})
  {
    SameDrift(w, w');
  }

  /** One effect that changes neither the records nor the machines cannot be cut badly. */
  lemma OneQuietEffect(done: seq<Effect>, e: Effect)
    requires After(done + [e]).db.jobs == After(done).db.jobs && After(done + [e]).machines == After(done).machines
    ensures CutsSafe(After(done), done + [e], |done|)
  {
    hide After;
    SameDrift(After(done), After(done + [e]));
    forall k | |done| <= k <= |done| + 1 ensures CutSafe(After(done), After((done + [e])[..k])) {
      if k == |done| {
        assert (done + [e])[..k] == done;
      } else {
        assert (done + [e])[..k] == done + [e];
      }
      assert DriftOfJob(After(done), After((done + [e])[..k]), 0);
    }
  }

  lemma {:induction false} ChargesMoveNothing(done: seq<Effect>, more: seq<Effect>)
    requires done <= more && forall k :: |done| <= k < |more| ==> more[k].Abandon?
    ensures After(more).db.jobs == After(done).db.jobs && After(more).machines == After(done).machines
    decreases |more|
  {
    if |done| == |more| {
      assert more == done;
    } else {
      var n := |more| - 1;
      assert more[..n][..|done|] == done && more == more[..n] + [more[n]];
      ChargesMoveNothing(done, more[..n]);
      PlayOne(EMPTY, more[..n], more[n]);
    }
  }

  lemma ChargesAreSafe(done: seq<Effect>, more: seq<Effect>)
    requires done <= more && forall k :: |done| <= k < |more| ==> more[k].Abandon?
    ensures CutsSafe(After(done), more, |done|) && Within(After(done), After(more), {}, {})
  {
    hide After;
    ChargesMoveNothing(done, more);
    Unmoved(After(done), After(more));
    forall k | |done| <= k <= |more| ensures CutSafe(After(done), After(more[..k])) {
      ChargesMoveNothing(done, more[..k]);
      SameDrift(After(done), After(more[..k]));
      assert DriftOfJob(After(done), After(more[..k]), 0);
    }
  }

  /** A submission is one effect, or none. */
  lemma SubmissionIsSafe(done: seq<Effect>, more: seq<Effect>)
    requires more == done || (|more| == |done| + 1 && more[..|done|] == done)
    requires NoNewDrift(After(done), After(more))
    ensures CutsSafe(After(done), more, |done|) && Within(After(done), After(more), {}, {})
  {
    hide After, Orphans, Lost, Stranded;
    forall k | |done| <= k <= |more| ensures CutSafe(After(done), After(more[..k])) {
      if k == |done| {
        assert more[..k] == done;
        assert DriftOfJob(After(done), After(more[..k]), 0);
      } else {
        assert more[..k] == more;
        assert DriftOfJob(After(done), After(more[..k]), 0);
      }
    }
  }

  /** A job restoring a checkpoint, which nobody has asked to cancel. */
  predicate Restoring(w: World, j: JobId) {
    j < |w.db.jobs| && Tick.MayRaise(w.db.jobs[j])
  }

  /** A tick: the job it raised on, if it raised. */
  method DoTick(engine: Engine, s: Setup) returns (ghost raised: set<JobId>)
    requires engine.Valid() && Usable(s.policy)
    modifies engine, engine.store, engine.fleet
    ensures engine.Valid() && old(engine.done) <= engine.done
    ensures CutsSafe(old(engine.Now()), engine.done, |old(engine.done)|)
    ensures Within(old(engine.Now()), engine.Now(), raised, {})
    ensures forall j :: j in raised ==> Restoring(old(engine.Now()), j)
  {
    hide Tick.Reported, CutsSafe, Orphans, Lost, Stranded, Reached, After;
    var r, _, _, _ := Tick.RunTick(engine, s.policy, s.price);
    raised := if r.Ok? then {} else {r.error};
  }

  /** Stopping a job: the machine that stays up, if one does. */
  method DoStop(engine: Engine, id: JobId, to: JobState) returns (ghost left: set<Handle>)
    requires engine.Valid() && id < |engine.store.jobs| && to in {Cancelled, Reclaimed}
    requires CanTransition(engine.store.jobs[id].state, to)
    modifies engine, engine.store, engine.fleet
    ensures engine.Valid() && old(engine.done) <= engine.done
    ensures CutsSafe(old(engine.Now()), engine.done, |old(engine.done)|)
    ensures Within(old(engine.Now()), engine.Now(), {}, left)
    ensures left == old(Broker.LeftUp(engine.cfg, engine.Now(), engine.store.jobs[id]))
  {
    hide CutsSafe, Orphans, Lost, Stranded, Reached, After, Broker.LeftUp, Broker.StopScript;
    left := Broker.LeftUp(engine.cfg, engine.Now(), engine.store.jobs[id]);
    var _ := Broker.StopJob(engine, id, to);
  }

  /** `cancel`, as anybody may ask for it. */
  method DoCancel(engine: Engine, id: JobId, actor: Option<UserId>, admin: bool, officers: set<UserId>)
    returns (ghost left: set<Handle>)
    requires engine.Valid()
    modifies engine, engine.store, engine.fleet
    ensures engine.Valid() && old(engine.done) <= engine.done
    ensures CutsSafe(old(engine.Now()), engine.done, |old(engine.done)|)
    ensures Within(old(engine.Now()), engine.Now(), {}, left)
    ensures left <= Stays(old(engine.Now()), engine.cfg, id)
  {
    hide CutsSafe, Orphans, Lost, Stranded, Reached, After, Broker.LeftUp, Broker.StopScript;
    ghost var w := engine.Now();
    left := Stays(w, engine.cfg, id);
    var r := Broker.Cancel(engine, id, actor, admin, officers);
    if r.Err? {
      left := {};
    }
  }

  /** The machine of this job that a stop could not reach. */
  ghost function Stays(w: World, cfg: Config, id: JobId): set<Handle> {
    if id < |w.db.jobs| then Broker.LeftUp(cfg, w, w.db.jobs[id]) else {}
  }

  method DoSubmit(engine: Engine, s: Setup, request: Broker.Request)
    requires engine.Valid()
    modifies engine, engine.store
    ensures engine.Valid() && old(engine.done) <= engine.done
    ensures CutsSafe(old(engine.Now()), engine.done, |old(engine.done)|)
    ensures Within(old(engine.Now()), engine.Now(), {}, {})
  {
    hide CutsSafe, Orphans, Lost, Stranded, Reached, After, Broker.Explains, Broker.Admissible;
    ghost var done := engine.done;
    var _ := Broker.SubmitJob(engine, s.limits, request);
    SubmissionIsSafe(done, engine.done);
  }

  method DoReap(engine: Engine, leaks: seq<Reconcile.Leak>)
    requires engine.Valid()
    modifies engine, engine.store
    ensures engine.Valid() && old(engine.done) <= engine.done
    ensures CutsSafe(old(engine.Now()), engine.done, |old(engine.done)|)
    ensures Within(old(engine.Now()), engine.Now(), {}, {})
  {
    hide CutsSafe, Orphans, Lost, Stranded, Reached, After, Reconcile.ChargedUpTo;
    ghost var done := engine.done;
    Reconcile.Reap(engine, leaks);
    ChargesAreSafe(done, engine.done);
  }

  method DoSuspend(engine: Engine, users: set<UserId>)
    requires engine.Valid()
    modifies engine, engine.store
    ensures engine.Valid() && old(engine.done) <= engine.done
    ensures CutsSafe(old(engine.Now()), engine.done, |old(engine.done)|)
    ensures Within(old(engine.Now()), engine.Now(), {}, {})
  {
    hide CutsSafe, Orphans, Lost, Stranded, Reached, After;
    ghost var done, w := engine.done, engine.Now();
    engine.SetSuspended(users);
    OneQuietEffect(done, SetSuspended(users));
    Unmoved(w, engine.Now());
  }

  method DoWait(engine: Engine, moment: Clock)
    requires engine.Valid()
    modifies engine, engine.store
    ensures engine.Valid() && old(engine.done) <= engine.done
    ensures CutsSafe(old(engine.Now()), engine.done, |old(engine.done)|)
    ensures Within(old(engine.Now()), engine.Now(), {}, {})
  {
    hide CutsSafe, Orphans, Lost, Stranded, Reached, After;
    ghost var done, w := engine.done, engine.Now();
    var clock := moment;
    if clock.now < engine.store.clock.now || clock.period < engine.store.clock.period {
      clock := engine.store.clock;
    }
    engine.Elapse(clock);
    OneQuietEffect(done, Elapse(clock));
    Unmoved(w, engine.Now());
  }

  method Do(engine: Engine, s: Setup, call: Call) returns (ghost raised: set<JobId>, ghost left: set<Handle>)
    requires engine.Valid() && Usable(s.policy)
    modifies engine, engine.store, engine.fleet
    ensures engine.Valid() && old(engine.done) <= engine.done
    ensures CutsSafe(old(engine.Now()), engine.done, |old(engine.done)|)
    ensures Within(old(engine.Now()), engine.Now(), raised, left)
    ensures raised != {} ==> call.Tick?
    ensures forall j :: j in raised ==> Restoring(old(engine.Now()), j)
    ensures left != {} ==> (call.Cancel? || call.Reclaim?) && left <= Stays(old(engine.Now()), engine.cfg, call.id)
    ensures forall h :: h in left ==> h.backend !in engine.cfg.backends
  {
    hide CutsSafe, Within, Reached, After, Stays, Restoring;
    raised, left := {}, {};
    ghost var w := engine.Now();
    match call
    case Tick => raised := DoTick(engine, s);
    case Submit(request) => DoSubmit(engine, s, request);
    case Cancel(id, actor, admin, officers) =>
      left := DoCancel(engine, id, actor, admin, officers);
      StaysUnreached(w, engine.cfg, id);
    case Reclaim(id) =>
      if id < |engine.store.jobs| && engine.store.jobs[id].state == Running {
        StaysIs(engine.Now(), engine.cfg, id);
        left := DoStop(engine, id, Reclaimed);
        StaysUnreached(w, engine.cfg, id);
      } else {
        Nothing(engine.done);
      }
    case Reap(leaks) => DoReap(engine, leaks);
    case Suspend(users) => DoSuspend(engine, users);
    case Wait(moment) => DoWait(engine, moment);
  }

  lemma StaysUnreached(w: World, cfg: Config, id: JobId)
    ensures forall h :: h in Stays(w, cfg, id) ==> h.backend !in cfg.backends
  {
  }

  lemma StaysIs(w: World, cfg: Config, id: JobId)
    requires id < |w.db.jobs|
    ensures Stays(w, cfg, id) == Broker.LeftUp(cfg, w, w.db.jobs[id])
  {
  }

  lemma Nothing(done: seq<Effect>)
    ensures CutsSafe(After(done), done, |done|) && Within(After(done), After(done), {}, {})
  {
    NothingYet(done);
  }

  // ------------------------------------------------------------------- all of them

  /** At some point from the `n`th effect on the job was restoring a checkpoint. */
  ghost predicate RestoringOnce(done: seq<Effect>, n: nat, j: JobId) {
    exists k :: n <= k <= |done| && Restoring(After(done[..k]), j)
  }

  lemma RestoredNow(done: seq<Effect>, more: seq<Effect>, n: nat, j: JobId)
    requires n <= |done| && done <= more && Restoring(After(done), j)
    ensures RestoringOnce(more, n, j)
  {
    hide After;
    assert more[..|done|] == done;
  }

  lemma RestoredBefore(done: seq<Effect>, more: seq<Effect>, n: nat, j: JobId)
    requires done <= more && RestoringOnce(done, n, j)
    ensures RestoringOnce(more, n, j)
  {
    hide After;
    var k :| n <= k <= |done| && Restoring(After(done[..k]), j);
    assert more[..k] == done[..k];
  }

  /** Whatever the broker is asked to do, in whatever order: all that has drifted in the end are jobs a tick raised on
      and machines of jobs that were stopped while their backend was not configured; and a crash anywhere, in the
      middle of any call, leaves at most one thing more. So a broker that was tidy stays tidy if no tick raised and
      every stop could reach its machine. */
  method Serve(engine: Engine, s: Setup, calls: seq<Call>) returns (ghost raised: set<JobId>, ghost left: set<Handle>)
    requires engine.Valid() && Usable(s.policy)
    modifies engine, engine.store, engine.fleet
    ensures engine.Valid() && old(engine.done) <= engine.done
    ensures Within(old(engine.Now()), engine.Now(), raised, left)
    ensures CutsWithin(old(engine.Now()), engine.done, |old(engine.done)|, raised, left)
    ensures raised == {} && left == {} && Tick.Tidy(old(engine.Now())) ==> Tick.Tidy(engine.Now())
    ensures (forall i :: 0 <= i < |calls| ==> !calls[i].Tick?) ==> raised == {}
    ensures (forall i :: 0 <= i < |calls| ==> !calls[i].Cancel? && !calls[i].Reclaim?) ==> left == {}
    ensures forall j :: j in raised ==> RestoringOnce(engine.done, |old(engine.done)|, j)
    ensures forall h :: h in left ==> h.backend !in engine.cfg.backends
  {
    hide Within, CutsWithin, CutsSafe, Reached, After, Tick.Tidy, Stays, Restoring, RestoringOnce;
    ghost var w, n := engine.Now(), |engine.done|;
    FromTheStart(engine.done);
    raised, left := {}, {};
    for i := 0 to |calls|
      invariant engine.Valid() && old(engine.done) <= engine.done
      invariant Within(w, engine.Now(), raised, left) && CutsWithin(w, engine.done, n, raised, left)
      invariant (forall k :: 0 <= k < i ==> !calls[k].Tick?) ==> raised == {}
      invariant forall j :: j in raised ==> RestoringOnce(engine.done, n, j)
      invariant forall h :: h in left ==> h.backend !in engine.cfg.backends
      invariant (forall k :: 0 <= k < i ==> !calls[k].Cancel? && !calls[k].Reclaim?) ==> left == {}
    {
      ghost var done, now := engine.done, engine.Now();
      ghost var r, h;
      r, h := Do(engine, s, calls[i]);
      CallFollows(w, done, engine.done, n, raised, left, raised + r, left + h);
      forall j | j in raised + r ensures RestoringOnce(engine.done, n, j) {
        if j in r {
          RestoredNow(done, engine.done, n, j);
        } else {
          RestoredBefore(done, engine.done, n, j);
        }
      }
      AddsUp(w, now, engine.Now(), raised, left, r, h);
      raised, left := raised + r, left + h;
    }
    StillTidy(w, engine.Now(), raised, left);
  }

  lemma StillTidy(w: World, w': World, raised: set<JobId>, left: set<Handle>)
    requires Within(w, w', raised, left)
    ensures raised == {} && left == {} && Tick.Tidy(w) ==> Tick.Tidy(w')
  {
    hide Orphans, Lost, Stranded;
  }
}
