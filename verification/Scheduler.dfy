/** One pass of the broker (gpu_broker/scheduler.py): look at every running job, then dispatch the queue. */
module Scheduler {
  import opened Wrappers
  import opened Money
  import opened States
  import opened Ledger
  import opened Tables
  import opened History
  import opened World
  import opened Books
  import opened Advance
  import opened Store
  import opened Engine
  import Outcomes

  // ---------------------------------------------------------------- a running job

  /** `_accrue`, and the settlement of what it finds. */
  method SettleUp(engine: Engine, id: JobId, price: real, now: real)
    requires engine.Valid() && id < |engine.store.jobs| && engine.store.jobs[id].state in ACTIVE
    modifies engine, engine.store
    ensures engine.Valid()
    ensures engine.done == old(engine.done) + Settlement(old(engine.store.View()), id, price, now)
    ensures engine.store.jobs == old(engine.store.jobs) && engine.store.history == old(engine.store.history)
    ensures engine.fleet.machines == old(engine.fleet.machines)
  {
    hide Reached, After;
    var total := CostSoFar(engine.store.jobs[id], price, now);
    var already := engine.store.JobSpend(id);
    var accrued := if total - already < 0 then 0 else total - already;
    assert accrued == Accrued(engine.store.View(), id, price, now);
    if 0 < accrued {
      engine.Accrue(id, accrued);
    }
  }

  function Drained(jobs: seq<Job>, id: JobId, lines: nat): seq<Job>
    requires id < |jobs|
  {
    if 0 < lines then jobs[id := NotedJob(jobs[id], FetchedLogs(lines))] else jobs
  }

  function Collected(jobs: seq<Job>, id: JobId, s: Sight): seq<Job>
    requires id < |jobs|
  {
    if Progressed(jobs[id], s) then jobs[id := NotedJob(jobs[id], SaveCheckpoint(s.saved.value))] else jobs
  }

  /** `_drain_logs`: the cursor moves past whatever was fetched. */
  method DrainLogs(engine: Engine, id: JobId, lines: nat)
    requires engine.Valid() && id < |engine.store.jobs|
    modifies engine, engine.store
    ensures engine.Valid() && engine.done == old(engine.done) + Drain(id, lines)
    ensures engine.store.jobs == Drained(old(engine.store.jobs), id, lines)
    ensures engine.store.history == old(engine.store.history)
  {
    hide Reached, After;
    if 0 < lines {
      engine.Annotate(id, FetchedLogs(lines));
    }
  }

  /** `_collect_checkpoint`: whether the job saved anything newer than what is on record. */
  method CollectCheckpoint(engine: Engine, id: JobId, s: Sight) returns (progressed: bool)
    requires engine.Valid() && id < |engine.store.jobs|
    modifies engine, engine.store
    ensures engine.Valid() && progressed == Progressed(old(engine.store.jobs[id]), s)
    ensures engine.done == old(engine.done) + Collect(id, old(engine.store.jobs[id]), s)
    ensures engine.store.jobs == Collected(old(engine.store.jobs), id, s)
    ensures engine.store.history == old(engine.store.history)
  {
    hide Reached, After;
    var job := engine.store.jobs[id];
    if s.saved == None {
      return false;
    }
    if job.checkpoint.Some? && s.saved.value <= job.checkpoint.value {
      return false;
    }
    engine.Annotate(id, SaveCheckpoint(s.saved.value));
    return true;
  }

  /** The part of `_preempt` that gives the machine up: whether anything new was saved,
      and whether the job's state has an edge to PREEMPTED. */
  method GiveUp(engine: Engine, id: JobId, h: Handle, s: Sight)
    returns (progressed: bool, r: Result<(), IllegalTransition>)
    requires engine.Valid() && id < |engine.store.jobs| && engine.store.jobs[id].state in ACTIVE
    modifies engine, engine.store, engine.fleet
    ensures engine.Valid() && |engine.store.jobs| == old(|engine.store.jobs|)
    ensures var job := old(engine.store.jobs[id]);
            && progressed == Progressed(job, s) && (r.Ok? <==> CanTransition(job.state, Preempted))
            && engine.done == old(engine.done) + ([Terminate(h)] + Collect(id, job, s) + [Annotate(id, CountPreemption)]
                                                  + if r.Ok? then [Stop(id, Preempted, None)] else [])
            && (r.Ok? ==> engine.store.jobs[id].state == Preempted
                          && engine.store.jobs[id].preemptions == job.preemptions + 1)
  {
    hide Reached, After, WritesOf, Written, LegalLog, PreemptedRows, Collect, Progressed, Enabled, LegalTransitions;
    engine.Good();
    assert LogFits(engine.store.View(), id);
    engine.Terminate(h);
    progressed := CollectCheckpoint(engine, id, s);
    engine.Annotate(id, CountPreemption);
    MaySuspend(engine.cfg, engine.Now(), id);
    r := engine.Move(id, Preempted, None, None, true);
  }

  /** A preemption that has been counted may be written to the log. */
  lemma MaySuspend(cfg: Config, w: World, id: JobId)
    requires id < |w.db.jobs| == |w.db.history| && w.db.jobs[id].state in ACTIVE
    requires PreemptedRows(w.db.history[id]) < w.db.jobs[id].preemptions
    ensures CanTransition(w.db.jobs[id].state, Preempted) ==> Enabled(cfg, w, Stop(id, Preempted, None))
  {
    hide PreemptedRows;
  }

  /** The rest of `_preempt`: the pin, if nothing was saved for too long, and `_requeue`. */
  method BackInQueue(engine: Engine, id: JobId, progressed: bool, fallback: Option<Tier>)
    returns (r: Result<(), IllegalTransition>)
    requires engine.Valid() && id < |engine.store.jobs| && engine.store.jobs[id].state == Preempted
    modifies engine, engine.store
    ensures engine.Valid() && r.Ok?
    ensures var pins := !progressed && engine.cfg.pinAfter <= old(engine.store.jobs[id].preemptions) && fallback.Some?;
            engine.done == old(engine.done) + ((if pins then [Annotate(id, PinTo(fallback.value))] else [])
                                               + [Move(id, Queued, None, None, false)])
  {
    hide Reached, After;
    if !progressed && engine.cfg.pinAfter <= engine.store.jobs[id].preemptions && fallback.Some? {
      engine.Annotate(id, PinTo(fallback.value));
    }
    r := engine.Move(id, Queued, None, None, false);
  }

  /** `_preempt`: an interrupted job gives up its machine, keeps what was saved, and waits for another. */
  method Preempt(engine: Engine, id: JobId, h: Handle, s: Sight) returns (r: Result<(), IllegalTransition>)
    requires engine.Valid() && id < |engine.store.jobs| && engine.store.jobs[id].state in ACTIVE
    modifies engine, engine.store, engine.fleet
    ensures engine.Valid()
    ensures engine.done == old(engine.done) + PreemptScript(engine.cfg, id, old(engine.store.jobs[id]), h, s)
    ensures r.Ok? <==> CanTransition(old(engine.store.jobs[id].state), Preempted)
  {
    hide Reached, After, Collect;
    ghost var start, job := engine.done, engine.store.jobs[id];
    var progressed, gone := GiveUp(engine, id, h, s);
    r := gone;
    if r.Ok? {
      r := BackInQueue(engine, id, progressed, s.fallback);
    }
    assert engine.done == start + PreemptScript(engine.cfg, id, job, h, s);
  }

  /** The machine first, then the record: every way a job ends on a tick. */
  method End(engine: Engine, id: JobId, h: Handle, to: JobState, exit: Option<int>, lines: nat)
    requires engine.Valid() && id < |engine.store.jobs| && engine.store.jobs[id].state in ACTIVE
    requires to == Failed || to == Completed
    modifies engine, engine.store, engine.fleet
    ensures engine.Valid()
    ensures engine.done == old(engine.done) + ([Terminate(h)] + Drain(id, lines) + [Stop(id, to, exit)])
  {
    hide Reached, After;
    engine.Terminate(h);
    DrainLogs(engine, id, lines);
    var r := engine.Move(id, to, None, exit, true);
  }

  /** What a poll's answer makes the broker do. */
  method Respond(engine: Engine, id: JobId, h: Handle, price: real, now: real, s: Sight)
    returns (r: Result<(), IllegalTransition>)
    requires engine.Valid() && id < |engine.store.jobs| && engine.store.jobs[id].state in ACTIVE
    modifies engine, engine.store, engine.fleet
    ensures engine.Valid()
    ensures engine.done == old(engine.done) + Response(engine.cfg, id, old(engine.store.jobs[id]), h, price, now, s)
    ensures r.Ok? <==> s.status != SeenInterrupted || CanTransition(old(engine.store.jobs[id].state), Preempted)
  {
    hide Reached, After, PreemptScript;
    var job := engine.store.jobs[id];
    if s.status == SeenReady {
      if s.startFails {
        End(engine, id, h, Failed, None, 0);
      }
      return Ok(());
    }
    var target := StateFor(s.status);
    if target == Preempted {
      r := Preempt(engine, id, h, s);
      return;
    }
    if target in TERMINAL {
      End(engine, id, h, target, s.exit, 0);
      return Ok(());
    }
    if AtCeiling(job, price, now) {
      End(engine, id, h, Failed, None, s.lateLines);
      return Ok(());
    }
    if target == Allocating && job.checkpoint.Some? && job.state == Allocating {
      target := Resuming;
    }
    if target == job.state || !CanTransition(job.state, target) {
      return Ok(());
    }
    r := engine.Move(id, target, None, s.exit, false);
  }

  /** A cancellation requested by a process without backends, carried out by the tick that finds it. */
  method CancelOnRequest(engine: Engine, id: JobId, h: Handle, lines: nat) returns (r: Result<(), IllegalTransition>)
    requires engine.Valid() && id < |engine.store.jobs| && engine.store.jobs[id].state in ACTIVE
    modifies engine, engine.store, engine.fleet
    ensures engine.Valid()
    ensures engine.done == old(engine.done) + CancelScript(id, old(engine.store.jobs[id]), h, lines)
    ensures r.Ok? <==> CanTransition(old(engine.store.jobs[id].state), Cancelled)
  {
    hide Reached, After;
    engine.Terminate(h);
    DrainLogs(engine, id, lines);
    r := engine.Move(id, Cancelled, None, None, true);
  }

  /** `_advance`: exactly the effects of the script, in its order, and an exception exactly in the situations
      the script stops short. The job's row is what the answer calls for, and no other row changes. */
  method AdvanceJob(engine: Engine, id: JobId, price: real, now: real, s: Sight)
    returns (r: Result<(), IllegalTransition>)
    requires engine.Valid() && id < |engine.store.jobs| && engine.store.jobs[id].state in ACTIVE
    modifies engine, engine.store, engine.fleet
    ensures engine.Valid()
    ensures engine.done == old(engine.done) + Script(engine.cfg, old(engine.store.View()), id, price, now, s)
    ensures r.Err? <==> Raises(engine.cfg, old(engine.store.jobs[id]), s)
    ensures engine.store.jobs
         == old(engine.store.jobs)[id := Outcomes.Outcome(engine.cfg, old(engine.store.jobs[id]), price, now,
                                                          old(engine.store.clock.now), s)]
  {
    hide Reached, After, Response, CancelScript, Settlement, Outcomes.Outcome;
    ghost var start, db := engine.done, engine.store.View();
    Outcomes.AdvanceOutcome(engine.cfg, start, id, price, now, s);
    var job := engine.store.jobs[id];
    if job.place.None? || job.place.value.backend !in engine.cfg.backends {
      return Ok(());
    }
    var h := job.place.value;
    SettleUp(engine, id, price, now);
    if job.cancelRequested {
      r := CancelOnRequest(engine, id, h, s.newLines);
      assert engine.done == start + Script(engine.cfg, db, id, price, now, s);
      return;
    }
    DrainLogs(engine, id, s.newLines);
    r := Respond(engine, id, h, price, now, s);
    Outcomes.SameResponse(engine.cfg, id, job, s.newLines, h, price, now, s);
    assert engine.done == start + Script(engine.cfg, db, id, price, now, s);
  }
}
