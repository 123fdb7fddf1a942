/** What one look at a running job makes the broker do, as the list of durable effects
    it commits, in order (gpu_broker/scheduler.py `_advance`, `_preempt`, `_requeue`, `_accrue`). */
module Advance {
  import opened Wrappers
  import opened Money
  import opened States
  import opened Ledger
  import opened Tables
  import opened History
  import opened World
  import opened Books

  /** What a backend says about one allocation. */
  datatype Status =
    | SeenPending | SeenReady | SeenRunning
    | SeenCompleted | SeenFailed | SeenInterrupted | SeenGone

  function StateFor(s: Status): JobState {
    match s
    case SeenPending => Allocating
    case SeenReady => Allocating
    case SeenRunning => Running
    case SeenCompleted => Completed
    case SeenFailed => Failed
    case SeenInterrupted => Preempted
    case SeenGone => Failed
  }

  /** Everything outside the broker that one advance depends on: what the poll says, whether starting the
      command fails, how many new log lines there are (now, and after a ceiling stop), the newest complete
      checkpoint, and the tier a job could be pinned to. */
  datatype Sight = Sight(status: Status, exit: Option<int>, startFails: bool, newLines: nat, lateLines: nat,
                         saved: Option<nat>, fallback: Option<Tier>)

  // ---------------------------------------------------------------------- accrual

  /** Hours since the job first took capacity, never negative. */
  function Elapsed(job: Job, now: real): real {
    if job.startedAt.None? then 0.0
    else
      var span := job.finishedAt.GetOr(now) - job.startedAt.value;
      if span < 0.0 then 0.0 else span
  }

  function Min(a: int, b: int): int {
    if a < b then a else b
  }

  /** The job's whole cost so far, never more than its ceiling. */
  function CostSoFar(job: Job, price: real, now: real): int {
    Min(Quantize(price * Elapsed(job, now)), job.reserved)
  }

  /** What has not been settled of it yet. */
  function Accrued(db: Db, id: JobId, price: real, now: real): nat
    requires id < |db.jobs|
  {
    AtLeastZero(CostSoFar(db.jobs[id], price, now) - Spent(db.ledger, OfJobAnyCurrency(id)))
  }

  predicate AtCeiling(job: Job, price: real, now: real) {
    job.reserved <= Quantize(price * Elapsed(job, now))
  }

  // ---------------------------------------------------------------------- scripts

  predicate Reachable(cfg: Config, job: Job) {
    job.place.Some? && job.place.value.backend in cfg.backends
  }

  /** Ends or suspends a job, giving up its machine. */
  function Stop(id: JobId, to: JobState, exit: Option<int>): Effect {
    Move(id, to, None, exit, true)
  }

  function Settlement(db: Db, id: JobId, price: real, now: real): seq<Effect>
    requires id < |db.jobs|
  {
    var a := Accrued(db, id, price, now);
    if 0 < a then [Accrue(id, a)] else []
  }

  function Drain(id: JobId, lines: nat): seq<Effect> {
    if 0 < lines then [Annotate(id, FetchedLogs(lines))] else []
  }

  /** A newer checkpoint than the one on record. */
  predicate Progressed(job: Job, s: Sight) {
    s.saved.Some? && (job.checkpoint.None? || job.checkpoint.value < s.saved.value)
  }

  function Collect(id: JobId, job: Job, s: Sight): seq<Effect> {
    if Progressed(job, s) then [Annotate(id, SaveCheckpoint(s.saved.value))] else []
  }

  function Pin(cfg: Config, id: JobId, job: Job, s: Sight): seq<Effect> {
    if !Progressed(job, s) && cfg.pinAfter <= job.preemptions + 1 && s.fallback.Some?
    then [Annotate(id, PinTo(s.fallback.value))] else []
  }

  /** Back in the queue, unless the job's state has no edge to PREEMPTED; then the call raises here. */
  function BackInLine(cfg: Config, id: JobId, job: Job, s: Sight): seq<Effect> {
    if !CanTransition(job.state, Preempted) then []
    else [Stop(id, Preempted, None)] + Pin(cfg, id, job, s) + [Move(id, Queued, None, None, false)]
  }

  function PreemptScript(cfg: Config, id: JobId, job: Job, h: Handle, s: Sight): seq<Effect> {
    [Terminate(h)] + Collect(id, job, s) + [Annotate(id, CountPreemption)] + BackInLine(cfg, id, job, s)
  }

  /** The state a poll moves a living job to, if any. */
  function ForwardTo(job: Job, s: Sight): JobState {
    if StateFor(s.status) == Allocating && job.checkpoint.Some? && job.state == Allocating
    then Resuming else StateFor(s.status)
  }

  function Forward(id: JobId, job: Job, s: Sight): seq<Effect> {
    if CanTransition(job.state, ForwardTo(job, s)) && ForwardTo(job, s) != job.state
    then [Move(id, ForwardTo(job, s), None, s.exit, false)] else []
  }

  /** The answer to a poll, in the order the source asks: a machine waiting to be started, capacity
      taken away, the backend saying it is over, the ceiling, and only then progress. */
  function Response(cfg: Config, id: JobId, job: Job, h: Handle, price: real, now: real, s: Sight): seq<Effect> {
    if s.status == SeenReady then
      (if s.startFails then [Terminate(h), Stop(id, Failed, None)] else [])
    else if s.status == SeenInterrupted then PreemptScript(cfg, id, job, h, s)
    else if StateFor(s.status) in TERMINAL then [Terminate(h), Stop(id, StateFor(s.status), s.exit)]
    else if AtCeiling(job, price, now) then [Terminate(h)] + Drain(id, s.lateLines) + [Stop(id, Failed, None)]
    else Forward(id, job, s)
  }

  function CancelScript(id: JobId, job: Job, h: Handle, lines: nat): seq<Effect> {
    [Terminate(h)] + Drain(id, lines)
    + (if CanTransition(job.state, Cancelled) then [Stop(id, Cancelled, None)] else [])
  }

  function Script(cfg: Config, db: Db, id: JobId, price: real, now: real, s: Sight): seq<Effect>
    requires id < |db.jobs|
  {
    var job := db.jobs[id];
    if !Reachable(cfg, job) then []
    else if job.cancelRequested
    then Settlement(db, id, price, now) + CancelScript(id, job, job.place.value, s.newLines)
    else Settlement(db, id, price, now) + Drain(id, s.newLines)
         + Response(cfg, id, job, job.place.value, price, now, s)
  }

  /** Whether the advance ends in an IllegalTransition that aborts the whole tick. */
  predicate Raises(cfg: Config, job: Job, s: Sight) {
    Reachable(cfg, job)
    && (if job.cancelRequested then !CanTransition(job.state, Cancelled)
        else s.status == SeenInterrupted && !CanTransition(job.state, Preempted))
  }

  /** By the transition table alone, two edges are missing under an advance of an active job: from CHECKPOINTING to
      CANCELLED and from RESUMING to PREEMPTED. No job is ever in the first of these states (`Lifetimes`). */
  lemma RaisesExactly(cfg: Config, job: Job, s: Sight)
    requires job.state in ACTIVE && Reachable(cfg, job)
    ensures Raises(cfg, job, s)
       <==> if job.cancelRequested then job.state == Checkpointing
            else s.status == SeenInterrupted && job.state == Resuming
  {
  }

  // ------------------------------------------------------------------ playing scripts

  function Play(w: World, es: seq<Effect>): World {
    if es == [] then w else Apply(Play(w, es[..|es| - 1]), es[|es| - 1])
  }

  lemma PlayOne(w: World, es: seq<Effect>, e: Effect)
    ensures Play(w, es + [e]) == Apply(Play(w, es), e)
  {
    assert (es + [e])[..|es|] == es;
  }

  lemma {:induction false} PlayConcat(w: World, a: seq<Effect>, b: seq<Effect>)
    ensures Play(w, a + b) == Play(Play(w, a), b)
  {
    hide Apply;
    if b == [] {
      assert a + b == a;
    } else {
      var n := |b| - 1;
      PlayConcat(w, a, b[..n]);
      assert a + b == (a + b[..n]) + [b[n]];
      PlayOne(w, a + b[..n], b[n]);
    }
  }

  // ---------------------------------------------------------------- what a crash leaves

  /** Active jobs whose machine is not up: what `reconcile` reports as LOST. */
  function Lost(w: World): set<JobId> {
    set j | 0 <= j < |w.db.jobs| && IsLost(w, j)
  }

  predicate IsLost(w: World, j: JobId)
    requires j < |w.db.jobs|
  {
    var job := w.db.jobs[j];
    job.state in ACTIVE && job.place.Some? && !(job.place.value in w.machines && w.machines[job.place.value].live)
  }

  /** An active job that names this machine. */
  predicate Holds(jobs: seq<Job>, j: JobId, h: Handle) {
    j < |jobs| && jobs[j].state in ACTIVE && jobs[j].place == Some(h)
  }

  /** Some active job names this machine. */
  predicate Recorded(jobs: seq<Job>, h: Handle) {
    exists j :: 0 <= j < |jobs| && Holds(jobs, j, h)
  }

  /** Tagged machines that are up with no active job naming them: what `reconcile` reports as ORPHAN. */
  function Orphans(w: World): set<Handle> {
    set h | h in w.machines && w.machines[h].live && w.machines[h].job.Some? && !Recorded(w.db.jobs, h)
  }

  /** Jobs between attempts. No tick ever reads one, so a job left here stays here. */
  function Stranded(w: World): set<JobId> {
    set j | 0 <= j < |w.db.jobs| && w.db.jobs[j].state == Preempted
  }

  /** Only job `id` and its machine `h` differ, and the job never lets go of a machine that is still up. */
  ghost predicate OneJob(w: World, w': World, id: JobId, h: Handle) {
    && |w'.db.jobs| == |w.db.jobs| && id < |w.db.jobs|
    && (forall j :: 0 <= j < |w.db.jobs| && j != id ==> w'.db.jobs[j] == w.db.jobs[j])
    && w'.machines.Keys == w.machines.Keys && h in w.machines
    && (forall g :: g in w.machines && g != h ==> w'.machines[g] == w.machines[g])
    && w'.machines[h].job == w.machines[h].job
    && (w'.machines[h].live ==> w.machines[h].live)
    && (w'.db.jobs[id].state in ACTIVE ==> w'.db.jobs[id].place == Some(h))
    && (w'.db.jobs[id].state !in ACTIVE ==> !w'.machines[h].live)
  }

  /** What that amounts to in drift. */
  ghost predicate JobDrifted(w: World, w': World, id: JobId, lost: bool, stranded: bool) {
    && Orphans(w') == Orphans(w)
    && Lost(w') == (if lost then Lost(w) + {id} else Lost(w) - {id})
    && Stranded(w') == (if stranded then Stranded(w) + {id} else Stranded(w) - {id})
  }

  lemma OneJobDrift(w: World, w': World, id: JobId, h: Handle)
    requires PlacesKnown(w) && OneJob(w, w', id, h) && w.db.jobs[id].place == Some(h)
    ensures var job := w'.db.jobs[id];
            JobDrifted(w, w', id, job.state in ACTIVE && !w'.machines[h].live, job.state == Preempted)
  {
    hide Recorded;
    assert PlaceKnown(w, id);
    forall g ensures g in Orphans(w') <==> g in Orphans(w) {
      RecordedByOthers(w, w', id, h, g);
    }
    forall j | 0 <= j < |w.db.jobs| && j != id ensures j in Lost(w') <==> j in Lost(w) {
      assert PlaceKnown(w, j);
    }
    assert id in Lost(w') <==> w'.db.jobs[id].state in ACTIVE && !w'.machines[h].live;
  }

  lemma RecordedByOthers(w: World, w': World, id: JobId, h: Handle, g: Handle)
    requires PlacesKnown(w) && OneJob(w, w', id, h) && w.db.jobs[id].place == Some(h)
    ensures g != h ==> (Recorded(w'.db.jobs, g) <==> Recorded(w.db.jobs, g))
    ensures Recorded(w.db.jobs, h) && (w'.db.jobs[id].state in ACTIVE ==> Recorded(w'.db.jobs, h))
  {
    assert PlaceKnown(w, id);
    assert Holds(w.db.jobs, id, h);
    assert Holds(w'.db.jobs, id, h) <==> w'.db.jobs[id].state in ACTIVE;
    if g != h && Recorded(w.db.jobs, g) {
      var j :| 0 <= j < |w.db.jobs| && Holds(w.db.jobs, j, g);
      assert Holds(w'.db.jobs, j, g);
    }
    if g != h && Recorded(w'.db.jobs, g) {
      var j :| 0 <= j < |w'.db.jobs| && Holds(w'.db.jobs, j, g);
      assert Holds(w.db.jobs, j, g);
    }
  }

  /** A script about one job that lets go of a machine only after stopping it,
      and moves the job to another active state only before.
      `dead` says whether the machine was already stopped when the script starts. */
  predicate Careful(es: seq<Effect>, id: JobId, h: Handle, dead: bool) {
    es == []
    || match es[0]
       case Accrue(i, _) => i == id && Careful(es[1..], id, h, dead)
       case Annotate(i, _) => i == id && Careful(es[1..], id, h, dead)
       case Terminate(g) => g == h && Careful(es[1..], id, h, true)
       case Move(i, to, place, _, clear) =>
         i == id && place.None? && (to in ACTIVE <==> !dead) && (to in ACTIVE ==> !clear)
         && Careful(es[1..], id, h, dead)
       case _ => false
  }

  lemma {:induction false} CarefulConcat(a: seq<Effect>, b: seq<Effect>, id: JobId, h: Handle, dead: bool)
    requires Careful(a, id, h, dead) && Careful(b, id, h, dead || Terminate(h) in a)
    ensures Careful(a + b, id, h, dead)
  {
    if a == [] {
      assert a + b == b;
    } else {
      assert (a + b)[0] == a[0] && (a + b)[1..] == a[1..] + b;
      CarefulConcat(a[1..], b, id, h, dead || a[0] == Terminate(h));
    }
  }

  ghost predicate StillHeld(w: World, w': World, id: JobId, h: Handle, dead: bool) {
    OneJob(w, w', id, h) && (if dead then !w'.machines[h].live else w'.db.jobs[id].state in ACTIVE)
  }

  lemma CarefulStep(w: World, w': World, e: Effect, id: JobId, h: Handle, dead: bool)
    requires StillHeld(w, w', id, h, dead) && Careful([e], id, h, dead)
    requires |w'.db.history| == |w'.db.jobs|
    ensures StillHeld(w, Apply(w', e), id, h, dead || e == Terminate(h))
    ensures var w'' := Apply(w', e); |w''.db.history| == |w''.db.jobs|
  {
  }

  lemma CarefulSplits(es: seq<Effect>, id: JobId, h: Handle, dead: bool)
    requires Careful(es, id, h, dead) && es != []
    ensures Careful([es[0]], id, h, dead) && Careful(es[1..], id, h, dead || es[0] == Terminate(h))
  {
  }

  /** Cut a careful script anywhere: only its own job and machine have changed,
      and the job has not let go of a machine that is still up. */
  lemma {:induction false} CarefulPrefix(w: World, w': World, es: seq<Effect>, id: JobId, h: Handle, dead: bool, k: nat)
    requires StillHeld(w, w', id, h, dead) && |w'.db.history| == |w'.db.jobs|
    requires Careful(es, id, h, dead) && k <= |es|
    ensures OneJob(w, Play(w', es[..k]), id, h)
    decreases |es|
  {
    hide Careful, Apply, OneJob;
    if k == 0 {
      assert es[..0] == [];
    } else {
      var e, rest := es[0], es[1..];
      CarefulSplits(es, id, h, dead);
      CarefulStep(w, w', e, id, h, dead);
      CarefulPrefix(w, Apply(w', e), rest, id, h, dead || e == Terminate(h), k - 1);
      assert es[..k] == [e] + rest[..k - 1] && [e] == [] + [e];
      PlayConcat(w', [e], rest[..k - 1]);
      PlayOne(w', [], e);
    }
  }

  lemma ScriptIsCareful(cfg: Config, db: Db, id: JobId, price: real, now: real, s: Sight)
    requires id < |db.jobs| && db.jobs[id].state in ACTIVE && Reachable(cfg, db.jobs[id])
    ensures Careful(Script(cfg, db, id, price, now, s), id, db.jobs[id].place.value, false)
  {
    var job := db.jobs[id];
    var h := job.place.value;
    var settle, drain, late := Settlement(db, id, price, now), Drain(id, s.newLines), Drain(id, s.lateLines);
    if job.cancelRequested {
      var end := if CanTransition(job.state, Cancelled) then [Stop(id, Cancelled, None)] else [];
      CarefulConcat([Terminate(h)], drain, id, h, false);
      CarefulConcat([Terminate(h)] + drain, end, id, h, false);
      CarefulConcat(settle, CancelScript(id, job, h, s.newLines), id, h, false);
    } else {
      ResponseIsCareful(cfg, id, job, h, price, now, s);
      CarefulConcat(settle, drain, id, h, false);
      CarefulConcat(settle + drain, Response(cfg, id, job, h, price, now, s), id, h, false);
    }
  }

  lemma ResponseIsCareful(cfg: Config, id: JobId, job: Job, h: Handle, price: real, now: real, s: Sight)
    requires job.state in ACTIVE
    ensures Careful(Response(cfg, id, job, h, price, now, s), id, h, false)
  {
    var drain := Drain(id, s.lateLines);
    CarefulConcat([Terminate(h)], drain, id, h, false);
    CarefulConcat([Terminate(h)] + drain, [Stop(id, Failed, None)], id, h, false);
    PreemptIsCareful(cfg, id, job, h, s);
  }

  lemma PreemptIsCareful(cfg: Config, id: JobId, job: Job, h: Handle, s: Sight)
    ensures Careful(PreemptScript(cfg, id, job, h, s), id, h, false)
  {
    var collect, pin := Collect(id, job, s), Pin(cfg, id, job, s);
    var front := [Terminate(h)] + collect;
    CarefulConcat([Terminate(h)], collect, id, h, false);
    CarefulConcat(front, [Annotate(id, CountPreemption)], id, h, false);
    if CanTransition(job.state, Preempted) {
      CarefulConcat([Stop(id, Preempted, None)], pin, id, h, true);
      CarefulConcat([Stop(id, Preempted, None)] + pin, [Move(id, Queued, None, None, false)], id, h, true);
    }
    CarefulConcat(front + [Annotate(id, CountPreemption)], BackInLine(cfg, id, job, s), id, h, false);
  }

  // --------------------------------------------------------------- how an advance ends

  /** The state the last transition of a script leaves, and whether it stopped the machine. */
  function EndState(es: seq<Effect>, s: JobState): JobState {
    if es == [] then s else EndState(es[1..], if es[0].Move? then es[0].to else s)
  }

  lemma {:induction false} EndConcat(a: seq<Effect>, b: seq<Effect>, s: JobState)
    ensures EndState(a + b, s) == EndState(b, EndState(a, s))
  {
    if a == [] {
      assert a + b == b;
    } else {
      assert (a + b)[0] == a[0] && (a + b)[1..] == a[1..] + b;
      EndConcat(a[1..], b, if a[0].Move? then a[0].to else s);
    }
  }

  lemma StepEnd(w: World, e: Effect, id: JobId, h: Handle, dead: bool)
    requires Careful([e], id, h, dead) && id < |w.db.jobs| == |w.db.history| && h in w.machines
    ensures var w' := Apply(w, e);
            && id < |w'.db.jobs| == |w'.db.history| && h in w'.machines
            && w'.db.jobs[id].state == (if e.Move? then e.to else w.db.jobs[id].state)
            && (e != Terminate(h) ==> w'.machines == w.machines)
  {
    hide WritesOf, Written;
  }

  lemma {:induction false} CarefulEnd(w: World, es: seq<Effect>, id: JobId, h: Handle, dead: bool)
    requires Careful(es, id, h, dead) && id < |w.db.jobs| == |w.db.history| && h in w.machines
    ensures Play(w, es).db.jobs != [] && id < |Play(w, es).db.jobs|
    ensures Play(w, es).db.jobs[id].state == EndState(es, w.db.jobs[id].state)
    ensures Terminate(h) !in es ==> Play(w, es).machines == w.machines
    decreases |es|
  {
    hide Apply;
    if es != [] {
      var e, rest := es[0], es[1..];
      assert es == [e] + rest && [e] == [] + [e];
      PlayConcat(w, [e], rest);
      PlayOne(w, [], e);
      assert Careful([e], id, h, dead);
      StepEnd(w, e, id, h, dead);
      CarefulEnd(Apply(w, e), rest, id, h, dead || e == Terminate(h));
    }
  }

  /** Where an advance leaves an active job. */
  function StateAfter(cfg: Config, job: Job, price: real, now: real, s: Sight): JobState {
    if !Reachable(cfg, job) || Raises(cfg, job, s) then job.state
    else if job.cancelRequested then Cancelled
    else if s.status == SeenReady then (if s.startFails then Failed else job.state)
    else if s.status == SeenInterrupted then Queued
    else if StateFor(s.status) in TERMINAL then StateFor(s.status)
    else if AtCeiling(job, price, now) then Failed
    else if CanTransition(job.state, ForwardTo(job, s)) then ForwardTo(job, s)
    else job.state
  }

  /** Whether an advance stops the machine. */
  predicate Stops(cfg: Config, job: Job, price: real, now: real, s: Sight) {
    Reachable(cfg, job)
    && (job.cancelRequested
        || (if s.status == SeenReady then s.startFails
            else StateFor(s.status) in TERMINAL + {Preempted} || AtCeiling(job, price, now)))
  }

  lemma ScriptEnds(cfg: Config, db: Db, id: JobId, price: real, now: real, s: Sight)
    requires id < |db.jobs| && db.jobs[id].state in ACTIVE && Reachable(cfg, db.jobs[id])
    ensures var job := db.jobs[id]; var es := Script(cfg, db, id, price, now, s);
            && EndState(es, job.state) == StateAfter(cfg, job, price, now, s)
            && (Terminate(job.place.value) in es <==> Stops(cfg, job, price, now, s))
  {
    var job := db.jobs[id];
    var h, state := job.place.value, job.state;
    var settle, drain, late := Settlement(db, id, price, now), Drain(id, s.newLines), Drain(id, s.lateLines);
    EndConcat(settle, drain, state);
    if job.cancelRequested {
      var end := if CanTransition(state, Cancelled) then [Stop(id, Cancelled, None)] else [];
      EndConcat([Terminate(h)], drain, state);
      EndConcat([Terminate(h)] + drain, end, state);
      EndConcat(settle, CancelScript(id, job, h, s.newLines), state);
      assert Terminate(h) in CancelScript(id, job, h, s.newLines);
    } else {
      EndConcat(settle + drain, Response(cfg, id, job, h, price, now, s), state);
      ResponseEnds(cfg, id, job, h, price, now, s);
    }
  }

  lemma ResponseEnds(cfg: Config, id: JobId, job: Job, h: Handle, price: real, now: real, s: Sight)
    requires job.state in ACTIVE && Reachable(cfg, job) && !job.cancelRequested
    ensures EndState(Response(cfg, id, job, h, price, now, s), job.state) == StateAfter(cfg, job, price, now, s)
    ensures Terminate(h) in Response(cfg, id, job, h, price, now, s) <==> Stops(cfg, job, price, now, s)
  {
    var late := Drain(id, s.lateLines);
    EndConcat([Terminate(h)], late, job.state);
    EndConcat([Terminate(h)] + late, [Stop(id, Failed, None)], job.state);
    EndOfTwo(Terminate(h), Stop(id, Failed, None), job.state);
    EndOfTwo(Terminate(h), Stop(id, StateFor(s.status), s.exit), job.state);
    PreemptEnds(cfg, id, job, h, s);
    assert [Terminate(h), Stop(id, Failed, None)][0] == Terminate(h);
    assert [Terminate(h), Stop(id, StateFor(s.status), s.exit)][0] == Terminate(h);
    assert ([Terminate(h)] + late + [Stop(id, Failed, None)])[0] == Terminate(h);
  }

  lemma EndOfTwo(d: Effect, e: Effect, s: JobState)
    ensures EndState([d, e], s) == EndState([e], if d.Move? then d.to else s)
  {
    assert [d, e][1..] == [e];
  }

  lemma PreemptEnds(cfg: Config, id: JobId, job: Job, h: Handle, s: Sight)
    ensures EndState(PreemptScript(cfg, id, job, h, s), job.state)
         == (if CanTransition(job.state, Preempted) then Queued else job.state)
    ensures Terminate(h) in PreemptScript(cfg, id, job, h, s)
  {
    var collect, pin := Collect(id, job, s), Pin(cfg, id, job, s);
    var front := [Terminate(h)] + collect;
    var state := job.state;
    EndConcat([Terminate(h)], collect, state);
    EndConcat(front, [Annotate(id, CountPreemption)], state);
    EndConcat([Stop(id, Preempted, None)], pin, state);
    EndConcat([Stop(id, Preempted, None)] + pin, [Move(id, Queued, None, None, false)], state);
    EndConcat(front + [Annotate(id, CountPreemption)], BackInLine(cfg, id, job, s), state);
    assert front[0] == Terminate(h);
  }

  /** Where an advance leaves the job table: this job where `StateAfter` says, every other job alone. */
  lemma AdvanceMoves(cfg: Config, w: World, id: JobId, price: real, now: real, s: Sight)
    requires PlacesKnown(w) && |w.db.history| == |w.db.jobs|
    requires id < |w.db.jobs| && w.db.jobs[id].state in ACTIVE
    ensures var w' := Play(w, Script(cfg, w.db, id, price, now, s));
            && |w'.db.jobs| == |w.db.jobs|
            && w'.db.jobs[id].state == StateAfter(cfg, w.db.jobs[id], price, now, s)
            && (forall j :: 0 <= j < |w.db.jobs| && j != id ==> w'.db.jobs[j] == w.db.jobs[j])
  {
    assert PlaceKnown(w, id);
    if Reachable(cfg, w.db.jobs[id]) {
      var es, h := Script(cfg, w.db, id, price, now, s), w.db.jobs[id].place.value;
      ScriptIsCareful(cfg, w.db, id, price, now, s);
      ScriptEnds(cfg, w.db, id, price, now, s);
      CarefulPrefix(w, w, es, id, h, false, |es|);
      assert es[..|es|] == es;
      CarefulEnd(w, es, id, h, false);
    }
  }

  lemma {:induction false} TerminatedStaysDown(w: World, es: seq<Effect>, id: JobId, h: Handle, dead: bool)
    requires Careful(es, id, h, dead) && h in w.machines
    requires Terminate(h) in es || !w.machines[h].live
    ensures h in Play(w, es).machines && !Play(w, es).machines[h].live
    decreases |es|
  {
    if es != [] {
      var e, rest := es[0], es[1..];
      assert es == [e] + rest && [e] == [] + [e];
      PlayConcat(w, [e], rest);
      PlayOne(w, [], e);
      TerminatedStaysDown(Apply(w, e), rest, id, h, dead || e == Terminate(h));
    }
  }

  // ------------------------------------------------------------ cutting an advance anywhere

  /** An interruption that puts the job back in the queue. */
  predicate Falls(cfg: Config, job: Job, s: Sight) {
    Reachable(cfg, job) && !job.cancelRequested && s.status == SeenInterrupted && CanTransition(job.state, Preempted)
  }

  /** How many effects an advance commits before it stops the machine, if it does. */
  function StopAt(db: Db, id: JobId, price: real, now: real, s: Sight): nat
    requires id < |db.jobs|
  {
    |Settlement(db, id, price, now)| + (if db.jobs[id].cancelRequested then 0 else |Drain(id, s.newLines)|)
  }

  /** How many effects an advance has committed once the record no longer names the machine it stopped:
      all of them, or all but the pin and the step back into the queue. */
  function LetGoAt(cfg: Config, db: Db, id: JobId, price: real, now: real, s: Sight): int
    requires id < |db.jobs|
  {
    var job := db.jobs[id];
    |Script(cfg, db, id, price, now, s)| - (if Falls(cfg, job, s) then 1 + |Pin(cfg, id, job, s)| else 0)
  }

  /** Exactly what an advance cut after `k` effects leaves. Nothing is orphaned. The job is lost from the moment
      its machine is stopped until its record lets go of it, for good if the advance raises there; and it is
      stranded from PREEMPTED until QUEUED. */
  ghost predicate CutExactly(cfg: Config, w: World, w': World, id: JobId, price: real, now: real, s: Sight, k: nat)
    requires id < |w.db.jobs|
  {
    var job := w.db.jobs[id];
    var all := |Script(cfg, w.db, id, price, now, s)|;
    var letGo := LetGoAt(cfg, w.db, id, price, now, s);
    && Orphans(w') == Orphans(w)
    && Lost(w') == (if Stops(cfg, job, price, now, s) && !Raises(cfg, job, s) && letGo <= k then Lost(w) - {id}
                    else if Stops(cfg, job, price, now, s) && StopAt(w.db, id, price, now, s) < k then Lost(w) + {id}
                    else Lost(w))
    && Stranded(w') == (if Falls(cfg, job, s) && letGo <= k < all then Stranded(w) + {id} else Stranded(w))
  }

  /** Where in a script the machine is stopped and the job moved. */
  predicate Shaped(es: seq<Effect>, stops: bool, leaves: bool, falls: bool, stopAt: int, letGo: int) {
    && (stops ==> 0 <= stopAt < |es|)
    && (leaves ==> stops && stopAt + 1 < letGo <= |es| && es[letGo - 1].Move?)
    && (leaves && !falls ==> letGo == |es| && es[letGo - 1].to in TERMINAL)
    && (falls ==> leaves && letGo < |es| && es[letGo - 1].to == Preempted
                  && es[|es| - 1].Move? && es[|es| - 1].to == Queued)
    && (forall i :: 0 <= i < |es| ==> (es[i].Terminate? <==> stops && i == stopAt))
    && (forall i :: 0 <= i < |es| && es[i].Move? ==>
          if stops then leaves && (i == letGo - 1 || (falls && i == |es| - 1)) else es[i].to in ACTIVE)
  }

  lemma PreemptShape(cfg: Config, id: JobId, job: Job, h: Handle, s: Sight)
    ensures var es := PreemptScript(cfg, id, job, h, s);
            var edge := CanTransition(job.state, Preempted);
            Shaped(es, true, edge, edge, 0, |es| - 1 - |Pin(cfg, id, job, s)|)
  {
    hide LegalTransitions, Progressed;
    var es, pin := PreemptScript(cfg, id, job, h, s), Pin(cfg, id, job, s);
    var front := [Terminate(h)] + Collect(id, job, s) + [Annotate(id, CountPreemption)];
    if CanTransition(job.state, Preempted) {
      assert es == front + [Stop(id, Preempted, None)] + pin + [Move(id, Queued, None, None, false)];
    } else {
      assert es == front;
    }
  }

  /** Prefixing a script with settlements and notes shifts everything in it. */
  lemma ShapeShifts(quiet: seq<Effect>, es: seq<Effect>, stops: bool, leaves: bool, falls: bool, stopAt: int, letGo: int)
    requires Shaped(es, stops, leaves, falls, stopAt, letGo)
    requires forall i :: 0 <= i < |quiet| ==> quiet[i].Accrue? || quiet[i].Annotate?
    ensures Shaped(quiet + es, stops, leaves, falls, |quiet| + stopAt, |quiet| + letGo)
  {
  }

  lemma ResponseShape(cfg: Config, id: JobId, job: Job, h: Handle, price: real, now: real, s: Sight)
    requires job.state in ACTIVE && Reachable(cfg, job) && !job.cancelRequested
    ensures var es := Response(cfg, id, job, h, price, now, s);
            Shaped(es, Stops(cfg, job, price, now, s), Stops(cfg, job, price, now, s) && !Raises(cfg, job, s),
                   Falls(cfg, job, s), 0, |es| - (if Falls(cfg, job, s) then 1 + |Pin(cfg, id, job, s)| else 0))
  {
    hide AtCeiling, PreemptScript;
    PreemptShape(cfg, id, job, h, s);
  }

  lemma CancelShape(id: JobId, job: Job, h: Handle, lines: nat)
    ensures var es := CancelScript(id, job, h, lines);
            Shaped(es, true, CanTransition(job.state, Cancelled), false, 0, |es|)
  {
    hide LegalTransitions;
  }

  lemma ScriptShape(cfg: Config, db: Db, id: JobId, price: real, now: real, s: Sight)
    requires id < |db.jobs| && db.jobs[id].state in ACTIVE && Reachable(cfg, db.jobs[id])
    ensures var job := db.jobs[id];
            Shaped(Script(cfg, db, id, price, now, s), Stops(cfg, job, price, now, s),
                   Stops(cfg, job, price, now, s) && !Raises(cfg, job, s), Falls(cfg, job, s),
                   StopAt(db, id, price, now, s), LetGoAt(cfg, db, id, price, now, s))
  {
    hide Shaped, Response, CancelScript, AtCeiling, Accrued, LegalTransitions;
    var job := db.jobs[id];
    var settle, drain := Settlement(db, id, price, now), Drain(id, s.newLines);
    if job.cancelRequested {
      CancelShape(id, job, job.place.value, s.newLines);
      ShapeShifts(settle, CancelScript(id, job, job.place.value, s.newLines), true,
                  CanTransition(job.state, Cancelled), false, 0, |CancelScript(id, job, job.place.value, s.newLines)|);
    } else {
      var es := Response(cfg, id, job, job.place.value, price, now, s);
      ResponseShape(cfg, id, job, job.place.value, price, now, s);
      ShapeShifts(settle + drain, es, Stops(cfg, job, price, now, s),
                  Stops(cfg, job, price, now, s) && !Raises(cfg, job, s), Falls(cfg, job, s), 0,
                  |es| - (if Falls(cfg, job, s) then 1 + |Pin(cfg, id, job, s)| else 0));
    }
  }

  lemma {:induction false} NoMoves(es: seq<Effect>, s: JobState)
    requires forall i :: 0 <= i < |es| ==> !es[i].Move?
    ensures EndState(es, s) == s
  {
    if es != [] {
      NoMoves(es[1..], s);
    }
  }

  lemma LastMove(es: seq<Effect>, i: nat, s: JobState)
    requires i < |es| && es[i].Move? && forall j :: i < j < |es| ==> !es[j].Move?
    ensures EndState(es, s) == es[i].to
  {
    assert es == (es[..i] + [es[i]]) + es[i + 1..];
    EndConcat(es[..i], [es[i]], s);
    EndConcat(es[..i] + [es[i]], es[i + 1..], s);
    NoMoves(es[i + 1..], es[i].to);
  }

  /** Where a cut leaves the job and its machine, read off the shape. */
  lemma ShapeCut(es: seq<Effect>, stops: bool, leaves: bool, falls: bool, stopAt: int, letGo: int, k: nat,
                 h: Handle, state: JobState)
    requires Shaped(es, stops, leaves, falls, stopAt, letGo) && k <= |es| && state in ACTIVE
    requires forall i :: 0 <= i < |es| && es[i].Terminate? ==> es[i] == Terminate(h)
    ensures Terminate(h) in es[..k] <==> stops && stopAt < k
    ensures EndState(es[..k], state) in ACTIVE <==> !(leaves && letGo <= k)
    ensures EndState(es[..k], state) == Preempted <==> falls && letGo <= k < |es|
  {
    var cut := es[..k];
    if stops && stopAt < k {
      assert cut[stopAt] == Terminate(h);
    }
    if leaves && letGo <= k {
      LastMove(cut, if falls && k == |es| then k - 1 else letGo - 1, state);
    } else if stops {
      NoMoves(cut, state);
    } else if i: nat :| i < k && cut[i].Move? && forall j :: i < j < k ==> !cut[j].Move? {
      LastMove(cut, i, state);
    } else {
      NoMoreMoves(cut, |cut|);
      NoMoves(cut, state);
    }
  }

  /** Where nothing is a last move, nothing is a move. */
  lemma {:induction false} NoMoreMoves(es: seq<Effect>, n: nat)
    requires n <= |es| && forall i :: n <= i < |es| ==> !es[i].Move?
    requires forall i: nat :: i < |es| && es[i].Move? ==> exists j :: i < j < |es| && es[j].Move?
    ensures forall i :: 0 <= i < |es| ==> !es[i].Move?
  {
    if 0 < n {
      assert !es[n - 1].Move?;
      NoMoreMoves(es, n - 1);
    }
  }

  lemma {:induction false} CarefulCut(es: seq<Effect>, id: JobId, h: Handle, dead: bool, k: nat)
    requires Careful(es, id, h, dead) && k <= |es|
    ensures Careful(es[..k], id, h, dead)
    ensures forall i :: 0 <= i < k && es[i].Terminate? ==> es[i] == Terminate(h)
    decreases k
  {
    if 0 < k {
      CarefulCut(es[1..], id, h, dead || es[0] == Terminate(h), k - 1);
      assert es[..k][0] == es[0] && es[..k][1..] == es[1..][..k - 1];
      forall i | 0 <= i < k && es[i].Terminate? ensures es[i] == Terminate(h) {
        if 0 < i {
          assert es[i] == es[1..][i - 1];
        }
      }
    }
  }

  /** Cut an advance of an active job anywhere. */
  lemma AdvanceCrash(cfg: Config, w: World, id: JobId, price: real, now: real, s: Sight, k: nat)
    requires PlacesKnown(w) && |w.db.history| == |w.db.jobs|
    requires id < |w.db.jobs| && w.db.jobs[id].state in ACTIVE
    requires k <= |Script(cfg, w.db, id, price, now, s)|
    ensures CutExactly(cfg, w, Play(w, Script(cfg, w.db, id, price, now, s)[..k]), id, price, now, s, k)
  {
    hide Script, Play, Careful, Shaped, StopAt, LetGoAt, Orphans, Lost, AtCeiling, LegalTransitions;
    var job := w.db.jobs[id];
    var es := Script(cfg, w.db, id, price, now, s);
    assert PlaceKnown(w, id);
    if Reachable(cfg, job) {
      var h, w' := job.place.value, Play(w, es[..k]);
      ScriptIsCareful(cfg, w.db, id, price, now, s);
      ScriptShape(cfg, w.db, id, price, now, s);
      CarefulPrefix(w, w, es, id, h, false, k);
      CarefulCut(es, id, h, false, k);
      CarefulCut(es, id, h, false, |es|);
      CarefulEnd(w, es[..k], id, h, false);
      ShapeCut(es, Stops(cfg, job, price, now, s), Stops(cfg, job, price, now, s) && !Raises(cfg, job, s),
               Falls(cfg, job, s), StopAt(w.db, id, price, now, s), LetGoAt(cfg, w.db, id, price, now, s), k, h, job.state);
      if Terminate(h) in es[..k] {
        TerminatedStaysDown(w, es[..k], id, h, false);
      }
      OneJobDrift(w, w', id, h);
      FromItself(w, id, h);
      assert id !in Stranded(w);
    } else {
      EmptyScript(cfg, w, id, price, now, s, k);
    }
  }

  lemma FromItself(w: World, id: JobId, h: Handle)
    requires PlacesKnown(w) && id < |w.db.jobs| && w.db.jobs[id].place == Some(h)
    ensures id in Lost(w) <==> h in w.machines && !w.machines[h].live
  {
    assert PlaceKnown(w, id);
  }

  lemma EmptyScript(cfg: Config, w: World, id: JobId, price: real, now: real, s: Sight, k: nat)
    requires id < |w.db.jobs| && !Reachable(cfg, w.db.jobs[id]) && k <= |Script(cfg, w.db, id, price, now, s)|
    ensures CutExactly(cfg, w, Play(w, Script(cfg, w.db, id, price, now, s)[..k]), id, price, now, s, k)
  {
    assert Script(cfg, w.db, id, price, now, s)[..k] == [];
  }

  /** An advance that runs to its end leaves no job between attempts, and no machine of its own that is down
      still on record, unless it raised: then it leaves exactly its own job naming a machine it stopped. */
  lemma AdvanceEnds(cfg: Config, w: World, id: JobId, price: real, now: real, s: Sight)
    requires PlacesKnown(w) && |w.db.history| == |w.db.jobs|
    requires id < |w.db.jobs| && w.db.jobs[id].state in ACTIVE
    ensures var w' := Play(w, Script(cfg, w.db, id, price, now, s)); var job := w.db.jobs[id];
            && Orphans(w') == Orphans(w) && Stranded(w') == Stranded(w)
            && Lost(w') == (if Raises(cfg, job, s) then Lost(w) + {id}
                            else if Stops(cfg, job, price, now, s) then Lost(w) - {id} else Lost(w))
  {
    hide Script, Play, Orphans, Lost, Stranded, StopAt, LetGoAt, AtCeiling, LegalTransitions;
    var es := Script(cfg, w.db, id, price, now, s);
    AdvanceCrash(cfg, w, id, price, now, s, |es|);
    assert es[..|es|] == es;
    if Reachable(cfg, w.db.jobs[id]) {
      ScriptShape(cfg, w.db, id, price, now, s);
    }
  }
}
