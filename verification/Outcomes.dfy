/** What one look does to a job's row, answer by answer (gpu_broker/scheduler.py `_advance`, `_preempt`,
    `_state_for`), and the proof that the script of an advance comes to exactly that. */
module Outcomes {
  import opened Wrappers
  import opened Money
  import opened States
  import opened Ledger
  import opened Tables
  import opened World
  import opened Books
  import opened Advance
  import opened Engine
  import opened Lifetimes
  import opened Pieces

  /** The row of a job that has just ended. */
  function Ended(job: Job, to: JobState, exit: Option<int>, at: real): Job {
    job.(state := to, place := None, finishedAt := Some(at), exitCode := if exit.Some? then exit else job.exitCode)
  }

  /** The newer of the checkpoint on record and the one just found. */
  function Newer(recorded: Option<nat>, found: Option<nat>): Option<nat> {
    match (recorded, found)
    case (Some(a), Some(b)) => if a < b then found else recorded
    case (None, _) => found
    case (_, None) => recorded
  }

  /** The row of a job whose machine was taken away and collected from, before it goes back in line. */
  function Interrupted(job: Job, s: Sight): Job {
    job.(preemptions := job.preemptions + 1, checkpoint := Newer(job.checkpoint, s.saved))
  }

  /** Where a job that has been interrupted often enough with nothing new to show is pinned. */
  function PinAfter(cfg: Config, job: Job, s: Sight): Option<Tier> {
    if Newer(job.checkpoint, s.saved) == job.checkpoint && cfg.pinAfter <= job.preemptions + 1 && s.fallback.Some?
    then s.fallback else job.pinned
  }

  /** What the job has cost at this moment, not clamped. */
  function FullCost(job: Job, price: real, now: real): int {
    var hours := now - job.startedAt.GetOr(now);
    Quantize(price * (if hours < 0.0 then 0.0 else hours))
  }

  /** The row an advance leaves: untouched when nobody can reach the machine; otherwise as the pending cancellation,
      the answer and the ceiling say, in that order. */
  function Outcome(cfg: Config, job: Job, price: real, now: real, at: real, s: Sight): Job {
    var read := job.(logsFetched := job.logsFetched + s.newLines);
    var moved := read.(exitCode := if s.exit.Some? then s.exit else job.exitCode);
    var stopped := Ended(read.(logsFetched := read.logsFetched + s.lateLines), Failed, None, at);
    if job.place.None? || job.place.value.backend !in cfg.backends then job
    else if job.cancelRequested then Ended(read, Cancelled, None, at)
    else
      match s.status
      case SeenReady => if s.startFails then Ended(read, Failed, None, at) else read
      case SeenCompleted => Ended(read, Completed, s.exit, at)
      case SeenFailed => Ended(read, Failed, s.exit, at)
      case SeenGone => Ended(read, Failed, s.exit, at)
      case SeenInterrupted =>
        if job.state == Resuming then Interrupted(read, s)
        else Interrupted(read, s).(state := Queued, place := None, pinned := PinAfter(cfg, job, s))
      case SeenPending =>
        if job.reserved <= FullCost(job, price, now) then stopped
        else if job.state == Allocating && job.checkpoint.Some? then moved.(state := Resuming)
        else read
      case SeenRunning =>
        if job.reserved <= FullCost(job, price, now) then stopped
        else if job.state != Running then moved.(state := Running)
        else read
  }

  /** The same told by state alone: a job with no cancellation pending ends COMPLETED if and only if the backend said
      so, FAILED if and only if it said failed or gone, or the command could not be started, or the job had reached its
      ceiling while pending or running; an interrupted one waits again. */
  lemma EndsAsTold(cfg: Config, job: Job, price: real, now: real, at: real, s: Sight)
    requires job.state in {Allocating, Running, Resuming} && !job.cancelRequested
    requires job.place.Some? && job.place.value.backend in cfg.backends
    ensures var state := Outcome(cfg, job, price, now, at, s).state;
            && (state == Completed <==> s.status == SeenCompleted)
            && (state == Failed <==>
                  s.status in {SeenFailed, SeenGone} || (s.status == SeenReady && s.startFails)
                  || (s.status in {SeenPending, SeenRunning} && job.reserved <= FullCost(job, price, now)))
            && (state == Queued <==> s.status == SeenInterrupted && job.state != Resuming)
            && state !in {Cancelled, Refused, Reclaimed, Preempted, Checkpointing}
            && (s.status == SeenRunning && FullCost(job, price, now) < job.reserved ==> state == Running)
    ensures s.status == SeenCompleted || s.status in {SeenFailed, SeenGone} ==>
              Outcome(cfg, job, price, now, at, s).exitCode == (if s.exit.Some? then s.exit else job.exitCode)
  {
  }

  /** And what an advance leaves the job having spent: its whole cost, up to its reservation, or what it had
      already spent if that is more. */
  lemma SpentIs(cfg: Config, job: Job, spent: int, price: real, now: real)
    requires job.finishedAt.None? && job.place.Some? && job.place.value.backend in cfg.backends
    ensures var cost := FullCost(job, price, now);
            var due := if cost <= job.reserved then cost else job.reserved;
            SpentAfter(cfg, job, spent, price, now) == (if spent <= due then due else spent)
  {
  }

  lemma CancelledOutcome(cfg: Config, job: Job, price: real, now: real, at: real, s: Sight)
    requires job.cancelRequested && job.place.Some? && job.place.value.backend in cfg.backends
    ensures Outcome(cfg, job, price, now, at, s).state == Cancelled
  {
  }

  // ------------------------------------------------------------------ scripts, row by row

  /** What one effect does to the row it is about. */
  function Changed(job: Job, e: Effect, at: real): Job {
    match e
    case Annotate(_, note) => NotedJob(job, note)
    case Move(_, to, place, exit, clear) => MovedJob(job, job, to, place, exit, clear, at)
    case _ => job
  }

  function RowAfter(job: Job, es: seq<Effect>, at: real): Job
    decreases |es|
  {
    if es == [] then job else RowAfter(Changed(job, es[0], at), es[1..], at)
  }

  lemma {:induction false} RowConcat(job: Job, a: seq<Effect>, b: seq<Effect>, at: real)
    ensures RowAfter(job, a + b, at) == RowAfter(RowAfter(job, a, at), b, at)
    decreases |a|
  {
    hide Changed;
    if a == [] {
      assert a + b == b;
    } else {
      assert (a + b)[0] == a[0] && (a + b)[1..] == a[1..] + b;
      RowConcat(Changed(job, a[0], at), a[1..], b, at);
    }
  }

  lemma RowOfOne(job: Job, e: Effect, at: real)
    ensures RowAfter(job, [e], at) == Changed(job, e, at)
  {
    hide Changed;
    assert [e][1..] == [];
  }

  lemma StepRow(w: World, e: Effect, id: JobId, h: Handle, dead: bool)
    requires Careful([e], id, h, dead) && id < |w.db.jobs| == |w.db.history|
    ensures var w' := Apply(w, e);
            && id < |w'.db.jobs| == |w'.db.history| && w'.db.clock == w.db.clock
            && w'.db.jobs[id] == Changed(w.db.jobs[id], e, w.db.clock.now)
  {
    hide WritesOf, Written;
  }

  lemma {:induction false} RowPlays(w: World, es: seq<Effect>, id: JobId, h: Handle, dead: bool)
    requires Careful(es, id, h, dead) && id < |w.db.jobs| == |w.db.history|
    ensures id < |Play(w, es).db.jobs|
    ensures Play(w, es).db.jobs[id] == RowAfter(w.db.jobs[id], es, w.db.clock.now)
    decreases |es|
  {
    hide Apply, Changed;
    if es != [] {
      var e, rest := es[0], es[1..];
      assert es == [e] + rest && [e] == [] + [e];
      PlayConcat(w, [e], rest);
      PlayOne(w, [], e);
      CarefulSplits(es, id, h, dead);
      StepRow(w, e, id, h, dead);
      RowPlays(Apply(w, e), rest, id, h, dead || e == Terminate(h));
    }
  }

  // ------------------------------------------------------------------ what each part does

  lemma QuietRow(job: Job, db: Db, id: JobId, price: real, now: real, lines: nat, at: real)
    requires id < |db.jobs|
    ensures RowAfter(job, Settlement(db, id, price, now), at) == job
    ensures RowAfter(job, Drain(id, lines), at) == job.(logsFetched := job.logsFetched + lines)
  {
    if 0 < lines {
      RowOfOne(job, Annotate(id, FetchedLogs(lines)), at);
    }
    if 0 < Accrued(db, id, price, now) {
      RowOfOne(job, Accrue(id, Accrued(db, id, price, now)), at);
    }
  }

  /** Stop the machine, read the last lines, end the job. */
  lemma EndRow(job: Job, id: JobId, h: Handle, to: JobState, exit: Option<int>, lines: nat, at: real)
    requires to in TERMINAL
    ensures RowAfter(job, [Terminate(h)] + Drain(id, lines) + [Stop(id, to, exit)], at)
         == Ended(job.(logsFetched := job.logsFetched + lines), to, exit, at)
  {
    RowConcat(job, [Terminate(h)] + Drain(id, lines), [Stop(id, to, exit)], at);
    RowConcat(job, [Terminate(h)], Drain(id, lines), at);
    RowOfOne(job, Terminate(h), at);
    if 0 < lines {
      RowOfOne(job, Annotate(id, FetchedLogs(lines)), at);
    }
    RowOfOne(job.(logsFetched := job.logsFetched + lines), Stop(id, to, exit), at);
  }

  lemma CollectRow(job: Job, id: JobId, s: Sight, at: real)
    ensures RowAfter(job, Collect(id, job, s), at) == job.(checkpoint := Newer(job.checkpoint, s.saved))
    ensures Progressed(job, s) <==> Newer(job.checkpoint, s.saved) != job.checkpoint
  {
    if Progressed(job, s) {
      RowOfOne(job, Annotate(id, SaveCheckpoint(s.saved.value)), at);
    }
  }

  lemma PinRow(cfg: Config, job: Job, row: Job, id: JobId, s: Sight, at: real)
    requires row.pinned == job.pinned
    ensures RowAfter(row, Pin(cfg, id, job, s), at) == row.(pinned := PinAfter(cfg, job, s))
  {
    CollectRow(job, id, s, at);
    if Pin(cfg, id, job, s) != [] {
      RowOfOne(row, Annotate(id, PinTo(s.fallback.value)), at);
    }
  }

  lemma PreemptRow(cfg: Config, job: Job, id: JobId, h: Handle, s: Sight, at: real)
    requires job.state in {Allocating, Running, Resuming} && job.finishedAt.None?
    ensures RowAfter(job, PreemptScript(cfg, id, job, h, s), at)
         == (if job.state == Resuming then Interrupted(job, s)
             else Interrupted(job, s).(state := Queued, place := None, pinned := PinAfter(cfg, job, s)))
  {
    var front := [Terminate(h)] + Collect(id, job, s);
    RowConcat(job, front + [Annotate(id, CountPreemption)], BackInLine(cfg, id, job, s), at);
    RowConcat(job, front, [Annotate(id, CountPreemption)], at);
    RowConcat(job, [Terminate(h)], Collect(id, job, s), at);
    RowOfOne(job, Terminate(h), at);
    CollectRow(job, id, s, at);
    RowOfOne(job.(checkpoint := Newer(job.checkpoint, s.saved)), Annotate(id, CountPreemption), at);
    BackInLineRow(cfg, job, Interrupted(job, s), id, s, at);
  }

  lemma BackInLineRow(cfg: Config, job: Job, row: Job, id: JobId, s: Sight, at: real)
    requires job.state in {Allocating, Running, Resuming}
    requires row.pinned == job.pinned && row.finishedAt.None? && row.state == job.state
    ensures RowAfter(row, BackInLine(cfg, id, job, s), at)
         == (if job.state == Resuming then row
             else row.(state := Queued, place := None, pinned := PinAfter(cfg, job, s)))
  {
    if job.state != Resuming {
      var stop, back := Stop(id, Preempted, None), Move(id, Queued, None, None, false);
      var waits := row.(state := Preempted, place := None);
      RowConcat(row, [stop] + Pin(cfg, id, job, s), [back], at);
      RowConcat(row, [stop], Pin(cfg, id, job, s), at);
      RowOfOne(row, stop, at);
      PinRow(cfg, job, waits, id, s, at);
      RowOfOne(waits.(pinned := PinAfter(cfg, job, s)), back, at);
    }
  }

  lemma ForwardRow(job: Job, id: JobId, s: Sight, at: real)
    requires job.state in {Allocating, Running, Resuming} && s.status in {SeenPending, SeenRunning}
    requires job.startedAt.Some?
    ensures RowAfter(job, Forward(id, job, s), at)
         == (if s.status == SeenRunning && job.state != Running
             then job.(state := Running, exitCode := if s.exit.Some? then s.exit else job.exitCode)
             else if s.status == SeenPending && job.state == Allocating && job.checkpoint.Some?
             then job.(state := Resuming, exitCode := if s.exit.Some? then s.exit else job.exitCode)
             else job)
  {
    RowOfOne(job, Move(id, ForwardTo(job, s), None, s.exit, false), at);
  }

  /** The ceiling, whatever has been read of the log. */
  lemma CostIs(job: Job, read: Job, price: real, now: real)
    requires job.finishedAt.None? && read == job.(logsFetched := read.logsFetched)
    ensures AtCeiling(read, price, now) <==> job.reserved <= FullCost(job, price, now)
  {
  }

  /** What the answer does, for a row whose log has been read. */
  lemma ResponseRow(cfg: Config, job: Job, read: Job, id: JobId, h: Handle, price: real, now: real, s: Sight, at: real)
    requires job.state in {Allocating, Running, Resuming} && job.finishedAt.None? && job.startedAt.Some?
    requires job.place == Some(h) && h.backend in cfg.backends && !job.cancelRequested
    requires read == job.(logsFetched := job.logsFetched + s.newLines)
    ensures RowAfter(read, Response(cfg, id, read, h, price, now, s), at) == Outcome(cfg, job, price, now, at, s)
  {
    hide RowAfter, PreemptScript, Forward, Drain, AtCeiling, FullCost;
    PreemptRow(cfg, read, id, h, s, at);
    CostIs(job, read, price, now);
    EndRow(read, id, h, Failed, None, 0, at);
    EndRow(read, id, h, Failed, None, s.lateLines, at);
    ShortEndRow(read, id, h, Failed, None, at);
    if StateFor(s.status) in TERMINAL {
      ShortEndRow(read, id, h, StateFor(s.status), s.exit, at);
    }
    if s.status in {SeenPending, SeenRunning} {
      ForwardRow(read, id, s, at);
    }
    assert RowAfter(read, [], at) == read by { RowOfNothing(read, at); }
  }

  lemma RowOfNothing(job: Job, at: real)
    ensures RowAfter(job, [], at) == job
  {
  }

  lemma ShortEndRow(job: Job, id: JobId, h: Handle, to: JobState, exit: Option<int>, at: real)
    requires to in TERMINAL
    ensures RowAfter(job, [Terminate(h), Stop(id, to, exit)], at) == Ended(job, to, exit, at)
  {
    EndRow(job, id, h, to, exit, 0, at);
    assert [Terminate(h)] + Drain(id, 0) + [Stop(id, to, exit)] == [Terminate(h), Stop(id, to, exit)];
  }

  /** The log cursor plays no part in the answer. */
  lemma SameResponse(cfg: Config, id: JobId, job: Job, lines: nat, h: Handle, price: real, now: real, s: Sight)
    ensures Response(cfg, id, NotedJob(job, FetchedLogs(lines)), h, price, now, s)
         == Response(cfg, id, job, h, price, now, s)
  {
    var drained := NotedJob(job, FetchedLogs(lines));
    assert Elapsed(drained, now) == Elapsed(job, now);
    assert PreemptScript(cfg, id, drained, h, s) == PreemptScript(cfg, id, job, h, s);
    assert Forward(id, drained, s) == Forward(id, job, s);
  }

  lemma ScriptRow(cfg: Config, db: Db, id: JobId, price: real, now: real, s: Sight, at: real)
    requires id < |db.jobs| && db.jobs[id].state in {Allocating, Running, Resuming}
    requires db.jobs[id].finishedAt.None? && db.jobs[id].startedAt.Some?
    ensures RowAfter(db.jobs[id], Script(cfg, db, id, price, now, s), at)
         == Outcome(cfg, db.jobs[id], price, now, at, s)
  {
    hide RowAfter, Response, Settlement, Drain;
    var job := db.jobs[id];
    RowOfNothing(job, at);
    if Reachable(cfg, job) {
      var h, settle := job.place.value, Settlement(db, id, price, now);
      var read := job.(logsFetched := job.logsFetched + s.newLines);
      QuietRow(job, db, id, price, now, s.newLines, at);
      if job.cancelRequested {
        RowConcat(job, settle, CancelScript(id, job, h, s.newLines), at);
        EndRow(job, id, h, Cancelled, None, s.newLines, at);
      } else {
        RowConcat(job, settle + Drain(id, s.newLines), Response(cfg, id, job, h, price, now, s), at);
        RowConcat(job, settle, Drain(id, s.newLines), at);
        SameResponse(cfg, id, job, s.newLines, h, price, now, s);
        ResponseRow(cfg, job, read, id, h, price, now, s, at);
      }
    }
  }

  /** In every state the broker can reach, an advance of an active job leaves exactly that row,
      and every other job as it was. */
  lemma AdvanceOutcome(cfg: Config, done: seq<Effect>, id: JobId, price: real, now: real, s: Sight)
    requires Reached(cfg, done) && id < |After(done).db.jobs| && After(done).db.jobs[id].state in ACTIVE
    ensures var w := After(done);
            var jobs := After(done + Script(cfg, w.db, id, price, now, s)).db.jobs;
            && jobs == w.db.jobs[id := Outcome(cfg, w.db.jobs[id], price, now, w.db.clock.now, s)]
            && w.db.jobs[id].state in {Allocating, Running, Resuming}
  {
    hide Reached, After, Script, Play, StateAfter, Outcome, RowAfter;
    var w, job := After(done), After(done).db.jobs[id];
    var es := Script(cfg, w.db, id, price, now, s);
    ReachedIsGood(cfg, done);
    EveryJobTimed(cfg, done);
    assert Timed(job) && PlaceKnown(w, id);
    AdvanceMoves(cfg, w, id, price, now, s);
    PlaysOn(done, es);
    ScriptRow(cfg, w.db, id, price, now, s, w.db.clock.now);
    if Reachable(cfg, job) {
      ScriptIsCareful(cfg, w.db, id, price, now, s);
      RowPlays(w, es, id, job.place.value, false);
    } else {
      UnreachedRow(cfg, w, id, price, now, s);
    }
  }

  lemma PlaysOn(done: seq<Effect>, es: seq<Effect>)
    ensures After(done + es) == Play(After(done), es)
  {
    PlayConcat(EMPTY, done, es);
  }

  lemma UnreachedRow(cfg: Config, w: World, id: JobId, price: real, now: real, s: Sight)
    requires id < |w.db.jobs| && !Reachable(cfg, w.db.jobs[id])
    ensures Play(w, Script(cfg, w.db, id, price, now, s)) == w
    ensures Outcome(cfg, w.db.jobs[id], price, now, w.db.clock.now, s) == w.db.jobs[id]
  {
  }
}
