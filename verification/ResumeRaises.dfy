/** A concrete run in which looking at a job raises: its machine is taken away for the second time while the
    job is still restoring the checkpoint the first one left. Had it waited an hour between its two machines,
    it would have been billed for that hour. */
module ResumeRaises {
  import opened Wrappers
  import opened Money
  import opened States
  import opened Ledger
  import opened Tables
  import opened World
  import opened Books
  import opened Advance
  import opened Engine
  import opened Drift
  import opened Lifetimes
  import opened Accrual
  import opened Reaching
  import opened Billing

  const CONFIG := Config(200.0, 0.0, map[0 := Account(100.0, 0.0)], 2, {0}, 3)
  const PRICE := 100.0
  const CLOCK := Clock(0.0, 0)

  const FIRST := Handle(0, 0)
  const SECOND := Handle(0, 1)

  /** The machine has gone, with a checkpoint of one step in storage; it is still booting. */
  const TAKEN := Sight(SeenInterrupted, None, false, 0, 0, Some(1), None)
  const BOOTS := Sight(SeenPending, None, false, 0, 0, Some(1), None)

  const HOLD := Entry(Some(0), Some(0), Usd, Reserve, 100, 0, 0.0, None)

  function JobAt(state: JobState, started: bool, place: Option<Handle>, attempts: nat, preemptions: nat): Job {
    Job(0, 0, Usd, 100, state, 0.0, if started then Some(0.0) else None, None, place, None, attempts, preemptions,
        None, if 0 < preemptions then Some(1) else None, false, 0)
  }

  function Log(n: nat): seq<Row>
    requires n <= 6
  {
    [Row(None, Queued), Row(Some(Queued), Allocating), Row(Some(Allocating), Preempted), Row(Some(Preempted), Queued),
     Row(Some(Queued), Allocating), Row(Some(Allocating), Resuming)][..n]
  }

  function WorldOf(job: Job, rows: nat, machines: map<Handle, Machine>): World
    requires rows <= 6
  {
    World(Db([job], [HOLD], [Log(rows)], {}, CLOCK), machines)
  }

  const UP0 := map[FIRST := Machine(Some(0), true)]
  const DOWN0 := map[FIRST := Machine(Some(0), false)]
  const UP1 := map[FIRST := Machine(Some(0), false), SECOND := Machine(Some(0), true)]

  const S0 := EMPTY
  const S1 := WorldOf(JobAt(Queued, false, None, 0, 0), 1, map[])
  const S2 := WorldOf(JobAt(Allocating, true, Some(FIRST), 1, 0), 2, UP0)
  const S3 := WorldOf(JobAt(Queued, true, None, 1, 1), 4, DOWN0)
  const S4 := WorldOf(JobAt(Allocating, true, Some(SECOND), 2, 1), 5, UP1)
  const S5 := WorldOf(JobAt(Resuming, true, Some(SECOND), 2, 1), 6, UP1)

  /** The same an hour later. */
  const LATER := Clock(1.0, 0)
  const S3L := S3.(db := S3.db.(clock := LATER))
  const S4L := S4.(db := S4.db.(clock := LATER))

  function ScriptAt(w: World, s: Sight): seq<Effect>
    requires 0 < |w.db.jobs|
  {
    Script(CONFIG, w.db, 0, PRICE, 0.0, s)
  }

  /** Submitted, started, interrupted, started again, and booting again with a checkpoint to restore. */
  const RUN := [Submit(0, 0, Usd, 100)] + DispatchScript(FIRST, 0) + ScriptAt(S2, TAKEN)
               + DispatchScript(SECOND, 0) + ScriptAt(S4, BOOTS)

  // -------------------------------------------------------------------- the stages

  lemma HoldSums(q: Query)
    ensures Held([HOLD], q) == HeldIn(HOLD, q) && Spent([HOLD], q) == 0
    ensures Held([], q) == 0 && Spent([], q) == 0
  {
    NothingMatches([], q, Settle);
    NothingMatches([], q, Abandoned);
    assert [HOLD] == [] + [HOLD];
    HeldAppend([], HOLD, q);
    TotalAppend([], HOLD, q, Settle);
    TotalAppend([], HOLD, q, Abandoned);
  }

  lemma Submitted()
    ensures Enabled(CONFIG, S0, Submit(0, 0, Usd, 100)) && Apply(S0, Submit(0, 0, Usd, 100)) == S1
  {
    hide Held, Spent;
    QuantizeWhole(100);
    HoldSums(OfUser(0, Usd, 0));
    assert Log(1) == [Row(None, Queued)];
    assert Created(S0.db, 0, 0, Usd, 100).ledger == [HOLD];
    assert Created(S0.db, 0, 0, Usd, 100).history == [Log(1)];
  }

  lemma Fits(w: World)
    requires w == S1 || w == S3 || w == S3L
    ensures HasRoom(CONFIG, w.db, 0)
  {
    hide Held, Spent;
    HoldSums(OfPool(Usd, 0));
    assert SumHolds(w.db.jobs, w.db.ledger, ActiveIn(Usd), 1) == 0;
    assert CountActive(w.db.jobs, 0, 1) == 0;
  }

  lemma FirstStarts()
    ensures DispatchCut(S1, FIRST, 0, 3) == S2
  {
    var job := JobAt(Queued, false, None, 1, 0);
    assert WritesOf(S1.db, 0, job, Allocating, []) == [];
    assert Written(S1.db, 0, job, []) == [HOLD];
    assert Log(1) + [Row(Some(Queued), Allocating)] == Log(2);
  }

  lemma SecondStarts()
    ensures DispatchCut(S3, SECOND, 0, 3) == S4
  {
    var job := JobAt(Queued, true, None, 2, 1);
    assert WritesOf(S3.db, 0, job, Allocating, []) == [];
    assert Written(S3.db, 0, job, []) == [HOLD];
    assert Log(4) + [Row(Some(Queued), Allocating)] == Log(5);
    assert DOWN0[SECOND := Machine(Some(0), true)] == UP1;
  }

  /** No time has passed, so nothing is settled. */
  lemma NothingDue(job: Job)
    requires job.startedAt == Some(0.0) && job.finishedAt.None? && 0 < job.reserved
    ensures CostSoFar(job, PRICE, 0.0) == 0 && !AtCeiling(job, PRICE, 0.0)
  {
    assert Elapsed(job, 0.0) == 0.0;
    QuantizeWhole(0);
  }

  lemma TakenIs()
    ensures ScriptAt(S2, TAKEN) == [Terminate(FIRST), Annotate(0, SaveCheckpoint(1)), Annotate(0, CountPreemption),
                                    Stop(0, Preempted, None), Move(0, Queued, None, None, false)]
  {
    hide Spent, CostSoFar;
    NothingDue(S2.db.jobs[0]);
    HoldSums(OfJobAnyCurrency(0));
  }

  lemma BootsIs()
    ensures ScriptAt(S4, BOOTS) == [Move(0, Resuming, None, None, false)]
  {
    hide Spent, CostSoFar, AtCeiling;
    NothingDue(S4.db.jobs[0]);
    HoldSums(OfJobAnyCurrency(0));
  }

  lemma PlayFive(w: World, a: Effect, b: Effect, c: Effect, d: Effect, e: Effect)
    ensures Play(w, [a, b, c, d, e]) == Apply(Apply(Apply(Apply(Apply(w, a), b), c), d), e)
  {
    hide Apply;
    assert [a] == [] + [a] && [a, b] == [a] + [b] && [a, b, c] == [a, b] + [c];
    assert [a, b, c, d] == [a, b, c] + [d] && [a, b, c, d, e] == [a, b, c, d] + [e];
    PlayOne(w, [], a);
    PlayOne(w, [a], b);
    PlayOne(w, [a, b], c);
    PlayOne(w, [a, b, c], d);
    PlayOne(w, [a, b, c, d], e);
  }

  /** A move that writes no ledger row. */
  lemma QuietMove(w: World, to: JobState, place: Option<Handle>, clear: bool)
    requires |w.db.jobs| == 1 == |w.db.history| && to !in TERMINAL
    ensures Apply(w, Move(0, to, place, None, clear))
         == w.(db := w.db.(jobs := [MovedJob(w.db.jobs[0], w.db.jobs[0], to, place, None, clear, w.db.clock.now)],
                           history := [w.db.history[0] + [Row(Some(w.db.jobs[0].state), to)]]))
  {
    var job := w.db.jobs[0];
    assert WritesOf(w.db, 0, job, to, []) == [];
    assert Written(w.db, 0, job, []) == w.db.ledger;
  }

  lemma TakenLeads()
    ensures Play(S2, ScriptAt(S2, TAKEN)) == S3
  {
    hide Apply;
    TakenIs();
    PlayFive(S2, Terminate(FIRST), Annotate(0, SaveCheckpoint(1)), Annotate(0, CountPreemption),
             Stop(0, Preempted, None), Move(0, Queued, None, None, false));
    var noted := WorldOf(JobAt(Allocating, true, Some(FIRST), 1, 1), 2, DOWN0);
    NotesLead();
    var preempted := WorldOf(JobAt(Preempted, true, None, 1, 1), 3, DOWN0);
    assert Log(2) + [Row(Some(Allocating), Preempted)] == Log(3) && Log(3) + [Row(Some(Preempted), Queued)] == Log(4);
    QuietMove(noted, Preempted, None, true);
    QuietMove(preempted, Queued, None, false);
  }

  lemma NotesLead()
    ensures Apply(Apply(Apply(S2, Terminate(FIRST)), Annotate(0, SaveCheckpoint(1))), Annotate(0, CountPreemption))
         == WorldOf(JobAt(Allocating, true, Some(FIRST), 1, 1), 2, DOWN0)
  {
    var job := JobAt(Allocating, true, Some(FIRST), 1, 0);
    assert UP0[FIRST := Machine(Some(0), false)] == DOWN0;
    assert [job][0 := job.(checkpoint := Some(1))] == [job.(checkpoint := Some(1))];
  }

  lemma BootsLeads()
    ensures Play(S4, ScriptAt(S4, BOOTS)) == S5
  {
    hide Apply;
    BootsIs();
    assert [Move(0, Resuming, None, None, false)] == [] + [Move(0, Resuming, None, None, false)];
    PlayOne(S4, [], Move(0, Resuming, None, None, false));
    assert Log(5) + [Row(Some(Allocating), Resuming)] == Log(6);
    QuietMove(S4, Resuming, None, false);
  }

  lemma RunReaches()
    ensures Reached(CONFIG, RUN) && After(RUN) == S5
  {
    hide Reached, After, Enabled, Apply, HasRoom, DispatchCut, Script, DispatchScript;
    var a := [] + [Submit(0, 0, Usd, 100)];
    var b := a + DispatchScript(FIRST, 0);
    var c := b + ScriptAt(S2, TAKEN);
    var d := c + DispatchScript(SECOND, 0);
    StartsEmpty();
    Submitted();
    ReachesOneMore(CONFIG, [], Submit(0, 0, Usd, 100));
    Fits(S1);
    FirstStarts();
    DispatchReached(CONFIG, a, FIRST, 0);
    AdvanceReached(CONFIG, b, 0, PRICE, 0.0, TAKEN);
    TakenLeads();
    Fits(S3);
    SecondStarts();
    DispatchReached(CONFIG, c, SECOND, 0);
    AdvanceReached(CONFIG, d, 0, PRICE, 0.0, BOOTS);
    BootsLeads();
    assert RUN == d + ScriptAt(S4, BOOTS);
  }

  lemma StartsEmpty()
    ensures Reached(CONFIG, []) && After([]) == S0
  {
  }

  /** The job is active, naming a machine that is down. */
  predicate LeftLost(w: World) {
    |w.db.jobs| == 1 && w.db.jobs[0].state == Resuming && Lost(w) == {0}
  }

  /** The broker can get there: at the end of this run the job is RESUMING, and a poll that finds its machine
      interrupted raises. By then the machine is stopped, and the job is left lost. */
  lemma InterruptedWhileResuming()
    ensures Reached(CONFIG, RUN) && After(RUN) == S5
    ensures S5.db.jobs[0].state == Resuming && Raises(CONFIG, S5.db.jobs[0], TAKEN)
    ensures Reached(CONFIG, RUN + ScriptAt(S5, TAKEN)) && LeftLost(After(RUN + ScriptAt(S5, TAKEN)))
  {
    hide Reached, After, Script, Lost;
    RunReaches();
    ReachedIsGood(CONFIG, RUN);
    AdvanceReached(CONFIG, RUN, 0, PRICE, 0.0, TAKEN);
    AdvanceEnds(CONFIG, S5, 0, PRICE, 0.0, TAKEN);
    AdvanceMoves(CONFIG, S5, 0, PRICE, 0.0, TAKEN);
    NothingLost();
  }

  lemma NothingLost()
    ensures Lost(S5) == {}
  {
  }

  // ------------------------------------------------------------- an hour between machines

  const START := [Submit(0, 0, Usd, 100)] + DispatchScript(FIRST, 0)
  const GAP := [Elapse(LATER)] + DispatchScript(SECOND, 0)

  lemma StartReaches()
    ensures Reached(CONFIG, START) && After(START) == S2
    ensures Reached(CONFIG, START + ScriptAt(S2, TAKEN)) && After(START + ScriptAt(S2, TAKEN)) == S3
  {
    hide Reached, After, Enabled, Apply, HasRoom, DispatchCut, Script, DispatchScript;
    var a := [] + [Submit(0, 0, Usd, 100)];
    StartsEmpty();
    Submitted();
    ReachesOneMore(CONFIG, [], Submit(0, 0, Usd, 100));
    Fits(S1);
    FirstStarts();
    DispatchReached(CONFIG, a, FIRST, 0);
    assert START == a + DispatchScript(FIRST, 0);
    AdvanceReached(CONFIG, START, 0, PRICE, 0.0, TAKEN);
    TakenLeads();
  }

  lemma LaterStarts()
    ensures DispatchCut(S3L, SECOND, 0, 3) == S4L
  {
    var job := JobAt(Queued, true, None, 2, 1);
    assert WritesOf(S3L.db, 0, job, Allocating, []) == [];
    assert Written(S3L.db, 0, job, []) == [HOLD];
    assert Log(4) + [Row(Some(Queued), Allocating)] == Log(5);
    assert DOWN0[SECOND := Machine(Some(0), true)] == UP1;
  }

  lemma HourPasses()
    ensures Enabled(CONFIG, S3, Elapse(LATER)) && Apply(S3, Elapse(LATER)) == S3L
  {
  }

  lemma GapReaches()
    ensures Reached(CONFIG, START + ScriptAt(S2, TAKEN) + GAP) && After(START + ScriptAt(S2, TAKEN) + GAP) == S4L
  {
    hide Reached, After, Enabled, Apply, HasRoom, DispatchCut, Script, DispatchScript;
    var taken := START + ScriptAt(S2, TAKEN);
    StartReaches();
    HourPasses();
    ReachesOneMore(CONFIG, taken, Elapse(LATER));
    Fits(S3L);
    LaterStarts();
    DispatchReached(CONFIG, taken + [Elapse(LATER)], SECOND, 0);
    assert taken + GAP == taken + [Elapse(LATER)] + DispatchScript(SECOND, 0);
  }

  lemma GapSpendsNothing()
    ensures forall i :: 0 <= i < |GAP| ==> !SpendsOn(GAP[i], 0)
  {
  }

  lemma HourCosts()
    ensures CostSoFar(S2.db.jobs[0], PRICE, 1.0) == 100 && CostSoFar(S2.db.jobs[0], PRICE, 0.0) == 0
    ensures Spent(S2.db.ledger, OfJobAnyCurrency(0)) == 0
  {
    hide Spent;
    NothingDue(S2.db.jobs[0]);
    HoldSums(OfJobAnyCurrency(0));
    assert Elapsed(S2.db.jobs[0], 1.0) == 1.0;
    QuantizeWhole(100);
  }

  /** Interrupted at once and given its next machine an hour later, the job is charged its whole reservation, an hour's
      price, by the first look at that machine: it never had one for any of that hour. */
  lemma HourWithoutMachineIsBilled()
    ensures Reached(CONFIG, START + ScriptAt(S2, TAKEN) + GAP) && After(START + ScriptAt(S2, TAKEN) + GAP) == S4L
    ensures Falls(CONFIG, S2.db.jobs[0], TAKEN) && GrowsPast(S2.db.jobs[0], PRICE, 0.0, 1.0)
    ensures Settlement(S4L.db, 0, PRICE, 1.0) == [Accrue(0, 100)]
  {
    hide Reached, After, Script, Spent, CostSoFar, GrowsPast, Settlement;
    StartReaches();
    GapReaches();
    GapSpendsNothing();
    HourCosts();
    WaitBetweenAttemptsIsBilled(CONFIG, START, GAP, 0, PRICE, 0.0, 1.0, TAKEN);
  }
}
