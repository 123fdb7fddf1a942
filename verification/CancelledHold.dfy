/** A concrete run in which a hold that is only cancelled lets its owner spend twice the budget of a later month:
    nothing taken before the month is ever spent in it. */
module CancelledHold {
  import opened Wrappers
  import opened Money
  import opened States
  import opened Ledger
  import opened Tables
  import opened World
  import opened Books
  import opened Admission
  import opened Advance
  import opened Engine
  import opened Drift
  import opened Reaching
  import opened Broker
  import opened Carryover

  /** One hundred cents a month for user 0, and one machine of a hundred cents an hour at a time. */
  const CONFIG := Config(200.0, 0.0, map[0 := Account(100.0, 0.0)], 1, {0}, 3)
  const LIMITS := Limits(map[0 := Gpu(Usd, 100.0)], 24.0, 0.5, 100, 200.0, 0.0, 5)
  const PRICE := 100.0
  const MACHINE := Handle(0, 0)

  function Row1(job: JobId, kind: Kind, amount: int, period: Period, at: real): Entry {
    Entry(Some(job), Some(0), Usd, kind, amount, period, at, None)
  }

  function JobAt(reserved: int, state: JobState, at: real, started: Option<real>, ended: Option<real>,
                 place: Option<Handle>, exit: Option<int>): Job {
    Job(0, 0, Usd, reserved, state, at, started, ended, place, exit, if started.Some? then 1 else 0, 0,
        None, None, false, 0)
  }

  const HOLD := Row1(0, Reserve, 100, 0, 0.0)
  const BACK := Row1(0, Release, 100, 1, 1.0)
  const MORE := Row1(1, Reserve, 200, 1, 1.0)
  const DONE := Row1(1, Settle, 200, 1, 3.0)
  const REST := Row1(1, Release, 200, 1, 3.0)

  const WAITING := [Row(None, Queued)]
  const GIVEN_UP := [Row(None, Queued), Row(Some(Queued), Cancelled)]
  const BOOTING := [Row(None, Queued), Row(Some(Queued), Allocating)]
  const FINISHED := [Row(None, Queued), Row(Some(Queued), Allocating), Row(Some(Allocating), Completed)]

  const J0 := JobAt(100, Queued, 0.0, None, None, None, None)
  const J0X := JobAt(100, Cancelled, 0.0, None, Some(1.0), None, None)
  const J1 := JobAt(200, Queued, 1.0, None, None, None, None)
  const J1R := JobAt(200, Allocating, 1.0, Some(1.0), None, Some(MACHINE), None)
  const J1X := JobAt(200, Completed, 1.0, Some(1.0), Some(3.0), None, Some(0))

  const UP := map[MACHINE := Machine(Some(1), true)]
  const DOWN := map[MACHINE := Machine(Some(1), false)]

  const S0 := EMPTY
  const S1 := World(Db([J0], [HOLD], [WAITING], {}, Clock(0.0, 0)), map[])
  const S2 := World(Db([J0], [HOLD], [WAITING], {}, Clock(1.0, 1)), map[])
  const S3 := World(Db([J0X], [HOLD, BACK], [GIVEN_UP], {}, Clock(1.0, 1)), map[])
  const S4 := World(Db([J0X, J1], [HOLD, BACK, MORE], [GIVEN_UP, WAITING], {}, Clock(1.0, 1)), map[])
  const S5 := World(Db([J0X, J1R], [HOLD, BACK, MORE], [GIVEN_UP, BOOTING], {}, Clock(1.0, 1)), UP)
  const S6 := World(Db([J0X, J1R], [HOLD, BACK, MORE], [GIVEN_UP, BOOTING], {}, Clock(3.0, 1)), UP)
  const S7 := World(Db([J0X, J1X], [HOLD, BACK, MORE, DONE, REST], [GIVEN_UP, FINISHED], {}, Clock(3.0, 1)), DOWN)

  /** Submitted in one month; in the next cancelled, and twice the budget asked for instead, started, and run for the
      two hours that costs. */
  const BEFORE := [Submit(0, 0, Usd, 100)] + [Elapse(Clock(1.0, 1))]
  const AFTERWARDS := StopScript(CONFIG, 0, J0, Cancelled) + [Submit(0, 0, Usd, 200)] + DispatchScript(MACHINE, 1)
                      + [Elapse(Clock(3.0, 1))] + Script(CONFIG, S6.db, 1, PRICE, 3.0, OVER)

  // --------------------------------------------------------------------- the sums

  lemma SumsOf(l: seq<Entry>, e: Entry, q: Query)
    ensures Held(l + [e], q) == Held(l, q) + HeldIn(e, q)
    ensures Total(l + [e], q, Settle) == Total(l, q, Settle) + AmountIn(e, q, Settle)
    ensures Total(l + [e], q, Abandoned) == Total(l, q, Abandoned) + AmountIn(e, q, Abandoned)
  {
    HeldAppend(l, e, q);
    TotalAppend(l, e, q, Settle);
    TotalAppend(l, e, q, Abandoned);
  }

  lemma Sums(q: Query)
    ensures Held([HOLD], q) == HeldIn(HOLD, q) && Spent([HOLD], q) == 0 && Total([HOLD], q, Abandoned) == 0
    ensures Total([HOLD], q, Settle) == 0
    ensures Held([HOLD, BACK], q) == HeldIn(HOLD, q) + HeldIn(BACK, q) && Spent([HOLD, BACK], q) == 0
    ensures Held([HOLD, BACK, MORE], q) == HeldIn(HOLD, q) + HeldIn(BACK, q) + HeldIn(MORE, q)
    ensures Spent([HOLD, BACK, MORE], q) == 0
    ensures Held(S7.db.ledger, q) == Held([HOLD, BACK, MORE], q) + HeldIn(REST, q)
    ensures Total(S7.db.ledger, q, Settle) == AmountIn(DONE, q, Settle)
  {
    hide Held, Total;
    NothingMatches([], q, Settle);
    NothingMatches([], q, Abandoned);
    var l4 := [HOLD, BACK, MORE, DONE];
    assert [HOLD] == [] + [HOLD] && [HOLD, BACK] == [HOLD] + [BACK] && [HOLD, BACK, MORE] == [HOLD, BACK] + [MORE];
    assert l4 == [HOLD, BACK, MORE] + [DONE] && S7.db.ledger == l4 + [REST];
    SumsOf([], HOLD, q);
    SumsOf([HOLD], BACK, q);
    SumsOf([HOLD, BACK], MORE, q);
    SumsOf([HOLD, BACK, MORE], DONE, q);
    SumsOf(l4, REST, q);
  }

  // ------------------------------------------------------------------- the stages

  lemma FirstSubmits()
    ensures Enabled(CONFIG, S0, Submit(0, 0, Usd, 100)) && Apply(S0, Submit(0, 0, Usd, 100)) == S1
  {
    hide Held, Total;
    QuantizeWhole(100);
    NothingMatches([], OfUser(0, Usd, 0), Settle);
    NothingMatches([], OfUser(0, Usd, 0), Abandoned);
    assert Created(S0.db, 0, 0, Usd, 100).ledger == [HOLD];
    assert Created(S0.db, 0, 0, Usd, 100).history == [WAITING];
  }

  lemma Cancels()
    ensures StopScript(CONFIG, 0, J0, Cancelled) == [Stop(0, Cancelled, None)]
    ensures Enabled(CONFIG, S2, Stop(0, Cancelled, None)) && Apply(S2, Stop(0, Cancelled, None)) == S3
  {
    hide Held, Total;
    Sums(OfJob(0, Usd));
    assert ReleaseOfRemainder(100, Usd, []) == [LedgerWrite(Release, 100, Usd)];
    assert WritesOf(S2.db, 0, J0, Cancelled, []) == [LedgerWrite(Release, 100, Usd)];
    assert Written(S2.db, 0, J0, [LedgerWrite(Release, 100, Usd)]) == [HOLD, BACK];
    assert WAITING + [Row(Some(Queued), Cancelled)] == GIVEN_UP;
  }

  lemma SecondSubmits()
    ensures Enabled(CONFIG, S3, Submit(0, 0, Usd, 200)) && Apply(S3, Submit(0, 0, Usd, 200)) == S4
  {
    hide Held, Total;
    QuantizeWhole(100);
    Sums(OfUser(0, Usd, 1));
    assert Created(S3.db, 0, 0, Usd, 200).ledger == [HOLD, BACK, MORE];
    assert Created(S3.db, 0, 0, Usd, 200).history == [GIVEN_UP, WAITING];
  }

  lemma SecondFits()
    ensures HasRoom(CONFIG, S4.db, 1)
  {
    Sums(OfPool(Usd, 1));
    assert SumHolds(S4.db.jobs, S4.db.ledger, ActiveIn(Usd), 1) == 0;
    assert SumHolds(S4.db.jobs, S4.db.ledger, ActiveIn(Usd), 2) == 0;
    assert CountActive(S4.db.jobs, 0, 1) == 0;
    assert CountActive(S4.db.jobs, 0, 2) == 0;
  }

  lemma Starts()
    ensures DispatchCut(S4, MACHINE, 1, 3) == S5
  {
    assert WritesOf(S4.db, 1, J1, Allocating, []) == [];
    assert WAITING + [Row(Some(Queued), Allocating)] == BOOTING;
    var job := J1.(attempts := 1);
    var db := Noted(S4.db, 1, CountAttempt);
    assert db.jobs == [J0X, job];
    assert Written(db, 1, job, []) == S4.db.ledger;
    assert [J0X, job][1 := J1R] == [J0X, J1R];
    assert [GIVEN_UP, WAITING][1 := BOOTING] == [GIVEN_UP, BOOTING];
    assert map[][MACHINE := Machine(Some(1), true)] == UP;
  }

  lemma ScriptIs()
    ensures Script(CONFIG, S6.db, 1, PRICE, 3.0, OVER) == [Accrue(1, 200), Terminate(MACHINE), Stop(1, Completed, Some(0))]
  {
    hide Held, Total;
    QuantizeWhole(200);
    Sums(OfJobAnyCurrency(1));
  }

  lemma Ends()
    ensures Apply(Apply(Apply(S6, Accrue(1, 200)), Terminate(MACHINE)), Stop(1, Completed, Some(0))) == S7
  {
    hide Held, Total;
    var w := Apply(Apply(S6, Accrue(1, 200)), Terminate(MACHINE));
    assert w.db.ledger == S6.db.ledger + [DONE] + [REST];
    assert w.db.ledger == S7.db.ledger;
    assert w.machines == DOWN;
    Sums(OfJob(1, Usd));
    assert WritesOf(w.db, 1, J1R, Completed, []) == [];
    assert Written(w.db, 1, J1R, []) == S7.db.ledger;
    assert BOOTING + [Row(Some(Allocating), Completed)] == FINISHED;
    assert [GIVEN_UP, BOOTING][1 := FINISHED] == [GIVEN_UP, FINISHED];
    assert [J0X, J1R][1 := J1X] == [J0X, J1X];
  }

  lemma PlayThree(w: World, d: Effect, e: Effect, f: Effect)
    ensures Play(w, [d, e, f]) == Apply(Apply(Apply(w, d), e), f)
  {
    hide Apply;
    assert [d] == [] + [d] && [d, e] == [d] + [e] && [d, e, f] == [d, e] + [f];
    PlayOne(w, [], d);
    PlayOne(w, [d], e);
    PlayOne(w, [d, e], f);
  }

  lemma StartsEmpty()
    ensures Reached(CONFIG, []) && After([]) == S0
  {
  }

  lemma MonthEnds()
    ensures Enabled(CONFIG, S1, Elapse(Clock(1.0, 1))) && Apply(S1, Elapse(Clock(1.0, 1))) == S2
  {
  }

  lemma MonthBegins()
    ensures Reached(CONFIG, BEFORE) && After(BEFORE) == S2
  {
    hide Reached, After, Enabled, Apply;
    StartsEmpty();
    FirstSubmits();
    MonthEnds();
    ReachesOneMore(CONFIG, [], Submit(0, 0, Usd, 100));
    ReachesOneMore(CONFIG, [] + [Submit(0, 0, Usd, 100)], Elapse(Clock(1.0, 1)));
    assert BEFORE == [] + [Submit(0, 0, Usd, 100)] + [Elapse(Clock(1.0, 1))];
  }

  lemma RunReaches()
    ensures Reached(CONFIG, BEFORE + AFTERWARDS) && After(BEFORE + AFTERWARDS) == S7
  {
    hide Reached, After, Enabled, Apply, HasRoom, DispatchCut, Script, DispatchScript, StopScript;
    var a := BEFORE + [Stop(0, Cancelled, None)];
    var b := a + [Submit(0, 0, Usd, 200)];
    var c := b + DispatchScript(MACHINE, 1);
    var d := c + [Elapse(Clock(3.0, 1))];
    MonthBegins();
    Cancels();
    ReachesOneMore(CONFIG, BEFORE, Stop(0, Cancelled, None));
    SecondSubmits();
    ReachesOneMore(CONFIG, a, Submit(0, 0, Usd, 200));
    SecondFits();
    Starts();
    DispatchReached(CONFIG, b, MACHINE, 1);
    TwoHours();
    ReachesOneMore(CONFIG, c, Elapse(Clock(3.0, 1)));
    ScriptIs();
    AdvanceReached(CONFIG, d, 1, PRICE, 3.0, OVER);
    PlayThree(S6, Accrue(1, 200), Terminate(MACHINE), Stop(1, Completed, Some(0)));
    Ends();
    assert BEFORE + AFTERWARDS == d + Script(CONFIG, S6.db, 1, PRICE, 3.0, OVER);
  }

  lemma TwoHours()
    ensures Enabled(CONFIG, S5, Elapse(Clock(3.0, 1))) && Apply(S5, Elapse(Clock(3.0, 1))) == S6
  {
  }

  /** The user ends the month with nothing held, having spent twice its budget, on a job submitted and run inside it:
      the hold of the month before was cancelled in this one, and that alone made the room. */
  lemma CancelledHoldPassesBudget()
    ensures Reached(CONFIG, BEFORE) && After(BEFORE) == S2 && Carried(S2.db, 0, Usd) == 100
    ensures Reached(CONFIG, BEFORE + AFTERWARDS) && After(BEFORE + AFTERWARDS) == S7
    ensures CONFIG.UserBudget(0, Usd) == 100.0 && SettledNow(S7.db, 0, Usd) == 200
    ensures Held(S7.db.ledger, OfUserEver(0, Usd)) == 0 && Total(S7.db.ledger, OfJobAnyCurrency(0), Settle) == 0
  {
    hide Reached, After, Held, Total;
    MonthBegins();
    RunReaches();
    Sums(OfUserOutside(0, Usd, 1));
    Sums(OfUser(0, Usd, 1));
    Sums(OfUserEver(0, Usd));
    Sums(OfJobAnyCurrency(0));
  }

  /** The conditions under which a carried hold decides are met where the month begins, so there it does. */
  lemma CarriedDecidesHere()
    ensures Unhindered(CONFIG, LIMITS, S2.db, 0, 0, 1.0, 0)
    ensures !StaysWithin(CONFIG, LIMITS, BEFORE, 0, Usd)
  {
    hide Reached, After, Held, Total, StaysWithin;
    MonthBegins();
    Sums(OfUserOutside(0, Usd, 1));
    Sums(OfUser(0, Usd, 1));
    NothingElseHeld();
    QuantizeWhole(100);
    StaysWithinIff(CONFIG, LIMITS, BEFORE, 0, 0, 1.0, 0);
  }

  lemma NothingElseHeld()
    ensures PoolCommitted(S2.db, Usd) == 0
  {
    Sums(OfPool(Usd, 1));
    assert SumHolds(S2.db.jobs, S2.db.ledger, ActiveIn(Usd), 1) == 0;
  }
}
