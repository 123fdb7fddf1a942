/** A concrete run in which one user spends more in a billing period than their budget for it:
    a hold taken in one period is settled in the next, and another is taken and settled there. */
module Overspend {
  import opened Wrappers
  import opened Money
  import opened States
  import opened Ledger
  import opened Tables
  import opened World
  import opened Books
  import opened Theorems
  import opened Advance
  import opened Engine
  import opened Drift
  import opened Reaching

  /** One hundred cents a month for user 0, and two machines of a hundred cents an hour in the pool. */
  const CONFIG := Config(200.0, 0.0, map[0 := Account(100.0, 0.0)], 2, {0}, 3)
  const PRICE := 100.0

  const FIRST := Handle(0, 0)
  const SECOND := Handle(0, 1)

  /** The command has finished. */
  const OVER := Sight(SeenCompleted, Some(0), false, 0, 0, None, None)

  // -------------------------------------------------------------------- the states

  function Row1(job: JobId, kind: Kind, period: Period, at: real): Entry {
    Entry(Some(job), Some(0), Usd, kind, 100, period, at, None)
  }

  function JobAt(state: JobState, at: real, started: Option<real>, ended: Option<real>, place: Option<Handle>): Job {
    Job(0, 0, Usd, 100, state, at, started, ended, place, if ended.Some? then Some(0) else None,
        if started.Some? then 1 else 0, 0, None, None, false, 0)
  }

  const WAITING := [Row(None, Queued)]
  const BOOTING := [Row(None, Queued), Row(Some(Queued), Allocating)]
  const FINISHED := [Row(None, Queued), Row(Some(Queued), Allocating), Row(Some(Allocating), Completed)]

  /** Submitted at `at`, started at once, and over an hour later. */
  function Waits(at: real): Job { JobAt(Queued, at, None, None, None) }
  function Boots(at: real, h: Handle): Job { JobAt(Allocating, at, Some(at), None, Some(h)) }
  function Ends(at: real): Job { JobAt(Completed, at, Some(at), Some(at + 1.0), None) }

  const HOLD0 := Row1(0, Reserve, 0, 0.0)
  const HOLD1 := Row1(1, Reserve, 1, 1.0)
  const L4 := [HOLD0, Row1(0, Settle, 1, 1.0), Row1(0, Release, 1, 1.0)]
  const L5 := [HOLD0, Row1(0, Settle, 1, 1.0), Row1(0, Release, 1, 1.0), HOLD1]
  const L8 := [HOLD0, Row1(0, Settle, 1, 1.0), Row1(0, Release, 1, 1.0), HOLD1,
               Row1(1, Settle, 1, 2.0), Row1(1, Release, 1, 2.0)]

  const UP0 := map[FIRST := Machine(Some(0), true)]
  const DOWN0 := map[FIRST := Machine(Some(0), false)]
  const UP1 := map[FIRST := Machine(Some(0), false), SECOND := Machine(Some(1), true)]
  const DOWN1 := map[FIRST := Machine(Some(0), false), SECOND := Machine(Some(1), false)]

  const S0 := EMPTY
  const S1 := World(Db([Waits(0.0)], [HOLD0], [WAITING], {}, Clock(0.0, 0)), map[])
  const S2 := World(Db([Boots(0.0, FIRST)], [HOLD0], [BOOTING], {}, Clock(0.0, 0)), UP0)
  const S3 := World(Db([Boots(0.0, FIRST)], [HOLD0], [BOOTING], {}, Clock(1.0, 1)), UP0)
  const S4 := World(Db([Ends(0.0)], L4, [FINISHED], {}, Clock(1.0, 1)), DOWN0)
  const S5 := World(Db([Ends(0.0), Waits(1.0)], L5, [FINISHED, WAITING], {}, Clock(1.0, 1)), DOWN0)
  const S6 := World(Db([Ends(0.0), Boots(1.0, SECOND)], L5, [FINISHED, BOOTING], {}, Clock(1.0, 1)), UP1)
  const S7 := World(Db([Ends(0.0), Boots(1.0, SECOND)], L5, [FINISHED, BOOTING], {}, Clock(2.0, 1)), UP1)
  const S8 := World(Db([Ends(0.0), Ends(1.0)], L8, [FINISHED, FINISHED], {}, Clock(2.0, 1)), DOWN1)

  /** What the broker does: twice the same, an hour and a month's end apart. */
  function LifeOf(id: JobId, h: Handle, before: Db, moment: Clock): seq<Effect>
    requires id < |before.jobs|
  {
    [Submit(0, 0, Usd, 100)] + DispatchScript(h, id) + [Elapse(moment)]
    + Script(CONFIG, before, id, PRICE, moment.now, OVER)
  }

  const RUN := LifeOf(0, FIRST, S3.db, Clock(1.0, 1)) + LifeOf(1, SECOND, S7.db, Clock(2.0, 1))

  // --------------------------------------------------------------------- the sums

  lemma SumsOf(l: seq<Entry>, e: Entry, q: Query)
    ensures Held(l + [e], q) == Held(l, q) + HeldIn(e, q)
    ensures Total(l + [e], q, Settle) == Total(l, q, Settle) + AmountIn(e, q, Settle)
    ensures Total(l + [e], q, Abandoned) == Total(l, q, Abandoned) + AmountIn(e, q, Abandoned)
  {
    HeldAppend(l, e, q);
    TotalAppend(l, e, q, Settle);
    TotalAppend(l, e, q, Abandoned);
  }

  /** Nothing here is abandoned, so what is spent is what is settled. */
  lemma Sums(q: Query)
    ensures Held([HOLD0], q) == HeldIn(HOLD0, q) && Spent([HOLD0], q) == 0
    ensures Held(L4, q) == HeldIn(HOLD0, q) + HeldIn(L4[2], q) && Spent(L4, q) == AmountIn(L4[1], q, Settle)
    ensures Held(L5, q) == Held(L4, q) + HeldIn(HOLD1, q) && Spent(L5, q) == Spent(L4, q)
    ensures Total(L8, q, Settle) == AmountIn(L8[1], q, Settle) + AmountIn(L8[4], q, Settle)
  {
    hide Held, Total;
    assert Held([], q) == 0 && Total([], q, Settle) == 0 && Total([], q, Abandoned) == 0 by {
      NothingMatches([], q, Settle);
      NothingMatches([], q, Abandoned);
    }
    var l3 := [HOLD0, Row1(0, Settle, 1, 1.0)];
    var l7 := L5 + [L8[4]];
    assert [HOLD0] == [] + [HOLD0] && l3 == [HOLD0] + [L4[1]] && L4 == l3 + [L4[2]] && L5 == L4 + [HOLD1];
    assert L8 == l7 + [L8[5]];
    SumsOf([], HOLD0, q);
    SumsOf([HOLD0], L4[1], q);
    SumsOf(l3, L4[2], q);
    SumsOf(L4, HOLD1, q);
    SumsOf(L5, L8[4], q);
    SumsOf(l7, L8[5], q);
  }

  // ------------------------------------------------------------------- the stages

  lemma SubmitFirst()
    ensures Enabled(CONFIG, S0, Submit(0, 0, Usd, 100)) && Apply(S0, Submit(0, 0, Usd, 100)) == S1
  {
    hide Held, Total;
    QuantizeWhole(100);
    NothingMatches([], OfUser(0, Usd, 0), Settle);
    NothingMatches([], OfUser(0, Usd, 0), Abandoned);
    assert Created(S0.db, 0, 0, Usd, 100).ledger == [HOLD0];
    assert Created(S0.db, 0, 0, Usd, 100).history == [WAITING];
  }

  lemma SubmitSecond()
    ensures Enabled(CONFIG, S4, Submit(0, 0, Usd, 100)) && Apply(S4, Submit(0, 0, Usd, 100)) == S5
  {
    hide Held, Total;
    QuantizeWhole(100);
    Sums(OfUser(0, Usd, 1));
    assert Created(S4.db, 0, 0, Usd, 100).ledger == L5;
    assert Created(S4.db, 0, 0, Usd, 100).history == [FINISHED, WAITING];
  }

  lemma SubmitStage(cfg: Config, done: seq<Effect>, second: bool)
    requires cfg == CONFIG && Reached(cfg, done) && After(done) == if second then S4 else S0
    ensures var more := done + [Submit(0, 0, Usd, 100)];
            Reached(cfg, more) && After(more) == if second then S5 else S1
  {
    hide Reached, After, Enabled, Apply;
    SubmitFirst();
    SubmitSecond();
    ReachesOneMore(cfg, done, Submit(0, 0, Usd, 100));
  }

  lemma FirstFits()
    ensures HasRoom(CONFIG, S1.db, 0)
  {
    Sums(OfPool(Usd, 0));
    assert SumHolds(S1.db.jobs, S1.db.ledger, ActiveIn(Usd), 1) == 0;
    assert CountActive(S1.db.jobs, 0, 1) == 0;
  }

  lemma SecondFits()
    ensures HasRoom(CONFIG, S5.db, 1)
  {
    Sums(OfPool(Usd, 1));
    assert SumHolds(S5.db.jobs, S5.db.ledger, ActiveIn(Usd), 1) == 0;
    assert SumHolds(S5.db.jobs, S5.db.ledger, ActiveIn(Usd), 2) == 0;
    assert CountActive(S5.db.jobs, 0, 1) == 0;
    assert CountActive(S5.db.jobs, 0, 2) == 0;
  }

  lemma FirstStarts()
    ensures DispatchCut(S1, FIRST, 0, 3) == S2
  {
    assert WritesOf(S1.db, 0, Waits(0.0), Allocating, []) == [];
    assert WAITING + [Row(Some(Queued), Allocating)] == BOOTING;
    assert Written(S1.db, 0, Waits(0.0).(attempts := 1), []) == [HOLD0];
  }

  lemma SecondStarts()
    ensures DispatchCut(S5, SECOND, 1, 3) == S6
  {
    assert WritesOf(S5.db, 1, Waits(1.0), Allocating, []) == [];
    assert WAITING + [Row(Some(Queued), Allocating)] == BOOTING;
    var done, job := Ends(0.0), Waits(1.0).(attempts := 1);
    var db := Noted(S5.db, 1, CountAttempt);
    assert db.jobs == [done, job];
    assert Written(db, 1, job, []) == L5;
    assert [done, job][1 := Boots(1.0, SECOND)] == [done, Boots(1.0, SECOND)];
    assert [FINISHED, WAITING][1 := BOOTING] == [FINISHED, BOOTING];
    assert DOWN0[SECOND := Machine(Some(1), true)] == UP1;
  }

  lemma DispatchStage(cfg: Config, done: seq<Effect>, second: bool)
    requires cfg == CONFIG && Reached(cfg, done) && After(done) == if second then S5 else S1
    ensures var more := done + (if second then DispatchScript(SECOND, 1) else DispatchScript(FIRST, 0));
            Reached(cfg, more) && After(more) == if second then S6 else S2
  {
    hide Reached, After, HasRoom, DispatchCut;
    if second {
      SecondStarts();
      SecondFits();
      DispatchReached(cfg, done, SECOND, 1);
    } else {
      FirstStarts();
      FirstFits();
      DispatchReached(cfg, done, FIRST, 0);
    }
  }

  lemma ElapseStage(cfg: Config, done: seq<Effect>, second: bool)
    requires cfg == CONFIG && Reached(cfg, done) && After(done) == if second then S6 else S2
    ensures var more := done + [Elapse(if second then Clock(2.0, 1) else Clock(1.0, 1))];
            Reached(cfg, more) && After(more) == if second then S7 else S3
  {
    hide Reached, After;
    ReachesOneMore(cfg, done, Elapse(if second then Clock(2.0, 1) else Clock(1.0, 1)));
  }

  /** An hour at this price is the whole reservation, and none of it was settled before. */
  lemma ScriptIs(second: bool)
    ensures if second
            then Script(CONFIG, S7.db, 1, PRICE, 2.0, OVER)
                 == [Accrue(1, 100), Terminate(SECOND), Stop(1, Completed, Some(0))]
            else Script(CONFIG, S3.db, 0, PRICE, 1.0, OVER)
                 == [Accrue(0, 100), Terminate(FIRST), Stop(0, Completed, Some(0))]
  {
    hide Held, Total;
    QuantizeWhole(100);
    Sums(OfJobAnyCurrency(0));
    Sums(OfJobAnyCurrency(1));
  }

  lemma PlayThree(w: World, d: Effect, e: Effect, f: Effect)
    ensures Play(w, [d, e, f]) == Apply(Apply(Apply(w, d), e), f)
  {
    hide Apply;
    assert [d] == [] + [d] && [d, e] == [d] + [e] && [d, e, f] == [d, e] + [f];
    PlayOne(w, [], d);
    PlayOne(w, [d], e);
    PlayOne(w, [d, e], f);
  }

  lemma FirstEnds()
    ensures Apply(Apply(Apply(S3, Accrue(0, 100)), Terminate(FIRST)), Stop(0, Completed, Some(0))) == S4
  {
    Sums(OfJob(0, Usd));
    var w := Apply(Apply(S3, Accrue(0, 100)), Terminate(FIRST));
    assert w.db.ledger == L4;
    assert w.machines == DOWN0;
    var job := Boots(0.0, FIRST);
    assert Held(L4, OfJob(0, Usd)) == 0;
    assert WritesOf(w.db, 0, job, Completed, []) == [];
    assert Written(w.db, 0, job, []) == L4;
    assert BOOTING + [Row(Some(Allocating), Completed)] == FINISHED;
  }

  lemma SecondEnds()
    ensures Apply(Apply(Apply(S7, Accrue(1, 100)), Terminate(SECOND)), Stop(1, Completed, Some(0))) == S8
  {
    hide Held, Total;
    var w := Apply(Apply(S7, Accrue(1, 100)), Terminate(SECOND));
    assert w.db.ledger == L5 + [L8[4]] + [L8[5]];
    assert w.db.ledger == L8;
    assert w.machines == DOWN1;
    var job := Boots(1.0, SECOND);
    Sums(OfJob(1, Usd));
    SumsOf(L5, L8[4], OfJob(1, Usd));
    SumsOf(L5 + [L8[4]], L8[5], OfJob(1, Usd));
    assert Held(L8, OfJob(1, Usd)) == 0;
    assert WritesOf(w.db, 1, job, Completed, []) == [];
    assert Written(w.db, 1, job, []) == L8;
    assert BOOTING + [Row(Some(Allocating), Completed)] == FINISHED;
    assert [FINISHED, BOOTING][1 := FINISHED] == [FINISHED, FINISHED];
    assert [Ends(0.0), job][1 := Ends(1.0)] == [Ends(0.0), Ends(1.0)];
  }

  lemma EndStage(cfg: Config, done: seq<Effect>, second: bool)
    requires cfg == CONFIG && Reached(cfg, done) && After(done) == if second then S7 else S3
    ensures var more := done + (if second then Script(cfg, S7.db, 1, PRICE, 2.0, OVER)
                                else Script(cfg, S3.db, 0, PRICE, 1.0, OVER));
            Reached(cfg, more) && After(more) == if second then S8 else S4
  {
    hide Reached, After, Apply, Script;
    ScriptIs(second);
    if second {
      AdvanceReached(cfg, done, 1, PRICE, 2.0, OVER);
      PlayThree(S7, Accrue(1, 100), Terminate(SECOND), Stop(1, Completed, Some(0)));
      SecondEnds();
    } else {
      AdvanceReached(cfg, done, 0, PRICE, 1.0, OVER);
      PlayThree(S3, Accrue(0, 100), Terminate(FIRST), Stop(0, Completed, Some(0)));
      FirstEnds();
    }
  }

  lemma LifeStage(cfg: Config, done: seq<Effect>, second: bool)
    requires cfg == CONFIG && Reached(cfg, done) && After(done) == if second then S4 else S0
    ensures var more := done + (if second then LifeOf(1, SECOND, S7.db, Clock(2.0, 1))
                                else LifeOf(0, FIRST, S3.db, Clock(1.0, 1)));
            Reached(cfg, more) && After(more) == if second then S8 else S4
  {
    hide Reached, After, Script, DispatchScript;
    var h, id := if second then SECOND else FIRST, if second then 1 else 0;
    var moment := if second then Clock(2.0, 1) else Clock(1.0, 1);
    var a := done + [Submit(0, 0, Usd, 100)];
    var b := a + DispatchScript(h, id);
    var c := b + [Elapse(moment)];
    SubmitStage(cfg, done, second);
    DispatchStage(cfg, a, second);
    ElapseStage(cfg, b, second);
    EndStage(cfg, c, second);
    var last := if second then Script(cfg, S7.db, 1, PRICE, 2.0, OVER) else Script(cfg, S3.db, 0, PRICE, 1.0, OVER);
    assert c + last == done + ([Submit(0, 0, Usd, 100)] + DispatchScript(h, id) + [Elapse(moment)] + last);
  }

  /** The run passes through this state after this many effects. */
  ghost predicate Passes(run: seq<Effect>, n: nat, w: World) {
    n <= |run| && After(run[..n]) == w
  }

  lemma StagePasses(done: seq<Effect>, second: bool)
    requires Reached(CONFIG, done) && After(done) == if second then S4 else S0
    ensures var life := if second then LifeOf(1, SECOND, S7.db, Clock(2.0, 1)) else LifeOf(0, FIRST, S3.db, Clock(1.0, 1));
            |life| == 8 && Passes(done + life, |done| + 5, if second then S7 else S3)
  {
    hide Reached, After, Script;
    var h, id := if second then SECOND else FIRST, if second then 1 else 0;
    var moment := if second then Clock(2.0, 1) else Clock(1.0, 1);
    var a := done + [Submit(0, 0, Usd, 100)];
    var b := a + DispatchScript(h, id);
    SubmitStage(CONFIG, done, second);
    DispatchStage(CONFIG, a, second);
    ElapseStage(CONFIG, b, second);
    ScriptIs(second);
    var life := if second then LifeOf(1, SECOND, S7.db, Clock(2.0, 1)) else LifeOf(0, FIRST, S3.db, Clock(1.0, 1));
    assert (done + life)[..|done| + 5] == b + [Elapse(moment)];
  }

  lemma RunPasses()
    ensures Reached(CONFIG, RUN) && |RUN| == 16
    ensures Passes(RUN, 5, S3) && Passes(RUN, 8, S4) && Passes(RUN, 13, S7) && Passes(RUN, 16, S8)
  {
    hide Reached, After, LifeOf;
    var first, next := LifeOf(0, FIRST, S3.db, Clock(1.0, 1)), LifeOf(1, SECOND, S7.db, Clock(2.0, 1));
    StartsEmpty();
    assert [] + first == first;
    LifeStage(CONFIG, [], false);
    StagePasses([], false);
    LifeStage(CONFIG, first, true);
    StagePasses(first, true);
    assert RUN[..5] == first[..5] && RUN[..8] == first && RUN[..16] == RUN;
  }

  lemma StartsEmpty()
    ensures Reached(CONFIG, []) && After([]) == S0
  {
  }

  /** Held plus spent stays within every month's budget, but spent alone does not. In this run of the broker a user
      with one dollar a month has two dollars of settlements in one month: each is what looking at a finished
      job settles after an hour at the stated price, and the first job's hold was taken the month before. */
  lemma SpendPassesBudget()
    ensures Reached(CONFIG, RUN) && Passes(RUN, 5, S3) && Passes(RUN, 13, S7) && Passes(RUN, |RUN|, S8)
    ensures Settlement(S3.db, 0, PRICE, 1.0) == [Accrue(0, 100)] && Settlement(S7.db, 1, PRICE, 2.0) == [Accrue(1, 100)]
    ensures CONFIG.UserBudget(0, Usd) == 100.0 && Total(S8.db.ledger, OfUser(0, Usd, 1), Settle) == 200
  {
    hide Passes, Reached, Settlement, LifeOf, Total;
    RunPasses();
    SettlementsAre();
    Sums(OfUser(0, Usd, 1));
  }

  lemma SettlementsAre()
    ensures Settlement(S3.db, 0, PRICE, 1.0) == [Accrue(0, 100)] && Settlement(S7.db, 1, PRICE, 2.0) == [Accrue(1, 100)]
  {
    hide Held, Total;
    QuantizeWhole(100);
    Sums(OfJobAnyCurrency(0));
    Sums(OfJobAnyCurrency(1));
  }
}
