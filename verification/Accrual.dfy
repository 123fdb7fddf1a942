/** What settlements add up to, whatever the ticks that made them
    (gpu_broker/scheduler.py `_accrue`, `_at_ceiling`; gpu_broker/admission.py `default_reservation`). */
module Accrual {
  import opened Wrappers
  import opened Money
  import opened States
  import opened Ledger
  import opened Tables
  import opened World
  import opened Books
  import opened Advance

  /** What one tick settles, once it has worked out what the job cost so far. */
  function CatchUp(db: Db, id: JobId, cost: int): Db
    requires id < |db.jobs|
  {
    SettledFor(db, id, AtLeastZero(cost - Spent(db.ledger, OfJobAnyCurrency(id))))
  }

  function CatchUpAll(db: Db, id: JobId, costs: seq<int>): (db': Db)
    requires id < |db.jobs|
    ensures db'.jobs == db.jobs
  {
    if costs == [] then db else CatchUp(CatchUpAll(db, id, costs[..|costs| - 1]), id, costs[|costs| - 1])
  }

  function Larger(a: int, b: int): int {
    if a < b then b else a
  }

  function Peak(costs: seq<int>): int {
    if costs == [] then 0 else Larger(Peak(costs[..|costs| - 1]), costs[|costs| - 1])
  }

  /** One tick brings what the job spent up to its cost so far, and never lowers it. */
  lemma CatchesUp(db: Db, id: JobId, cost: int)
    requires id < |db.jobs|
    ensures var db' := CatchUp(db, id, cost); var q := OfJobAnyCurrency(id);
            && Spent(db'.ledger, q) == Larger(Spent(db.ledger, q), cost)
            && Total(db'.ledger, q, Abandoned) == Total(db.ledger, q, Abandoned)
  {
    var a := AtLeastZero(cost - Spent(db.ledger, OfJobAnyCurrency(id)));
    if 0 < a {
      var job, q := db.jobs[id], OfJobAnyCurrency(id);
      var s := RowFor(db, id, job, LedgerWrite(Settle, a, job.currency));
      var r := RowFor(db, id, job, LedgerWrite(Release, a, job.currency));
      TotalAppend(db.ledger, s, q, Settle);
      TotalAppend(db.ledger + [s], r, q, Settle);
      TotalAppend(db.ledger, s, q, Abandoned);
      TotalAppend(db.ledger + [s], r, q, Abandoned);
    }
  }

  /** Whatever ticks looked, and whatever prices they saw, the job has spent the dearest cost any
      of them saw, or what it had already spent if that was more. */
  lemma {:induction false} SettledIsPeak(db: Db, id: JobId, costs: seq<int>)
    requires id < |db.jobs| && 0 <= Spent(db.ledger, OfJobAnyCurrency(id))
    ensures Spent(CatchUpAll(db, id, costs).ledger, OfJobAnyCurrency(id))
         == Larger(Spent(db.ledger, OfJobAnyCurrency(id)), Peak(costs))
    ensures Total(CatchUpAll(db, id, costs).ledger, OfJobAnyCurrency(id), Abandoned)
         == Total(db.ledger, OfJobAnyCurrency(id), Abandoned)
  {
    if costs != [] {
      var front := costs[..|costs| - 1];
      SettledIsPeak(db, id, front);
      CatchesUp(CatchUpAll(db, id, front), id, costs[|costs| - 1]);
    }
  }

  /** A running job's cost never falls as time passes at one price, and is never negative. */
  lemma CostGrows(job: Job, price: real, t: real, u: real)
    requires 0.0 <= price && t <= u && 0 <= job.reserved
    ensures 0 <= CostSoFar(job, price, t) <= CostSoFar(job, price, u)
  {
    assert 0.0 <= Elapsed(job, t) <= Elapsed(job, u);
    assert 0.0 <= price * Elapsed(job, t) <= price * Elapsed(job, u);
    QuantizeMonotone(price * Elapsed(job, t), price * Elapsed(job, u));
  }

  /** The ceiling stop fires exactly from half a quantum below the reservation on. */
  lemma CeilingExactly(job: Job, price: real, now: real)
    requires 0.0 <= price && 0 < job.reserved
    ensures AtCeiling(job, price, now) <==> job.reserved as real - 0.5 <= price * Elapsed(job, now)
    ensures AtCeiling(job, price, now) <==> CostSoFar(job, price, now) == job.reserved
  {
    assert 0.0 <= price * Elapsed(job, now);
    QuantizeReaches(price * Elapsed(job, now), job.reserved);
  }

  /** `default_reservation`: the cost of the hours asked for and the startup allowance. */
  function DefaultReservation(price: real, hours: real, startup: real): int {
    Quantize(price * (hours + startup))
  }

  lemma DefaultIsRounded(price: real, hours: real, startup: real)
    ensures DefaultReservation(price, hours, startup) == Quantize(price * (hours + startup))
  {
  }

  /** A job on its default reservation is never stopped while its cost is more than one quantum
      below that of the hours it asked for plus startup. */
  lemma DefaultReservationCovers(job: Job, price: real, hours: real, startup: real, now: real)
    requires 0.0 <= price && 0.0 <= hours && 0.0 <= startup
    requires job.reserved == DefaultReservation(price, hours, startup) && 0 < job.reserved
    requires price * Elapsed(job, now) + 1.0 < price * (hours + startup)
    ensures !AtCeiling(job, price, now)
  {
    assert 0.0 <= price * (hours + startup);
    CeilingExactly(job, price, now);
  }

  /** The ceiling was not reached at the first moment, and by the second the cost is at least half a quantum
      past what it rounded to. */
  predicate GrowsPast(job: Job, price: real, t: real, u: real) {
    !AtCeiling(job, price, t) && Quantize(price * Elapsed(job, t)) as real + 0.5 <= price * Elapsed(job, u)
  }

  lemma CostGrowsIff(job: Job, price: real, t: real, u: real)
    requires 0.0 <= price && t <= u && 0 <= job.reserved
    ensures CostSoFar(job, price, t) < CostSoFar(job, price, u) <==> GrowsPast(job, price, t, u)
  {
    CostGrows(job, price, t, u);
    var x, y := price * Elapsed(job, t), price * Elapsed(job, u);
    assert 0.0 <= x && 0.0 <= y by {
      assert 0.0 <= Elapsed(job, t) && 0.0 <= Elapsed(job, u);
    }
    QuantizeReaches(y, Quantize(x) + 1);
    assert 0 <= Quantize(x);
  }

  // ---------------------------------------------------------- one advance, in money

  /** Whether a script settles nothing. */
  predicate SettlesNothing(es: seq<Effect>) {
    forall i :: 0 <= i < |es| ==> !es[i].Accrue?
  }

  lemma {:induction false} NoAccrualNoSpend(w: World, es: seq<Effect>, id: JobId, h: Handle, dead: bool)
    requires Careful(es, id, h, dead) && id < |w.db.jobs| == |w.db.history|
    requires SettlesNothing(es)
    ensures Spent(Play(w, es).db.ledger, OfJobAnyCurrency(id)) == Spent(w.db.ledger, OfJobAnyCurrency(id))
    decreases |es|
  {
    if es != [] {
      var e, rest := es[0], es[1..];
      var w' := Apply(w, e);
      assert es == [e] + rest && [e] == [] + [e];
      PlayConcat(w, [e], rest);
      PlayOne(w, [], e);
      if e.Move? {
        MoveSpendsNothing(w.db, e);
      }
      NoAccrualNoSpend(w', rest, id, h, dead || e == Terminate(h));
    }
  }

  lemma MoveSpendsNothing(db: Db, e: Effect)
    requires e.Move? && e.id < |db.jobs| == |db.history|
    ensures Spent(Transitioned(db, e.id, db.jobs[e.id], e.to, e.place, e.exit, e.clear, []).ledger,
                  OfJobAnyCurrency(e.id)) == Spent(db.ledger, OfJobAnyCurrency(e.id))
  {
    var job := db.jobs[e.id];
    var q := OfJobAnyCurrency(e.id);
    var ws := WritesOf(db, e.id, job, e.to, []);
    if ws == [] {
      assert Written(db, e.id, job, ws) == db.ledger;
    } else {
      var r := RowFor(db, e.id, job, ws[0]);
      assert Written(db, e.id, job, ws) == db.ledger + [r];
      TotalAppend(db.ledger, r, q, Settle);
      TotalAppend(db.ledger, r, q, Abandoned);
    }
  }

  /** Everything an advance does after settling. */
  function AfterSettlement(cfg: Config, id: JobId, job: Job, price: real, now: real, s: Sight): seq<Effect>
    requires job.place.Some?
  {
    if job.cancelRequested then CancelScript(id, job, job.place.value, s.newLines)
    else Drain(id, s.newLines) + Response(cfg, id, job, job.place.value, price, now, s)
  }

  lemma QuietConcat(a: seq<Effect>, b: seq<Effect>)
    requires SettlesNothing(a) && SettlesNothing(b)
    ensures SettlesNothing(a + b)
  {
  }

  lemma PreemptSettlesNothing(cfg: Config, id: JobId, job: Job, h: Handle, s: Sight)
    ensures SettlesNothing(PreemptScript(cfg, id, job, h, s))
  {
    var front := [Terminate(h)] + Collect(id, job, s);
    QuietConcat(front + [Annotate(id, CountPreemption)], BackInLine(cfg, id, job, s));
  }

  lemma ResponseSettlesNothing(cfg: Config, id: JobId, job: Job, h: Handle, price: real, now: real, s: Sight)
    ensures SettlesNothing(Response(cfg, id, job, h, price, now, s))
  {
    PreemptSettlesNothing(cfg, id, job, h, s);
    QuietConcat([Terminate(h)] + Drain(id, s.lateLines), [Stop(id, Failed, None)]);
  }

  lemma AfterSettlementIsQuiet(cfg: Config, id: JobId, job: Job, price: real, now: real, s: Sight)
    requires job.state in ACTIVE && job.place.Some?
    ensures SettlesNothing(AfterSettlement(cfg, id, job, price, now, s))
    ensures Careful(AfterSettlement(cfg, id, job, price, now, s), id, job.place.value, false)
  {
    var h, drain := job.place.value, Drain(id, s.newLines);
    if job.cancelRequested {
      CancelIsQuiet(id, job, h, s.newLines);
    } else {
      ResponseIsCareful(cfg, id, job, h, price, now, s);
      ResponseSettlesNothing(cfg, id, job, h, price, now, s);
      CarefulConcat(drain, Response(cfg, id, job, h, price, now, s), id, h, false);
      QuietConcat(drain, Response(cfg, id, job, h, price, now, s));
    }
  }

  lemma CancelIsQuiet(id: JobId, job: Job, h: Handle, lines: nat)
    ensures SettlesNothing(CancelScript(id, job, h, lines)) && Careful(CancelScript(id, job, h, lines), id, h, false)
  {
    var end := if CanTransition(job.state, Cancelled) then [Stop(id, Cancelled, None)] else [];
    CarefulConcat([Terminate(h)], Drain(id, lines), id, h, false);
    CarefulConcat([Terminate(h)] + Drain(id, lines), end, id, h, false);
  }

  /** An advance of a reachable job leaves it having spent its cost so far, however the advance ends. */
  lemma AdvanceSettles(cfg: Config, w: World, id: JobId, price: real, now: real, s: Sight)
    requires PlacesKnown(w) && |w.db.history| == |w.db.jobs|
    requires id < |w.db.jobs| && w.db.jobs[id].state in ACTIVE && Reachable(cfg, w.db.jobs[id])
    ensures Spent(Play(w, Script(cfg, w.db, id, price, now, s)).db.ledger, OfJobAnyCurrency(id))
         == Larger(Spent(w.db.ledger, OfJobAnyCurrency(id)), CostSoFar(w.db.jobs[id], price, now))
  {
    var job := w.db.jobs[id];
    var settle, rest := Settlement(w.db, id, price, now), AfterSettlement(cfg, id, job, price, now, s);
    assert Script(cfg, w.db, id, price, now, s) == settle + rest;
    PlayConcat(w, settle, rest);
    PlaySettlement(w, id, price, now);
    AfterSettlementIsQuiet(cfg, id, job, price, now, s);
    NoAccrualNoSpend(Play(w, settle), rest, id, job.place.value, false);
  }

  lemma PlaySettlement(w: World, id: JobId, price: real, now: real)
    requires id < |w.db.jobs|
    ensures var w' := Play(w, Settlement(w.db, id, price, now)); var q := OfJobAnyCurrency(id);
            && w'.db.jobs == w.db.jobs && w'.db.history == w.db.history && w'.machines == w.machines
            && Spent(w'.db.ledger, q) == Larger(Spent(w.db.ledger, q), CostSoFar(w.db.jobs[id], price, now))
  {
    hide Spent, CostSoFar, CatchUp, Play, Settlement;
    SettlementCatchesUp(w, id, price, now);
    CatchesUp(w.db, id, CostSoFar(w.db.jobs[id], price, now));
  }

  lemma SettlementCatchesUp(w: World, id: JobId, price: real, now: real)
    requires id < |w.db.jobs|
    ensures var after := CatchUp(w.db, id, CostSoFar(w.db.jobs[id], price, now));
            && Play(w, Settlement(w.db, id, price, now)) == w.(db := after)
            && after.jobs == w.db.jobs && after.history == w.db.history
  {
    hide Spent, CostSoFar, RowFor;
    var settle := Settlement(w.db, id, price, now);
    if settle != [] {
      assert settle == [] + [settle[0]];
      PlayOne(w, [], settle[0]);
    }
  }
}
