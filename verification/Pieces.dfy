/** A tick as the list of effects it commits (gpu_broker/scheduler.py `tick`): first one look at every active job,
    then one decision about every queued one, with time passing before each. */
module Pieces {
  import opened Wrappers
  import opened Money
  import opened States
  import opened Ledger
  import opened Tables
  import opened World
  import opened Books
  import opened Advance
  import opened Engine
  import opened Drift
  import opened Lifetimes
  import opened Accrual
  import opened Reaching
  import opened Billing

  /** A look at one job: when it comes, and what the backend says. */
  datatype Turn = Turn(moment: Clock, id: JobId, sight: Sight)

  /** What came of one decision: the machine the job was given, if it was given one. */
  datatype Go = Go(moment: Clock, id: JobId, machine: Option<Handle>)

  function LookAt(cfg: Config, price: GpuType -> real, now: real, front: seq<Effect>, t: Turn): seq<Effect> {
    var db := After(front).db;
    if t.id < |db.jobs| then Script(cfg, db, t.id, price(db.jobs[t.id].gpu), now, t.sight) else []
  }

  /** Everything done once these looks have been taken. */
  function Looks(cfg: Config, price: GpuType -> real, now: real, done: seq<Effect>, turns: seq<Turn>): seq<Effect> {
    if turns == [] then done
    else
      var t := turns[|turns| - 1];
      var front := Looks(cfg, price, now, done, turns[..|turns| - 1]) + [Elapse(t.moment)];
      front + LookAt(cfg, price, now, front, t)
  }

  function GoOn(g: Go): seq<Effect> {
    match g.machine
    case Some(h) => DispatchScript(h, g.id)
    case None => []
  }

  /** What acting on these decisions commits. */
  function Acts(goes: seq<Go>): seq<Effect> {
    if goes == [] then []
    else Acts(goes[..|goes| - 1]) + [Elapse(goes[|goes| - 1].moment)] + GoOn(goes[|goes| - 1])
  }

  lemma {:induction false} LooksGrow(cfg: Config, price: GpuType -> real, now: real, done: seq<Effect>, turns: seq<Turn>)
    ensures done <= Looks(cfg, price, now, done, turns)
  {
    hide After, Script;
    if turns != [] {
      LooksGrow(cfg, price, now, done, turns[..|turns| - 1]);
    }
  }

  lemma LooksMore(cfg: Config, price: GpuType -> real, now: real, done: seq<Effect>, turns: seq<Turn>, t: Turn)
    ensures var front := Looks(cfg, price, now, done, turns) + [Elapse(t.moment)];
            Looks(cfg, price, now, done, turns + [t]) == front + LookAt(cfg, price, now, front, t)
  {
    assert (turns + [t])[..|turns|] == turns;
  }

  lemma ActsMore(goes: seq<Go>, g: Go)
    ensures Acts(goes + [g]) == Acts(goes) + [Elapse(g.moment)] + GoOn(g)
  {
    assert (goes + [g])[..|goes|] == goes;
  }

  // ------------------------------------------------------------------ what is spent

  ghost predicate SpendsNothingOn(es: seq<Effect>, id: JobId) {
    forall i :: 0 <= i < |es| ==> !SpendsOn(es[i], id)
  }

  lemma NothingSpends(id: JobId)
    ensures SpendsNothingOn([], id)
  {
  }

  lemma BothSpendNothing(a: seq<Effect>, b: seq<Effect>, id: JobId)
    requires SpendsNothingOn(a, id) && SpendsNothingOn(b, id)
    ensures SpendsNothingOn(a + b, id)
  {
  }

  /** One more stretch of effects that spends nothing on a job. */
  lemma GoesOn(done: seq<Effect>, before: seq<Effect>, first: seq<Effect>, moment: Clock, es: seq<Effect>, id: JobId)
    returns (more: seq<Effect>)
    requires before == done + first && SpendsNothingOn(first, id) && SpendsNothingOn(es, id)
    ensures before + [Elapse(moment)] + es == done + more && SpendsNothingOn(more, id)
    ensures more == first + [Elapse(moment)] + es
  {
    more := first + [Elapse(moment)] + es;
  }

  ghost predicate SpendsOnlyOn(es: seq<Effect>, id: JobId) {
    forall i, j: JobId :: 0 <= i < |es| && j != id ==> !SpendsOn(es[i], j)
  }

  lemma {:induction false} CarefulSpends(es: seq<Effect>, id: JobId, h: Handle, dead: bool)
    requires Careful(es, id, h, dead)
    ensures SpendsOnlyOn(es, id)
  {
    if es != [] {
      CarefulSpends(es[1..], id, h, dead || es[0] == Terminate(h));
      forall i, j: JobId | 0 <= i < |es| && j != id ensures !SpendsOn(es[i], j) {
        if 0 < i {
          assert es[i] == es[1..][i - 1];
        }
      }
    }
  }

  /** What a look leaves a job having spent. */
  function SpentAfter(cfg: Config, job: Job, spent: int, price: real, now: real): int {
    if Reachable(cfg, job) then Larger(spent, CostSoFar(job, price, now)) else spent
  }

  /** A look settles what brings its own job up to its clamped cost, and nothing of any other job. */
  lemma AdvanceSpends(cfg: Config, done: seq<Effect>, id: JobId, price: real, now: real, s: Sight)
    requires Reached(cfg, done) && id < |After(done).db.jobs| && After(done).db.jobs[id].state in ACTIVE
    ensures var w := After(done); var es := Script(cfg, w.db, id, price, now, s); var l := After(done + es).db.ledger;
            && SpendsOnlyOn(es, id)
            && Spent(l, OfJobAnyCurrency(id))
                 == SpentAfter(cfg, w.db.jobs[id], Spent(w.db.ledger, OfJobAnyCurrency(id)), price, now)
            && forall j: JobId :: j != id ==> Spent(l, OfJobAnyCurrency(j)) == Spent(w.db.ledger, OfJobAnyCurrency(j))
  {
    hide Reached, After, Script, Spent, Careful, SpendsOnlyOn, CostSoFar;
    var w := After(done);
    var es := Script(cfg, w.db, id, price, now, s);
    AdvanceReached(cfg, done, id, price, now, s);
    if Reachable(cfg, w.db.jobs[id]) {
      ScriptIsCareful(cfg, w.db, id, price, now, s);
      CarefulSpends(es, id, w.db.jobs[id].place.value, false);
      LookSpends(cfg, done, id, Look(price, now, s));
    } else {
      NothingToDo(cfg, w.db, id, price, now, s);
      assert done + es == done;
    }
    forall j: JobId | j != id
      ensures Spent(After(done + es).db.ledger, OfJobAnyCurrency(j)) == Spent(w.db.ledger, OfJobAnyCurrency(j))
    {
      NotSpentOn(es, id, j);
      SpendOnlySo(cfg, done, es, j);
    }
  }

  lemma NothingToDo(cfg: Config, db: Db, id: JobId, price: real, now: real, s: Sight)
    requires id < |db.jobs| && !Reachable(cfg, db.jobs[id])
    ensures Script(cfg, db, id, price, now, s) == [] && SpendsOnlyOn([], id)
  {
  }

  lemma NotSpentOn(es: seq<Effect>, id: JobId, j: JobId)
    requires SpendsOnlyOn(es, id) && j != id
    ensures SpendsNothingOn(es, j)
  {
  }

  /** Deciding and dispatching spend nothing. */
  lemma {:induction false} ActsSpendNothing(goes: seq<Go>, id: JobId)
    ensures SpendsNothingOn(Acts(goes), id)
  {
    if goes != [] {
      var n := |goes| - 1;
      ActsSpendNothing(goes[..n], id);
      BothSpendNothing(Acts(goes[..n]), [Elapse(goes[n].moment)], id);
      BothSpendNothing(Acts(goes[..n]) + [Elapse(goes[n].moment)], GoOn(goes[n]), id);
    }
  }

  // ------------------------------------------------------ a tick in the life of one job

  /** The jobs these turns look at, each once, were active when the first came. */
  predicate ActiveTurns(jobs: seq<Job>, turns: seq<Turn>) {
    && (forall k :: 0 <= k < |turns| ==> turns[k].id < |jobs| && jobs[turns[k].id].state in ACTIVE)
    && forall i, k :: 0 <= i < k < |turns| ==> turns[i].id < turns[k].id
  }

  predicate LookedAt(turns: seq<Turn>, j: JobId) {
    exists k :: 0 <= k < |turns| && turns[k].id == j
  }

  /** Looks leave every other job as it was, and spend nothing on it. */
  lemma {:induction false} LooksPassBy(cfg: Config, price: GpuType -> real, now: real, done: seq<Effect>,
                                       turns: seq<Turn>, j: JobId) returns (more: seq<Effect>)
    requires Reached(cfg, Looks(cfg, price, now, done, turns)) && ActiveTurns(After(done).db.jobs, turns)
    requires j < |After(done).db.jobs| && !LookedAt(turns, j)
    ensures Looks(cfg, price, now, done, turns) == done + more
    ensures SpendsNothingOn(more, j)
    ensures var jobs := After(Looks(cfg, price, now, done, turns)).db.jobs;
            |jobs| == |After(done).db.jobs| && jobs[j] == After(done).db.jobs[j]
    decreases |turns|
  {
    hide Reached, After, Looks, LookAt, LookedAt, SpendsNothingOn, Script;
    if turns == [] {
      more := [];
      NoLooks(cfg, price, now, done);
      NothingSpends(j);
    } else {
      var n := |turns| - 1;
      var t := turns[n];
      var before := Looks(cfg, price, now, done, turns[..n]);
      var front := before + [Elapse(t.moment)];
      var es := LookAt(cfg, price, now, front, t);
      LooksMore(cfg, price, now, done, turns[..n], t);
      assert turns == turns[..n] + [t];
      FrontReached(cfg, front, es);
      FrontReached(cfg, before, [Elapse(t.moment)]);
      NotLookedAt(turns, j);
      var first := LooksPassBy(cfg, price, now, done, turns[..n], j);
      EarlierTurns(turns, n);
      var other := LooksPassBy(cfg, price, now, done, turns[..n], t.id);
      AfterElapse(before, t.moment);
      LookIs(cfg, price, now, front, t);
      OneLookPasses(cfg, front, t.id, price(After(front).db.jobs[t.id].gpu), now, t.sight, j);
      more := GoesOn(done, before, first, t.moment, es, j);
    }
  }

  lemma NoLooks(cfg: Config, price: GpuType -> real, now: real, done: seq<Effect>)
    ensures Looks(cfg, price, now, done, []) == done
  {
  }

  lemma LookIs(cfg: Config, price: GpuType -> real, now: real, front: seq<Effect>, t: Turn)
    requires t.id < |After(front).db.jobs|
    ensures LookAt(cfg, price, now, front, t)
         == Script(cfg, After(front).db, t.id, price(After(front).db.jobs[t.id].gpu), now, t.sight)
  {
    hide After, Script;
  }

  /** Turns come in the order of the jobs, so none comes twice. */
  lemma EarlierTurns(turns: seq<Turn>, k: nat)
    requires k < |turns| && forall i, j :: 0 <= i < j < |turns| ==> turns[i].id < turns[j].id
    ensures !LookedAt(turns[..k], turns[k].id)
  {
    forall i | 0 <= i < |turns[..k]| ensures turns[..k][i].id < turns[k].id {
      assert turns[..k][i] == turns[i];
    }
  }

  lemma NotLookedAt(turns: seq<Turn>, j: JobId)
    requires turns != [] && !LookedAt(turns, j)
    ensures !LookedAt(turns[..|turns| - 1], j) && turns[|turns| - 1].id != j
  {
    var front := turns[..|turns| - 1];
    forall k | 0 <= k < |front| ensures front[k].id != j {
      assert front[k] == turns[k];
    }
  }

  lemma FrontReached(cfg: Config, front: seq<Effect>, es: seq<Effect>)
    requires Reached(cfg, front + es)
    ensures Reached(cfg, front)
  {
    hide Reached;
    assert (front + es)[..|front|] == front;
    ReachedFirst(cfg, front + es, |front|);
  }

  lemma AfterElapse(done: seq<Effect>, moment: Clock)
    ensures After(done + [Elapse(moment)]) == After(done).(db := After(done).db.(clock := moment))
  {
    PlayOne(EMPTY, done, Elapse(moment));
  }

  lemma OneLookPasses(cfg: Config, front: seq<Effect>, id: JobId, price: real, now: real, s: Sight, j: JobId)
    requires Reached(cfg, front) && id < |After(front).db.jobs| && After(front).db.jobs[id].state in ACTIVE
    requires j != id && j < |After(front).db.jobs|
    ensures var es := Script(cfg, After(front).db, id, price, now, s); var jobs := After(front + es).db.jobs;
            && |jobs| == |After(front).db.jobs| && jobs[j] == After(front).db.jobs[j]
            && SpendsNothingOn(es, j)
  {
    hide Reached, Script, SpendsOnlyOn, Spent, Play;
    ReachedIsGood(cfg, front);
    AdvanceSpends(cfg, front, id, price, now, s);
    NotSpentOn(Script(cfg, After(front).db, id, price, now, s), id, j);
    AdvanceMoves(cfg, After(front), id, price, now, s);
    PlayConcat(EMPTY, front, Script(cfg, After(front).db, id, price, now, s));
  }

  /** For each job it looks at on a configured backend, a tick is three pieces of that job's life: anything that spends
      nothing on it, the look, and again anything that spends nothing on it. */
  lemma TickIsAPieceOfLife(cfg: Config, price: GpuType -> real, now: real, done: seq<Effect>, turns: seq<Turn>,
                           goes: seq<Go>, k: nat) returns (a: seq<Effect>, b: seq<Effect>)
    requires k < |turns| && ActiveTurns(After(done).db.jobs, turns)
    requires Reached(cfg, Looks(cfg, price, now, done, turns) + Acts(goes))
    requires Reachable(cfg, After(done).db.jobs[turns[k].id])
    ensures var job := After(done).db.jobs[turns[k].id];
            var ps := [Rest(a), Look(price(job.gpu), now, turns[k].sight), Rest(b)];
            && Life(cfg, done, turns[k].id, ps)
            && Through(cfg, done, turns[k].id, ps) == Looks(cfg, price, now, done, turns) + Acts(goes)
  {
    hide Reached, After, Script, Acts, Looks, LookAt, LookedAt, Life, Through;
    var id, t := turns[k].id, turns[k];
    var all := Looks(cfg, price, now, done, turns);
    var last := Acts(goes);
    ActsSpendNothing(goes, id);
    FrontReached(cfg, all, last);
    var upTo := Looks(cfg, price, now, done, turns[..k + 1]);
    var later := LooksAfterwards(cfg, price, now, done, turns, k + 1, id);
    FrontReached(cfg, upTo, later);
    LooksMore(cfg, price, now, done, turns[..k], t);
    assert turns[..k + 1] == turns[..k] + [t];
    var before := Looks(cfg, price, now, done, turns[..k]);
    var front := before + [Elapse(t.moment)];
    FrontReached(cfg, front, LookAt(cfg, price, now, front, t));
    FrontReached(cfg, before, [Elapse(t.moment)]);
    EarlierTurns(turns, k);
    var first := LooksPassBy(cfg, price, now, done, turns[..k], id);
    AfterElapse(before, t.moment);
    LookIs(cfg, price, now, front, t);
    a := first + [Elapse(t.moment)];
    b := later + last;
    BothSpendNothing(first, [Elapse(t.moment)], id);
    BothSpendNothing(later, last, id);
    assert front == done + a;
    ThreePieces(cfg, done, id, a, price(After(done).db.jobs[id].gpu), now, t.sight, b, all + last);
  }

  lemma ThreePieces(cfg: Config, done: seq<Effect>, id: JobId, a: seq<Effect>, price: real, now: real, s: Sight,
                    b: seq<Effect>, all: seq<Effect>)
    requires Reached(cfg, all) && id < |After(done + a).db.jobs|
    requires all == done + a + Script(cfg, After(done + a).db, id, price, now, s) + b
    requires After(done + a).db.jobs[id].state in ACTIVE && Reachable(cfg, After(done + a).db.jobs[id])
    requires SpendsNothingOn(a, id) && SpendsNothingOn(b, id)
    ensures var ps := [Rest(a), Look(price, now, s), Rest(b)];
            Life(cfg, done, id, ps) && Through(cfg, done, id, ps) == all
  {
    hide Reached, After, Script;
    var p, q, r := Rest(a), Look(price, now, s), Rest(b);
    var ps := [p, q, r];
    assert ps[..0] == [] && ps[..1] == [p] && ps[..2] == [p, q];
    assert [p][..0] == [] && [p, q][..1] == [p];
    assert Through(cfg, done, id, [p]) == done + a;
    assert Through(cfg, done, id, [p, q]) == done + a + Script(cfg, After(done + a).db, id, price, now, s);
    assert Fair(cfg, Through(cfg, done, id, ps[..0]), id, ps[0]);
    assert Fair(cfg, Through(cfg, done, id, ps[..1]), id, ps[1]);
    assert Fair(cfg, Through(cfg, done, id, ps[..2]), id, ps[2]);
  }

  /** The looks from the `k`th on spend nothing on a job looked at before. */
  lemma {:induction false} LooksAfterwards(cfg: Config, price: GpuType -> real, now: real, done: seq<Effect>,
                                           turns: seq<Turn>, k: nat, id: JobId) returns (more: seq<Effect>)
    requires 1 <= k <= |turns| && turns[k - 1].id == id && ActiveTurns(After(done).db.jobs, turns)
    requires Reached(cfg, Looks(cfg, price, now, done, turns))
    ensures Looks(cfg, price, now, done, turns) == Looks(cfg, price, now, done, turns[..k]) + more
    ensures SpendsNothingOn(more, id)
    decreases |turns|
  {
    hide Reached, After, Looks, LookAt, LookedAt, SpendsOnlyOn, SpendsNothingOn, Script, Spent;
    if k == |turns| {
      assert turns[..k] == turns;
      more := [];
      NothingSpends(id);
    } else {
      var n := |turns| - 1;
      var t := turns[n];
      var before := Looks(cfg, price, now, done, turns[..n]);
      var front := before + [Elapse(t.moment)];
      LooksMore(cfg, price, now, done, turns[..n], t);
      assert turns == turns[..n] + [t];
      FrontReached(cfg, front, LookAt(cfg, price, now, front, t));
      FrontReached(cfg, before, [Elapse(t.moment)]);
      var first := LooksAfterwards(cfg, price, now, done, turns[..n], k, id);
      assert turns[..n][..k] == turns[..k];
      EarlierTurns(turns, n);
      var other := LooksPassBy(cfg, price, now, done, turns[..n], t.id);
      AfterElapse(before, t.moment);
      LookIs(cfg, price, now, front, t);
      AdvanceSpends(cfg, front, t.id, price(After(front).db.jobs[t.id].gpu), now, t.sight);
      NotSpentOn(LookAt(cfg, price, now, front, t), t.id, id);
      more := GoesOn(Looks(cfg, price, now, done, turns[..k]), before, first, t.moment,
                     LookAt(cfg, price, now, front, t), id);
    }
  }

  /** Lives join, so what holds of a life holds across any number of ticks. */
  lemma {:induction false} LivesJoin(cfg: Config, done: seq<Effect>, id: JobId, ps: seq<Piece>, qs: seq<Piece>)
    requires Life(cfg, done, id, ps) && Life(cfg, Through(cfg, done, id, ps), id, qs)
    ensures Life(cfg, done, id, ps + qs)
    ensures Through(cfg, done, id, ps + qs) == Through(cfg, Through(cfg, done, id, ps), id, qs)
  {
    hide Reached, Fair, EffectsOf;
    ThroughJoins(cfg, done, id, ps, qs);
    forall i | 0 <= i < |ps + qs| ensures Fair(cfg, Through(cfg, done, id, (ps + qs)[..i]), id, (ps + qs)[i]) {
      if i < |ps| {
        assert (ps + qs)[..i] == ps[..i];
      } else {
        assert (ps + qs)[..i] == ps + qs[..i - |ps|];
        ThroughJoins(cfg, done, id, ps, qs[..i - |ps|]);
      }
    }
  }

  lemma {:induction false} ThroughJoins(cfg: Config, done: seq<Effect>, id: JobId, ps: seq<Piece>, qs: seq<Piece>)
    ensures Through(cfg, done, id, ps + qs) == Through(cfg, Through(cfg, done, id, ps), id, qs)
  {
    hide EffectsOf;
    if qs == [] {
      assert ps + qs == ps;
    } else {
      var n := |qs| - 1;
      ThroughJoins(cfg, done, id, ps, qs[..n]);
      assert (ps + qs)[..|ps| + n] == ps + qs[..n] && (ps + qs)[|ps| + n] == qs[n];
    }
  }
}
