/** What a job is billed over a whole life, preemptions and waits between attempts included
    (gpu_broker/scheduler.py `_accrue`; gpu_broker/store.py `transition`). */
module Billing {
  import opened Wrappers
  import opened Money
  import opened States
  import opened Ledger
  import opened Tables
  import opened World
  import opened Books
  import opened Advance
  import opened Engine
  import opened Drift
  import opened Lifetimes
  import opened Accrual

  // ------------------------------------------------------------------ lives of a job

  /** A stretch of a run as one job sees it: a tick looks at it, or the broker does anything else. */
  datatype Piece = Look(price: real, now: real, sight: Sight) | Rest(effects: seq<Effect>)

  function EffectsOf(cfg: Config, done: seq<Effect>, id: JobId, p: Piece): seq<Effect> {
    match p
    case Look(price, now, s) =>
      if id < |After(done).db.jobs| then Script(cfg, After(done).db, id, price, now, s) else []
    case Rest(es) => es
  }

  /** Everything done by the end of these pieces. */
  function Through(cfg: Config, done: seq<Effect>, id: JobId, ps: seq<Piece>): seq<Effect> {
    if ps == [] then done
    else
      var front := Through(cfg, done, id, ps[..|ps| - 1]);
      front + EffectsOf(cfg, front, id, ps[|ps| - 1])
  }

  /** A tick looks only at an active job, and its backend answers only if it is configured.
      Whatever else happens, nothing else is charged to the job. */
  ghost predicate Fair(cfg: Config, done: seq<Effect>, id: JobId, p: Piece) {
    match p
    case Look(_, _, _) =>
      && id < |After(done).db.jobs| && After(done).db.jobs[id].state in ACTIVE
      && Reachable(cfg, After(done).db.jobs[id])
    case Rest(es) => forall i :: 0 <= i < |es| ==> !SpendsOn(es[i], id)
  }

  ghost predicate Life(cfg: Config, done: seq<Effect>, id: JobId, ps: seq<Piece>) {
    && Reached(cfg, Through(cfg, done, id, ps))
    && forall i :: 0 <= i < |ps| ==> Fair(cfg, Through(cfg, done, id, ps[..i]), id, ps[i])
  }

  /** The cost of a job that first started at `start`, never more than its ceiling. */
  function CostFrom(start: real, reserved: int, price: real, now: real): int {
    Min(Quantize(price * (if now - start < 0.0 then 0.0 else now - start)), reserved)
  }

  /** What each look saw the job cost, from its first start on. */
  function CostsSeen(job: Job, ps: seq<Piece>): seq<int>
    requires job.startedAt.Some?
  {
    if ps == [] then []
    else
      var p := ps[|ps| - 1];
      CostsSeen(job, ps[..|ps| - 1])
      + (if p.Look? then [CostFrom(job.startedAt.value, job.reserved, p.price, p.now)] else [])
  }

  lemma LifeBefore(cfg: Config, done: seq<Effect>, id: JobId, ps: seq<Piece>)
    requires Life(cfg, done, id, ps) && ps != []
    ensures Life(cfg, done, id, ps[..|ps| - 1])
    ensures Fair(cfg, Through(cfg, done, id, ps[..|ps| - 1]), id, ps[|ps| - 1])
  {
    hide Reached, Fair;
    var n := |ps| - 1;
    var front, all := Through(cfg, done, id, ps[..n]), Through(cfg, done, id, ps);
    assert all[..|front|] == front;
    ReachedFirst(cfg, all, |front|);
    forall i | 0 <= i < n ensures Fair(cfg, Through(cfg, done, id, ps[..n][..i]), id, ps[..n][i]) {
      assert ps[..n][..i] == ps[..i];
    }
  }

  lemma {:induction false} LifeExtends(cfg: Config, done: seq<Effect>, id: JobId, ps: seq<Piece>)
    ensures exists more :: Through(cfg, done, id, ps) == done + more
  {
    if ps == [] {
      assert Through(cfg, done, id, ps) == done + [];
    } else {
      var n := |ps| - 1;
      LifeExtends(cfg, done, id, ps[..n]);
      var more :| Through(cfg, done, id, ps[..n]) == done + more;
      var last := EffectsOf(cfg, Through(cfg, done, id, ps[..n]), id, ps[n]);
      assert Through(cfg, done, id, ps) == done + (more + last);
    }
  }

  /** What the books say of an active job. */
  lemma ActiveFacts(cfg: Config, done: seq<Effect>, id: JobId)
    requires Reached(cfg, done) && id < |After(done).db.jobs| && After(done).db.jobs[id].state in ACTIVE
    ensures var job := After(done).db.jobs[id];
            job.startedAt.Some? && job.finishedAt.None? && 0 <= job.reserved
  {
    hide Reached, After, JobHold, JobSettled;
    EveryJobTimed(cfg, done);
    assert Timed(After(done).db.jobs[id]);
    ReachedIsGood(cfg, done);
    assert JobBalances(After(done).db, id);
  }

  /** Seen from any later moment, the cost of an active job is the cost from its first start. */
  lemma CostIsFromStart(cfg: Config, done: seq<Effect>, id: JobId, price: real, now: real, later: Job)
    requires Reached(cfg, done) && id < |After(done).db.jobs| && After(done).db.jobs[id].state in ACTIVE
    requires SameJob(After(done).db.jobs[id], later)
    ensures later.startedAt.Some? && 0 <= later.reserved
    ensures CostSoFar(After(done).db.jobs[id], price, now) == CostFrom(later.startedAt.value, later.reserved, price, now)
  {
    hide Reached, After;
    ActiveFacts(cfg, done, id);
    CostOfActive(After(done).db.jobs[id], price, now);
  }

  lemma CostOfActive(job: Job, price: real, now: real)
    requires job.startedAt.Some? && job.finishedAt.None?
    ensures CostSoFar(job, price, now) == CostFrom(job.startedAt.value, job.reserved, price, now)
  {
    var span := now - job.startedAt.value;
    assert Elapsed(job, now) == if span < 0.0 then 0.0 else span;
  }

  lemma PeakMore(job: Job, ps: seq<Piece>)
    requires job.startedAt.Some? && ps != []
    ensures var n := |ps| - 1; var peak := Peak(CostsSeen(job, ps[..n]));
            Peak(CostsSeen(job, ps))
              == (if ps[n].Look? then Larger(peak, CostFrom(job.startedAt.value, job.reserved, ps[n].price, ps[n].now))
                  else peak)
  {
    hide CostFrom;
    var front, costs := CostsSeen(job, ps[..|ps| - 1]), CostsSeen(job, ps);
    if ps[|ps| - 1].Look? {
      assert costs[..|costs| - 1] == front;
    } else {
      assert costs == front;
    }
  }

  lemma LookSpends(cfg: Config, done: seq<Effect>, id: JobId, p: Piece)
    requires p.Look? && Fair(cfg, done, id, p) && Reached(cfg, done)
    ensures var w := After(done); var q := OfJobAnyCurrency(id);
            Spent(After(done + EffectsOf(cfg, done, id, p)).db.ledger, q)
              == Larger(Spent(w.db.ledger, q), CostSoFar(w.db.jobs[id], p.price, p.now))
  {
    hide Script, Reached, Spent, CostSoFar;
    assert EffectsOf(cfg, done, id, p) == Script(cfg, After(done).db, id, p.price, p.now, p.sight);
    assert Reachable(cfg, After(done).db.jobs[id]);
    ReachedIsGood(cfg, done);
    PlayConcat(EMPTY, done, EffectsOf(cfg, done, id, p));
    AdvanceSettles(cfg, After(done), id, p.price, p.now, p.sight);
  }

  /** Over a whole life, however often the job is preempted, requeued and started again between two looks, what
      it has spent is the dearest clamped cost any look saw, counted from its first start. */
  lemma {:induction false} SpentIsPeakOfLooks(cfg: Config, done: seq<Effect>, id: JobId, ps: seq<Piece>, last: Job)
    requires Life(cfg, done, id, ps) && id < |After(done).db.jobs|
    requires 0 <= Spent(After(done).db.ledger, OfJobAnyCurrency(id))
    requires id < |After(Through(cfg, done, id, ps)).db.jobs|
    requires SameJob(After(Through(cfg, done, id, ps)).db.jobs[id], last) && last.startedAt.Some?
    ensures Spent(After(Through(cfg, done, id, ps)).db.ledger, OfJobAnyCurrency(id))
         == Larger(Spent(After(done).db.ledger, OfJobAnyCurrency(id)), Peak(CostsSeen(last, ps)))
  {
    hide Reached, Fair, After, Spent, CostSoFar, CostFrom, SameJob, EffectsOf;
    if ps != [] {
      var n := |ps| - 1;
      var p, front := ps[n], Through(cfg, done, id, ps[..n]);
      var es := EffectsOf(cfg, front, id, p);
      LifeBefore(cfg, done, id, ps);
      LaterJob(cfg, done, front, es, id, ps[..n], last);
      SpentIsPeakOfLooks(cfg, done, id, ps[..n], last);
      PeakMore(last, ps);
      if p.Look? {
        LookSpends(cfg, front, id, p);
        LookCost(cfg, front, id, p, last);
      } else {
        RestSpends(cfg, front, id, p);
      }
    }
  }

  lemma LookCost(cfg: Config, done: seq<Effect>, id: JobId, p: Piece, last: Job)
    requires p.Look? && Fair(cfg, done, id, p) && Reached(cfg, done)
    requires id < |After(done).db.jobs| && SameJob(After(done).db.jobs[id], last) && last.startedAt.Some?
    ensures CostSoFar(After(done).db.jobs[id], p.price, p.now)
         == CostFrom(last.startedAt.value, last.reserved, p.price, p.now)
  {
    CostIsFromStart(cfg, done, id, p.price, p.now, last);
  }

  lemma RestSpends(cfg: Config, done: seq<Effect>, id: JobId, p: Piece)
    requires p.Rest? && Fair(cfg, done, id, p) && Reached(cfg, done + EffectsOf(cfg, done, id, p))
    ensures Spent(After(done + EffectsOf(cfg, done, id, p)).db.ledger, OfJobAnyCurrency(id))
         == Spent(After(done).db.ledger, OfJobAnyCurrency(id))
  {
    SpendOnlySo(cfg, done, p.effects, id);
  }

  lemma LaterJob(cfg: Config, done: seq<Effect>, front: seq<Effect>, es: seq<Effect>, id: JobId, ps: seq<Piece>, last: Job)
    requires Reached(cfg, front + es) && front == Through(cfg, done, id, ps) && Reached(cfg, front)
    requires id < |After(done).db.jobs|
    requires id < |After(front + es).db.jobs| && SameJob(After(front + es).db.jobs[id], last)
    ensures id < |After(front).db.jobs| && SameJob(After(front).db.jobs[id], last)
  {
    hide Reached, After;
    LifeExtends(cfg, done, id, ps);
    var more :| front == done + more;
    StartIsKept(cfg, done, more);
    StartIsKept(cfg, front, es);
    assert SameJob(After(front).db.jobs[id], After(front + es).db.jobs[id]);
  }

  /** One price, and looks in the order of time. */
  predicate Steady(ps: seq<Piece>, price: real) {
    && (forall i :: 0 <= i < |ps| && ps[i].Look? ==> ps[i].price == price)
    && forall i, j :: 0 <= i < j < |ps| && ps[i].Look? && ps[j].Look? ==> ps[i].now <= ps[j].now
  }

  lemma CostFromGrows(start: real, reserved: int, price: real, t: real, u: real)
    requires 0.0 <= price && 0 <= reserved && t <= u
    ensures 0 <= CostFrom(start, reserved, price, t) <= CostFrom(start, reserved, price, u)
  {
    var x, y := if t - start < 0.0 then 0.0 else t - start, if u - start < 0.0 then 0.0 else u - start;
    assert 0.0 <= price * x <= price * y;
    QuantizeMonotone(price * x, price * y);
  }

  lemma {:induction false} PeakIsLastLook(job: Job, ps: seq<Piece>, price: real, k: nat)
    requires job.startedAt.Some? && 0 <= job.reserved && 0.0 <= price && Steady(ps, price)
    requires k < |ps| && ps[k].Look? && forall i :: k < i < |ps| ==> ps[i].Rest?
    ensures Peak(CostsSeen(job, ps)) == CostFrom(job.startedAt.value, job.reserved, price, ps[k].now)
  {
    hide CostFrom, CostsSeen, Peak;
    var n := |ps| - 1;
    PeakMore(job, ps);
    if k < n {
      PeakIsLastLook(job, ps[..n], price, k);
    } else {
      PeakUpTo(job, ps[..n], price, ps[n].now);
    }
  }

  lemma {:induction false} PeakUpTo(job: Job, ps: seq<Piece>, price: real, now: real)
    requires job.startedAt.Some? && 0 <= job.reserved && 0.0 <= price
    requires forall i :: 0 <= i < |ps| && ps[i].Look? ==> ps[i].price == price && ps[i].now <= now
    ensures 0 <= Peak(CostsSeen(job, ps)) <= CostFrom(job.startedAt.value, job.reserved, price, now)
  {
    hide CostFrom;
    CostFromGrows(job.startedAt.value, job.reserved, price, now, now);
    if ps != [] {
      var n := |ps| - 1;
      PeakUpTo(job, ps[..n], price, now);
      PeakMore(job, ps);
      if ps[n].Look? {
        CostFromGrows(job.startedAt.value, job.reserved, price, ps[n].now, now);
      }
    }
  }

  /** At one price, a job charged for nothing before its first look has spent, after any life, exactly
      min(round(price x (last look - first start)), reserved): how often ticks looked, when they did before that,
      and how often the job was preempted, requeued and started again makes no difference. */
  lemma AccrualIgnoresTickTiming(cfg: Config, done: seq<Effect>, id: JobId, ps: seq<Piece>, price: real, k: nat)
    requires Life(cfg, done, id, ps) && id < |After(done).db.jobs|
    requires Spent(After(done).db.ledger, OfJobAnyCurrency(id)) == 0
    requires 0.0 <= price && Steady(ps, price)
    requires k < |ps| && ps[k].Look? && forall i :: k < i < |ps| ==> ps[i].Rest?
    ensures var w := After(Through(cfg, done, id, ps));
            && id < |w.db.jobs| && w.db.jobs[id].startedAt.Some?
            && Spent(w.db.ledger, OfJobAnyCurrency(id))
                 == CostFrom(w.db.jobs[id].startedAt.value, w.db.jobs[id].reserved, price, ps[k].now)
  {
    hide Reached, After, Spent, CostSoFar, CostFrom, CostsSeen, Steady, Fair;
    StartedByThen(cfg, done, id, ps, k);
    var last := After(Through(cfg, done, id, ps)).db.jobs[id];
    SpentIsPeakOfLooks(cfg, done, id, ps, last);
    PeakIsLastLook(last, ps, price, k);
    CostFromGrows(last.startedAt.value, last.reserved, price, ps[k].now, ps[k].now);
  }

  predicate HasStarted(db: Db, id: JobId) {
    id < |db.jobs| && db.jobs[id].startedAt.Some? && 0 <= db.jobs[id].reserved
  }

  /** A job some tick has looked at has started, and keeps that start. */
  lemma {:induction false} StartedByThen(cfg: Config, done: seq<Effect>, id: JobId, ps: seq<Piece>, k: nat)
    requires Life(cfg, done, id, ps) && k < |ps| && ps[k].Look? && id < |After(done).db.jobs|
    ensures HasStarted(After(Through(cfg, done, id, ps)).db, id)
  {
    hide Reached, After, Fair, HasStarted, EffectsOf, SameJob;
    var n := |ps| - 1;
    var front := Through(cfg, done, id, ps[..n]);
    LifeBefore(cfg, done, id, ps);
    if k < n {
      StartedByThen(cfg, done, id, ps[..n], k);
    } else {
      LookedAtHasStarted(cfg, front, id, ps[n]);
    }
    StaysStarted(cfg, front, EffectsOf(cfg, front, id, ps[n]), id);
  }

  lemma StaysStarted(cfg: Config, done: seq<Effect>, more: seq<Effect>, id: JobId)
    requires Reached(cfg, done + more) && HasStarted(After(done).db, id)
    ensures HasStarted(After(done + more).db, id)
  {
    hide Reached, After;
    StartIsKept(cfg, done, more);
    assert SameJob(After(done).db.jobs[id], After(done + more).db.jobs[id]);
  }

  lemma LookedAtHasStarted(cfg: Config, done: seq<Effect>, id: JobId, p: Piece)
    requires p.Look? && Fair(cfg, done, id, p) && Reached(cfg, done)
    ensures HasStarted(After(done).db, id)
  {
    hide Reached, After;
    ActiveFacts(cfg, done, id);
  }

  // ------------------------------------------------------- the wait between two attempts

  /** A preempted job that has been started again is billed for the wait: its first start and its reservation
      are kept, so the next look settles the whole time since then, less what was settled when it was
      interrupted. It settles something if and only if the ceiling had not been reached at the interruption and
      by the next look the cost is half a quantum past what it rounded to. */
  lemma WaitBetweenAttemptsIsBilled(cfg: Config, done: seq<Effect>, gap: seq<Effect>, id: JobId, price: real,
                                    stopped: real, restarted: real, s: Sight)
    requires Reached(cfg, done) && id < |After(done).db.jobs|
    requires var job := After(done).db.jobs[id]; job.state in ACTIVE && Falls(cfg, job, s)
    requires var es := Script(cfg, After(done).db, id, price, stopped, s); Reached(cfg, done + es + gap)
    requires var w := After(done + Script(cfg, After(done).db, id, price, stopped, s) + gap);
             id < |w.db.jobs| && w.db.jobs[id].state in ACTIVE
    requires forall i :: 0 <= i < |gap| ==> !SpendsOn(gap[i], id)
    requires 0.0 <= price && stopped <= restarted
    ensures var w0, w := After(done), After(done + Script(cfg, After(done).db, id, price, stopped, s) + gap);
            var before, after := w0.db.jobs[id], w.db.jobs[id];
            var settled := Larger(Spent(w0.db.ledger, OfJobAnyCurrency(id)), CostSoFar(before, price, stopped));
            var due := AtLeastZero(CostSoFar(before, price, restarted) - settled);
            && before.startedAt.Some? && after.startedAt == before.startedAt && after.reserved == before.reserved
            && Elapsed(after, restarted) == Elapsed(before, restarted)
            && Settlement(w.db, id, price, restarted) == (if 0 < due then [Accrue(id, due)] else [])
            && (Spent(w0.db.ledger, OfJobAnyCurrency(id)) <= CostSoFar(before, price, stopped) ==>
                  (0 < due <==> GrowsPast(before, price, stopped, restarted)))
  {
    hide Reached, After, Spent, Script, Falls, CostSoFar, Elapsed, GrowsPast, Fair, SameJob, EffectsOf;
    var w0, es := After(done), Script(cfg, After(done).db, id, price, stopped, s);
    var w := After(done + es + gap);
    LookIsFair(cfg, done, id, price, stopped, s);
    LookSpends(cfg, done, id, Look(price, stopped, s));
    SpendOnlySo(cfg, done + es, gap, id);
    assert done + es + gap == done + (es + gap);
    StartIsKept(cfg, done, es + gap);
    ActiveFacts(cfg, done, id);
    ActiveFacts(cfg, done + es + gap, id);
    SameBill(w0.db.jobs[id], w.db.jobs[id], price, restarted);
    CostGrowsIff(w0.db.jobs[id], price, stopped, restarted);
  }

  lemma SameBill(a: Job, b: Job, price: real, now: real)
    requires SameJob(a, b) && a.startedAt.Some? && a.finishedAt.None? && b.finishedAt.None?
    ensures b.startedAt == a.startedAt && b.reserved == a.reserved
    ensures Elapsed(b, now) == Elapsed(a, now) && CostSoFar(b, price, now) == CostSoFar(a, price, now)
  {
  }

  lemma LookIsFair(cfg: Config, done: seq<Effect>, id: JobId, price: real, now: real, s: Sight)
    requires id < |After(done).db.jobs| && After(done).db.jobs[id].state in ACTIVE
    requires Falls(cfg, After(done).db.jobs[id], s)
    ensures Fair(cfg, done, id, Look(price, now, s))
    ensures EffectsOf(cfg, done, id, Look(price, now, s)) == Script(cfg, After(done).db, id, price, now, s)
  {
    hide After, Script;
  }
}
