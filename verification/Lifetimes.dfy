/** What a job's own columns keep, over anything the broker can do (gpu_broker/store.py `transition`). */
module Lifetimes {
  import opened Wrappers
  import opened Money
  import opened States
  import opened Ledger
  import opened Tables
  import opened World
  import opened Books
  import opened Advance
  import opened Engine

  /** A job that is over has an end, one that holds a machine has a start, and nobody writes checkpoints
      from the state meant for it. */
  predicate Timed(job: Job) {
    && job.state != Checkpointing
    && (job.finishedAt.Some? <==> job.state in TERMINAL)
    && (job.state in ACTIVE ==> job.startedAt.Some?)
  }

  ghost predicate AllTimed(db: Db) {
    |db.history| == |db.jobs| && forall j :: 0 <= j < |db.jobs| ==> Timed(db.jobs[j])
  }

  /** The same job later: who asked, for what and at what reservation is as it was, and its first start,
      once it has one, is kept. */
  predicate SameJob(a: Job, b: Job) {
    && b.user == a.user && b.gpu == a.gpu && b.currency == a.currency && b.reserved == a.reserved
    && b.submittedAt == a.submittedAt
    && (a.startedAt.Some? ==> b.startedAt == a.startedAt)
  }

  ghost predicate SameJobs(a: Db, b: Db) {
    |a.jobs| <= |b.jobs| && forall j :: 0 <= j < |a.jobs| ==> SameJob(a.jobs[j], b.jobs[j])
  }

  lemma EffectTimes(cfg: Config, w: World, e: Effect)
    requires Enabled(cfg, w, e) && AllTimed(w.db)
    ensures AllTimed(Apply(w, e).db) && SameJobs(w.db, Apply(w, e).db)
  {
    hide MayDispatch, UserCommitted, Spent, WritesOf, Written, NameFree;
    var db, db' := w.db, Apply(w, e).db;
    if e.Move? {
      MoveTimes(cfg, w, e);
    } else if e.Annotate? {
      forall j | 0 <= j < |db.jobs| ensures Timed(db'.jobs[j]) && SameJob(db.jobs[j], db'.jobs[j]) {
        assert Timed(db.jobs[j]);
      }
    }
  }

  lemma MoveTimes(cfg: Config, w: World, e: Effect)
    requires e.Move? && Enabled(cfg, w, e) && AllTimed(w.db)
    ensures AllTimed(Apply(w, e).db) && SameJobs(w.db, Apply(w, e).db)
  {
    hide MayDispatch, WritesOf, Written;
    var db, db' := w.db, Apply(w, e).db;
    StatesAreSplit(db.jobs[e.id].state);
    forall j | 0 <= j < |db.jobs| ensures Timed(db'.jobs[j]) && SameJob(db.jobs[j], db'.jobs[j]) {
      assert Timed(db.jobs[j]);
    }
  }

  /** In every state the broker can reach, whatever it was in the middle of: no job is ever CHECKPOINTING,
      a job has an end exactly when it is over, and it has had a start if it holds a machine. */
  lemma {:induction false} EveryJobTimed(cfg: Config, done: seq<Effect>)
    requires Reached(cfg, done)
    ensures AllTimed(After(done).db)
  {
    hide Apply, Enabled;
    if done != [] {
      var n := |done| - 1;
      ReachedFirst(cfg, done, n);
      EveryJobTimed(cfg, done[..n]);
      EffectTimes(cfg, After(done[..n]), done[n]);
    }
  }

  lemma ReachedFirst(cfg: Config, done: seq<Effect>, n: nat)
    requires Reached(cfg, done) && n <= |done|
    ensures Reached(cfg, done[..n])
    ensures n < |done| ==> Enabled(cfg, After(done[..n]), done[n])
    ensures n == |done| - 1 ==> After(done) == Apply(After(done[..n]), done[n])
  {
    hide Apply, Enabled;
    forall k | 0 <= k < n ensures Enabled(cfg, After(done[..n][..k]), done[..n][k]) {
      assert done[..n][..k] == done[..k];
    }
  }

  /** A job keeps its owner, its reservation and its first start for ever, through every preemption. */
  lemma {:induction false} StartIsKept(cfg: Config, done: seq<Effect>, more: seq<Effect>)
    requires Reached(cfg, done + more)
    ensures SameJobs(After(done).db, After(done + more).db)
  {
    hide Apply, Enabled;
    if more == [] {
      assert done + more == done;
    } else {
      var n := |more| - 1;
      var front := done + more[..n];
      assert (done + more)[..|front|] == front && (done + more)[|front|] == more[n];
      ReachedFirst(cfg, done + more, |front|);
      StartIsKept(cfg, done, more[..n]);
      EveryJobTimed(cfg, front);
      EffectTimes(cfg, After(front), more[n]);
      SameTwice(After(done).db, After(front).db, After(done + more).db);
    }
  }

  lemma SameTwice(a: Db, b: Db, c: Db)
    requires SameJobs(a, b) && SameJobs(b, c)
    ensures SameJobs(a, c)
  {
    forall j | 0 <= j < |a.jobs| ensures SameJob(a.jobs[j], c.jobs[j]) {
      assert SameJob(a.jobs[j], b.jobs[j]) && SameJob(b.jobs[j], c.jobs[j]);
    }
  }

  /** Only settling a job, or charging a machine tagged with it, spends anything against it. */
  predicate SpendsOn(e: Effect, id: JobId) {
    (e.Accrue? && e.id == id) || (e.Abandon? && e.tag == Some(id))
  }

  lemma {:induction false} SpendOnlySo(cfg: Config, done: seq<Effect>, more: seq<Effect>, id: JobId)
    requires Reached(cfg, done + more)
    requires forall i :: 0 <= i < |more| ==> !SpendsOn(more[i], id)
    ensures Spent(After(done + more).db.ledger, OfJobAnyCurrency(id))
         == Spent(After(done).db.ledger, OfJobAnyCurrency(id))
  {
    hide Apply, Enabled, Spent;
    if more == [] {
      assert done + more == done;
    } else {
      var n := |more| - 1;
      var front := done + more[..n];
      assert (done + more)[..|front|] == front && (done + more)[|front|] == more[n];
      ReachedFirst(cfg, done + more, |front|);
      SpendOnlySo(cfg, done, more[..n], id);
      EveryJobTimed(cfg, front);
      OtherEffectsSpendNothing(cfg, After(front), more[n], id);
    }
  }

  /** Rows added for other jobs, or that hold and release, are not spending on this one. */
  lemma {:induction false} OtherRowsSpendNothing(l: seq<Entry>, rows: seq<Entry>, id: JobId)
    requires forall i :: 0 <= i < |rows| ==> rows[i].job != Some(id) || rows[i].kind == Reserve || rows[i].kind == Release
    ensures Spent(l + rows, OfJobAnyCurrency(id)) == Spent(l, OfJobAnyCurrency(id))
  {
    if rows == [] {
      assert l + rows == l;
    } else {
      var n := |rows| - 1;
      OtherRowsSpendNothing(l, rows[..n], id);
      assert l + rows == (l + rows[..n]) + [rows[n]];
      TotalAppend(l + rows[..n], rows[n], OfJobAnyCurrency(id), Settle);
      TotalAppend(l + rows[..n], rows[n], OfJobAnyCurrency(id), Abandoned);
    }
  }

  lemma OtherEffectsSpendNothing(cfg: Config, w: World, e: Effect, id: JobId)
    requires Enabled(cfg, w, e) && |w.db.history| == |w.db.jobs| && !SpendsOn(e, id)
    ensures Spent(Apply(w, e).db.ledger, OfJobAnyCurrency(id)) == Spent(w.db.ledger, OfJobAnyCurrency(id))
  {
    hide MayDispatch, UserCommitted, Spent, NameFree, Outstanding;
    var l, l' := w.db.ledger, Apply(w, e).db.ledger;
    assert l <= l';
    var rows := l'[|l|..];
    assert l' == l + rows;
    OtherRowsSpendNothing(l, rows, id);
  }

  /** Of any job the broker can have, an advance raises if and only if it finds the job's machine interrupted
      while the job is RESUMING and nobody has asked to cancel it. The other missing edge, from CHECKPOINTING to
      CANCELLED, is never met. */
  lemma ReachedRaises(cfg: Config, done: seq<Effect>, id: JobId, s: Sight)
    requires Reached(cfg, done) && id < |After(done).db.jobs|
    requires var job := After(done).db.jobs[id]; job.state in ACTIVE && Reachable(cfg, job)
    ensures var job := After(done).db.jobs[id];
            Raises(cfg, job, s) <==> !job.cancelRequested && s.status == SeenInterrupted && job.state == Resuming
  {
    EveryJobTimed(cfg, done);
    assert Timed(After(done).db.jobs[id]);
  }

  /** A job that is not over can always be cancelled. */
  lemma ReachedCancels(cfg: Config, done: seq<Effect>, id: JobId)
    requires Reached(cfg, done) && id < |After(done).db.jobs|
    ensures CanTransition(After(done).db.jobs[id].state, Cancelled) <==> After(done).db.jobs[id].state !in TERMINAL
  {
    EveryJobTimed(cfg, done);
    assert Timed(After(done).db.jobs[id]);
  }
}
