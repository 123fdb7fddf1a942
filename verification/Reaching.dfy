/** What is always open to the broker: the scripts of `Advance` and `Drift` are pieces of its runs. */
module Reaching {
  import opened Wrappers
  import opened Money
  import opened States
  import opened Ledger
  import opened Tables
  import opened History
  import opened World
  import opened Books
  import opened Advance
  import opened Engine
  import opened Drift

  /** Each of these effects is enabled when its turn comes. */
  ghost predicate Commits(cfg: Config, w: World, es: seq<Effect>) {
    forall k :: 0 <= k < |es| ==> Enabled(cfg, Play(w, es[..k]), es[k])
  }

  lemma CommitOne(cfg: Config, w: World, e: Effect)
    requires Enabled(cfg, w, e)
    ensures Commits(cfg, w, [e]) && Play(w, [e]) == Apply(w, e)
  {
    hide Enabled, Apply;
    assert [e] == [] + [e] && [e][..0] == [];
    PlayOne(w, [], e);
  }

  lemma CommitBoth(cfg: Config, w: World, a: seq<Effect>, b: seq<Effect>)
    requires Commits(cfg, w, a) && Commits(cfg, Play(w, a), b)
    ensures Commits(cfg, w, a + b) && Play(w, a + b) == Play(Play(w, a), b)
  {
    hide Enabled, Apply;
    var es := a + b;
    forall k | 0 <= k < |es| ensures Enabled(cfg, Play(w, es[..k]), es[k]) {
      if k < |a| {
        assert es[..k] == a[..k];
      } else {
        assert es[..k] == a + b[..k - |a|];
        PlayConcat(w, a, b[..k - |a|]);
      }
    }
    PlayConcat(w, a, b);
  }

  lemma ReachesMore(cfg: Config, done: seq<Effect>, es: seq<Effect>)
    requires Reached(cfg, done) && Commits(cfg, After(done), es)
    ensures Reached(cfg, done + es) && After(done + es) == Play(After(done), es)
  {
    hide Enabled, Apply;
    var all := done + es;
    forall k | 0 <= k < |all| ensures Enabled(cfg, After(all[..k]), all[k]) {
      if k < |done| {
        assert all[..k] == done[..k];
      } else {
        assert all[..k] == done + es[..k - |done|];
        PlayConcat(EMPTY, done, es[..k - |done|]);
      }
    }
    PlayConcat(EMPTY, done, es);
  }

  // ---------------------------------------------------------------- pieces of an advance

  /** The job is in this state, and this many of its preemptions are counted but not yet in its log. */
  predicate Stands(w: World, id: JobId, state: JobState, slack: nat) {
    && id < |w.db.jobs| == |w.db.history| && w.db.jobs[id].state == state
    && PreemptedRows(w.db.history[id]) + slack <= w.db.jobs[id].preemptions
  }

  /** After these effects, which may be committed, the job stands so. */
  ghost predicate Leads(cfg: Config, w: World, es: seq<Effect>, id: JobId, state: JobState, slack: nat) {
    Commits(cfg, w, es) && Stands(Play(w, es), id, state, slack)
  }

  lemma NothingLeads(cfg: Config, w: World, id: JobId, state: JobState, slack: nat)
    requires Stands(w, id, state, slack)
    ensures Leads(cfg, w, [], id, state, slack)
  {
  }

  lemma OneLeads(cfg: Config, w: World, e: Effect, id: JobId, state: JobState, slack: nat)
    requires Enabled(cfg, w, e) && Stands(Apply(w, e), id, state, slack)
    ensures Leads(cfg, w, [e], id, state, slack)
  {
    hide Enabled, Apply, Stands;
    CommitOne(cfg, w, e);
  }

  lemma BothLead(cfg: Config, w: World, a: seq<Effect>, b: seq<Effect>, id: JobId, state: JobState, slack: nat)
    requires Commits(cfg, w, a) && Leads(cfg, Play(w, a), b, id, state, slack)
    ensures Leads(cfg, w, a + b, id, state, slack)
  {
    hide Stands;
    CommitBoth(cfg, w, a, b);
  }

  lemma NoteLeads(cfg: Config, w: World, id: JobId, note: Note, state: JobState, slack: nat)
    requires Stands(w, id, state, slack)
    ensures Leads(cfg, w, [Annotate(id, note)], id, state, if note == CountPreemption then slack + 1 else slack)
  {
    OneLeads(cfg, w, Annotate(id, note), id, state, if note == CountPreemption then slack + 1 else slack);
  }

  lemma TerminateLeads(cfg: Config, w: World, h: Handle, id: JobId, state: JobState, slack: nat)
    requires Stands(w, id, state, slack)
    ensures Leads(cfg, w, [Terminate(h)], id, state, slack)
  {
    OneLeads(cfg, w, Terminate(h), id, state, slack);
  }

  /** Ending or suspending an active job. */
  lemma StopLeads(cfg: Config, w: World, id: JobId, state: JobState, to: JobState, exit: Option<int>)
    requires Stands(w, id, state, if to == Preempted then 1 else 0)
    requires CanTransition(state, to) && to !in ACTIVE
    ensures Leads(cfg, w, [Stop(id, to, exit)], id, to, 0)
  {
    hide WritesOf, Written, LegalTransitions;
    PreemptedRowsAppend(w.db.history[id], Row(Some(state), to));
    StoppedStands(w, id, state, to, exit);
    assert to != Checkpointing && to != Allocating;
    OneLeads(cfg, w, Stop(id, to, exit), id, to, 0);
  }

  lemma StoppedStands(w: World, id: JobId, state: JobState, to: JobState, exit: Option<int>)
    requires Stands(w, id, state, if to == Preempted then 1 else 0)
    ensures Stands(Apply(w, Stop(id, to, exit)), id, to, 0)
  {
    hide WritesOf, Written;
    PreemptedRowsAppend(w.db.history[id], Row(Some(state), to));
  }

  /** A step that keeps or takes no machine: forward to another active state, or back into the queue. */
  lemma StepLeads(cfg: Config, w: World, id: JobId, state: JobState, to: JobState, exit: Option<int>)
    requires Stands(w, id, state, 0) && CanTransition(state, to)
    requires to in {Running, Resuming, Queued}
    ensures Leads(cfg, w, [Move(id, to, None, exit, false)], id, to, 0)
  {
    hide WritesOf, Written;
    PreemptedRowsAppend(w.db.history[id], Row(Some(state), to));
    OneLeads(cfg, w, Move(id, to, None, exit, false), id, to, 0);
  }

  lemma DrainLeads(cfg: Config, w: World, id: JobId, lines: nat, state: JobState, slack: nat)
    requires Stands(w, id, state, slack)
    ensures Leads(cfg, w, Drain(id, lines), id, state, slack)
  {
    hide Stands, Leads;
    NothingLeads(cfg, w, id, state, slack);
    NoteLeads(cfg, w, id, FetchedLogs(lines), state, slack);
  }

  lemma CollectLeads(cfg: Config, w: World, id: JobId, job: Job, s: Sight, state: JobState, slack: nat)
    requires Stands(w, id, state, slack)
    ensures Leads(cfg, w, Collect(id, job, s), id, state, slack)
  {
    hide Stands, Leads;
    NothingLeads(cfg, w, id, state, slack);
    if Progressed(job, s) {
      NoteLeads(cfg, w, id, SaveCheckpoint(s.saved.value), state, slack);
    }
  }

  lemma PinLeads(cfg: Config, w: World, id: JobId, job: Job, s: Sight, state: JobState, slack: nat)
    requires Stands(w, id, state, slack)
    ensures Leads(cfg, w, Pin(cfg, id, job, s), id, state, slack)
  {
    hide Stands, Leads;
    NothingLeads(cfg, w, id, state, slack);
    if s.fallback.Some? {
      NoteLeads(cfg, w, id, PinTo(s.fallback.value), state, slack);
    }
  }

  lemma PreemptCommits(cfg: Config, w: World, id: JobId, job: Job, h: Handle, s: Sight)
    requires Stands(w, id, job.state, 0) && job.state in ACTIVE
    ensures Commits(cfg, w, PreemptScript(cfg, id, job, h, s))
  {
    hide Stands, Commits, LegalTransitions, Collect, Pin;
    var collect, pin := Collect(id, job, s), Pin(cfg, id, job, s);
    TerminateLeads(cfg, w, h, id, job.state, 0);
    var w1 := Play(w, [Terminate(h)]);
    CollectLeads(cfg, w1, id, job, s, job.state, 0);
    BothLead(cfg, w, [Terminate(h)], collect, id, job.state, 0);
    var front := [Terminate(h)] + collect;
    NoteLeads(cfg, Play(w, front), id, CountPreemption, job.state, 0);
    BothLead(cfg, w, front, [Annotate(id, CountPreemption)], id, job.state, 1);
    var counted := front + [Annotate(id, CountPreemption)];
    if CanTransition(job.state, Preempted) {
      BackInLineCommits(cfg, Play(w, counted), id, job, s);
    }
    BothCommit(cfg, w, counted, BackInLine(cfg, id, job, s));
  }

  lemma BothCommit(cfg: Config, w: World, a: seq<Effect>, b: seq<Effect>)
    requires Commits(cfg, w, a) && (b == [] || Commits(cfg, Play(w, a), b))
    ensures Commits(cfg, w, a + b)
  {
    if b == [] {
      assert a + b == a;
    } else {
      CommitBoth(cfg, w, a, b);
    }
  }

  lemma BackInLineCommits(cfg: Config, w: World, id: JobId, job: Job, s: Sight)
    requires Stands(w, id, job.state, 1) && CanTransition(job.state, Preempted)
    ensures Commits(cfg, w, BackInLine(cfg, id, job, s))
  {
    hide Stands, Commits, Pin;
    var stop, pin := [Stop(id, Preempted, None)], Pin(cfg, id, job, s);
    StopLeads(cfg, w, id, job.state, Preempted, None);
    PinLeads(cfg, Play(w, stop), id, job, s, Preempted, 0);
    BothLead(cfg, w, stop, pin, id, Preempted, 0);
    StepLeads(cfg, Play(w, stop + pin), id, Preempted, Queued, None);
    CommitBoth(cfg, w, stop + pin, [Move(id, Queued, None, None, false)]);
  }

  /** Stopping a machine, fetching its last lines and ending its job. */
  lemma EndCommits(cfg: Config, w: World, id: JobId, state: JobState, h: Handle, lines: nat, to: JobState, exit: Option<int>)
    requires Stands(w, id, state, 0) && CanTransition(state, to) && to in TERMINAL
    ensures Commits(cfg, w, [Terminate(h)] + Drain(id, lines) + [Stop(id, to, exit)])
    ensures Commits(cfg, w, [Terminate(h)] + Drain(id, lines))
  {
    hide Stands, Commits, LegalTransitions, Drain;
    var drain := Drain(id, lines);
    TerminateLeads(cfg, w, h, id, state, 0);
    DrainLeads(cfg, Play(w, [Terminate(h)]), id, lines, state, 0);
    BothLead(cfg, w, [Terminate(h)], drain, id, state, 0);
    StopLeads(cfg, Play(w, [Terminate(h)] + drain), id, state, to, exit);
    CommitBoth(cfg, w, [Terminate(h)] + drain, [Stop(id, to, exit)]);
  }

  lemma ResponseCommits(cfg: Config, w: World, id: JobId, job: Job, h: Handle, price: real, now: real, s: Sight)
    requires Stands(w, id, job.state, 0) && job.state in ACTIVE
    ensures Commits(cfg, w, Response(cfg, id, job, h, price, now, s))
  {
    hide Stands, Commits, AtCeiling, PreemptScript;
    EndCommits(cfg, w, id, job.state, h, 0, Failed, None);
    assert [Terminate(h)] + Drain(id, 0) + [Stop(id, Failed, None)] == [Terminate(h), Stop(id, Failed, None)];
    EndCommits(cfg, w, id, job.state, h, s.lateLines, Failed, None);
    PreemptCommits(cfg, w, id, job, h, s);
    NothingCommits(cfg, w);
    if StateFor(s.status) in TERMINAL {
      EndCommits(cfg, w, id, job.state, h, 0, StateFor(s.status), s.exit);
      assert [Terminate(h)] + Drain(id, 0) + [Stop(id, StateFor(s.status), s.exit)]
          == [Terminate(h), Stop(id, StateFor(s.status), s.exit)];
    } else if s.status != SeenInterrupted {
      ForwardCommits(cfg, w, id, job, s);
    }
  }

  lemma NothingCommits(cfg: Config, w: World)
    ensures Commits(cfg, w, [])
  {
  }

  lemma ForwardCommits(cfg: Config, w: World, id: JobId, job: Job, s: Sight)
    requires Stands(w, id, job.state, 0) && job.state in ACTIVE && StateFor(s.status) in {Allocating, Running}
    ensures Commits(cfg, w, Forward(id, job, s))
  {
    hide Stands, Commits;
    NothingCommits(cfg, w);
    if CanTransition(job.state, ForwardTo(job, s)) && ForwardTo(job, s) != job.state {
      StepLeads(cfg, w, id, job.state, ForwardTo(job, s), s.exit);
    }
  }

  lemma SettlementLeads(cfg: Config, w: World, id: JobId, price: real, now: real)
    requires id < |w.db.jobs| && Stands(w, id, w.db.jobs[id].state, 0) && w.db.jobs[id].state in ACTIVE
    ensures Leads(cfg, w, Settlement(w.db, id, price, now), id, w.db.jobs[id].state, 0)
  {
    hide Spent, Quantize;
    var state := w.db.jobs[id].state;
    NothingLeads(cfg, w, id, state, 0);
    var a := Accrued(w.db, id, price, now);
    if 0 < a {
      OneLeads(cfg, w, Accrue(id, a), id, state, 0);
    }
  }

  /** Every effect of looking at an active job is enabled when its turn comes, whatever the backend says. */
  lemma ScriptCommits(cfg: Config, w: World, id: JobId, price: real, now: real, s: Sight)
    requires Inv(cfg, w) && id < |w.db.jobs| && w.db.jobs[id].state in ACTIVE
    ensures Commits(cfg, w, Script(cfg, w.db, id, price, now, s))
  {
    hide Commits, Settlement, Drain, Response, LegalTransitions;
    var job := w.db.jobs[id];
    NothingCommits(cfg, w);
    if Reachable(cfg, job) {
      assert LogFits(w.db, id);
      var settle, drain := Settlement(w.db, id, price, now), Drain(id, s.newLines);
      SettlementLeads(cfg, w, id, price, now);
      var settled := Play(w, settle);
      if job.cancelRequested {
        CancelCommits(cfg, settled, id, job, job.place.value, s.newLines);
        CommitBoth(cfg, w, settle, CancelScript(id, job, job.place.value, s.newLines));
      } else {
        DrainLeads(cfg, settled, id, s.newLines, job.state, 0);
        BothLead(cfg, w, settle, drain, id, job.state, 0);
        ResponseCommits(cfg, Play(w, settle + drain), id, job, job.place.value, price, now, s);
        CommitBoth(cfg, w, settle + drain, Response(cfg, id, job, job.place.value, price, now, s));
      }
    }
  }

  lemma CancelCommits(cfg: Config, w: World, id: JobId, job: Job, h: Handle, lines: nat)
    requires Stands(w, id, job.state, 0)
    ensures Commits(cfg, w, CancelScript(id, job, h, lines))
  {
    hide Stands, Commits, LegalTransitions, Drain;
    var drain := Drain(id, lines);
    TerminateLeads(cfg, w, h, id, job.state, 0);
    DrainLeads(cfg, Play(w, [Terminate(h)]), id, lines, job.state, 0);
    BothLead(cfg, w, [Terminate(h)], drain, id, job.state, 0);
    if CanTransition(job.state, Cancelled) {
      EndCommits(cfg, w, id, job.state, h, lines, Cancelled, None);
    } else {
      assert [Terminate(h)] + drain + [] == [Terminate(h)] + drain;
    }
  }

  /** Any answer of a backend about any job that the broker can have may be acted on. */
  lemma AdvanceReached(cfg: Config, done: seq<Effect>, id: JobId, price: real, now: real, s: Sight)
    requires Reached(cfg, done) && id < |After(done).db.jobs| && After(done).db.jobs[id].state in ACTIVE
    ensures Reached(cfg, done + Script(cfg, After(done).db, id, price, now, s))
    ensures After(done + Script(cfg, After(done).db, id, price, now, s))
         == Play(After(done), Script(cfg, After(done).db, id, price, now, s))
  {
    hide Reached, Commits, Script;
    ReachedIsGood(cfg, done);
    ScriptCommits(cfg, After(done), id, price, now, s);
    ReachesMore(cfg, done, Script(cfg, After(done).db, id, price, now, s));
  }

  // ------------------------------------------------------------------------- dispatch

  /** Room for one more machine of the job's owner, and for its reservation in the pool. */
  predicate HasRoom(cfg: Config, db: Db, id: JobId)
    requires id < |db.jobs|
  {
    var job := db.jobs[id];
    && job.user !in db.suspended && RunningCount(db, job.user) < cfg.maxRunning
    && (PoolCommitted(db, job.currency) + job.reserved) as real <= cfg.PoolBudget(job.currency)
  }

  lemma RoomStays(cfg: Config, db: Db, id: JobId)
    requires id < |db.jobs| && HasRoom(cfg, db, id)
    ensures HasRoom(cfg, Noted(db, id, CountAttempt), id)
  {
    hide Held, Total;
    var db' := Noted(db, id, CountAttempt);
    CountSame(db.jobs, db'.jobs, db.jobs[id].user, |db.jobs|);
    SumHoldsSame(db.jobs, db.ledger, db'.jobs, db'.ledger, ActiveIn(db.jobs[id].currency), |db.jobs|);
  }

  lemma DispatchReached(cfg: Config, done: seq<Effect>, h: Handle, id: JobId)
    requires Reached(cfg, done)
    requires var w := After(done);
             && id < |w.db.jobs| && w.db.jobs[id].state == Queued && NameFree(w.machines, h, id)
             && HasRoom(cfg, w.db, id)
    ensures Reached(cfg, done + DispatchScript(h, id))
    ensures After(done + DispatchScript(h, id)) == DispatchCut(After(done), h, id, 3)
  {
    hide RunningCount, PoolCommitted, Written, WritesOf, Reached, After;
    var w := After(done);
    ReachedIsGood(cfg, done);
    assert LogsFit(w.db);
    RoomStays(cfg, w.db, id);
    var launched := Apply(w, Launch(h, id));
    var counted := Apply(launched, Annotate(id, CountAttempt));
    assert counted.db == Noted(w.db, id, CountAttempt);
    CommitOne(cfg, w, Launch(h, id));
    CommitOne(cfg, launched, Annotate(id, CountAttempt));
    CommitBoth(cfg, w, [Launch(h, id)], [Annotate(id, CountAttempt)]);
    CommitOne(cfg, counted, Move(id, Allocating, Some(h), None, false));
    CommitBoth(cfg, w, [Launch(h, id)] + [Annotate(id, CountAttempt)], [Move(id, Allocating, Some(h), None, false)]);
    assert DispatchScript(h, id)
        == [Launch(h, id)] + [Annotate(id, CountAttempt)] + [Move(id, Allocating, Some(h), None, false)];
    ReachesMore(cfg, done, DispatchScript(h, id));
  }
}
