/** What a crash between two effects can leave behind, and that it is never more than one thing. */
module Drift {
  import opened Wrappers
  import opened Money
  import opened States
  import opened Ledger
  import opened Tables
  import opened World
  import opened Books
  import opened Advance
  import opened Engine

  /** Compared with `w`, only job `id` may be lost or left between attempts. */
  predicate DriftOfJob(w: World, w': World, id: JobId) {
    Orphans(w') <= Orphans(w) && Lost(w') <= Lost(w) + {id} && Stranded(w') <= Stranded(w) + {id}
  }

  /** Compared with `w`, only job `id` may be lost. */
  predicate LosesOne(w: World, w': World, id: JobId) {
    Orphans(w') <= Orphans(w) && Lost(w') <= Lost(w) + {id} && Stranded(w') <= Stranded(w)
  }

  /** Compared with `w`, only machine `h` may be up with no active job naming it. */
  predicate DriftOfMachine(w: World, w': World, h: Handle) {
    Orphans(w') <= Orphans(w) + {h} && Lost(w') <= Lost(w) && Stranded(w') <= Stranded(w)
  }

  ghost predicate CutSafe(w: World, w': World) {
    (exists id: JobId :: DriftOfJob(w, w', id)) || (exists h: Handle :: DriftOfMachine(w, w', h))
  }

  /** No drift of any kind that was not there before. */
  predicate NoNewDrift(w: World, w': World) {
    Orphans(w') <= Orphans(w) && Lost(w') <= Lost(w) && Stranded(w') <= Stranded(w)
  }

  lemma CutSafeAfter(w: World, w': World, w'': World)
    requires NoNewDrift(w, w') && CutSafe(w', w'')
    ensures CutSafe(w, w'')
  {
    if id: JobId :| DriftOfJob(w', w'', id) {
      assert DriftOfJob(w, w'', id);
    } else {
      var h: Handle :| DriftOfMachine(w', w'', h);
      assert DriftOfMachine(w, w'', h);
    }
  }

  /** Wherever the effects from the `n`th on are cut, at most one thing has drifted since `w`. */
  ghost predicate CutsSafe(w: World, done: seq<Effect>, n: nat) {
    n <= |done| && forall k :: n <= k <= |done| ==> CutSafe(w, After(done[..k]))
  }

  lemma NothingYet(done: seq<Effect>)
    ensures CutsSafe(After(done), done, |done|)
  {
    assert done[..|done|] == done;
    assert DriftOfJob(After(done), After(done), 0);
  }

  /** Drift is kept small piece by piece: a piece that starts with no new drift and can itself
      be cut anywhere may follow. */
  lemma CutsExtend(w: World, done: seq<Effect>, n: nat, es: seq<Effect>)
    requires CutsSafe(w, done, n) && NoNewDrift(w, After(done))
    requires forall k :: 0 <= k <= |es| ==> CutSafe(After(done), Play(After(done), es[..k]))
    ensures CutsSafe(w, done + es, n)
  {
    forall k | n <= k <= |done + es| ensures CutSafe(w, After((done + es)[..k])) {
      if k <= |done| {
        assert (done + es)[..k] == done[..k];
      } else {
        var j := k - |done|;
        assert (done + es)[..k] == done + es[..j];
        PlayConcat(EMPTY, done, es[..j]);
        CutSafeAfter(w, After(done), Play(After(done), es[..j]));
      }
    }
  }

  /** Drift depends on the job table and the machines only. */
  lemma SameDrift(w: World, w': World)
    requires w'.db.jobs == w.db.jobs && w'.machines == w.machines
    ensures Orphans(w') == Orphans(w) && Lost(w') == Lost(w) && Stranded(w') == Stranded(w)
  {
    forall h ensures Recorded(w'.db.jobs, h) <==> Recorded(w.db.jobs, h) {
    }
  }

  lemma ElapseCuts(w: World, done: seq<Effect>, n: nat, moment: Clock)
    requires CutsSafe(w, done, n) && NoNewDrift(w, After(done))
    ensures CutsSafe(w, done + [Elapse(moment)], n) && NoNewDrift(w, After(done + [Elapse(moment)]))
  {
    var es := [Elapse(moment)];
    PlayOne(EMPTY, done, es[0]);
    SameDrift(After(done), After(done + es));
    forall k | 0 <= k <= 1 ensures CutSafe(After(done), Play(After(done), es[..k])) {
      if k == 1 {
        assert es[..1] == [] + es;
        PlayOne(After(done), [], es[0]);
      }
      assert DriftOfJob(After(done), Play(After(done), es[..k]), 0);
    }
    CutsExtend(w, done, n, es);
  }

  lemma CutDrifts(cfg: Config, w: World, w': World, id: JobId, price: real, now: real, s: Sight, k: nat)
    requires id < |w.db.jobs| && CutExactly(cfg, w, w', id, price, now, s, k)
    ensures CutSafe(w, w')
  {
    hide Orphans, Lost, Stranded, Stops, Raises, Falls, LetGoAt, StopAt, Script;
    assert DriftOfJob(w, w', id);
  }

  /** An advance can be cut anywhere, with exactly the drift `CutExactly` names; when it runs to its end without
      raising, nothing new has drifted. */
  lemma AdvanceCuts(cfg: Config, w: World, done: seq<Effect>, n: nat, id: JobId, price: real, now: real, s: Sight)
    requires Reached(cfg, done) && CutsSafe(w, done, n) && NoNewDrift(w, After(done))
    requires id < |After(done).db.jobs| && After(done).db.jobs[id].state in ACTIVE
    ensures var at := After(done); var es := Script(cfg, at.db, id, price, now, s);
            && CutsSafe(w, done + es, n)
            && (forall k :: 0 <= k <= |es| ==> CutExactly(cfg, at, After(done + es[..k]), id, price, now, s, k))
            && (!Raises(cfg, at.db.jobs[id], s) ==> NoNewDrift(w, After(done + es)))
            && (Raises(cfg, at.db.jobs[id], s) ==>
                  LosesOne(w, After(done + es), id) && id in Lost(After(done + es)))
            && |After(done + es).db.jobs| == |at.db.jobs|
            && After(done + es).db.jobs[id].state == StateAfter(cfg, at.db.jobs[id], price, now, s)
            && forall j :: 0 <= j < |at.db.jobs| && j != id ==> After(done + es).db.jobs[j] == at.db.jobs[j]
  {
    hide CutExactly, CutSafe, Script, Play, Orphans, Lost, Stranded, StateAfter, Raises, Stops;
    var at := After(done);
    var es := Script(cfg, at.db, id, price, now, s);
    ReachedIsGood(cfg, done);
    forall k | 0 <= k <= |es|
      ensures CutSafe(at, Play(at, es[..k])) && CutExactly(cfg, at, After(done + es[..k]), id, price, now, s, k)
    {
      AdvanceCrash(cfg, at, id, price, now, s, k);
      CutDrifts(cfg, at, Play(at, es[..k]), id, price, now, s, k);
      PlayConcat(EMPTY, done, es[..k]);
    }
    CutsExtend(w, done, n, es);
    PlayConcat(EMPTY, done, es);
    AdvanceEnds(cfg, at, id, price, now, s);
    AdvanceMoves(cfg, at, id, price, now, s);
  }

  // --------------------------------------------------------------------- dispatching

  /** Giving a queued job a machine. */
  function DispatchScript(h: Handle, id: JobId): seq<Effect> {
    [Launch(h, id), Annotate(id, CountAttempt), Move(id, Allocating, Some(h), None, false)]
  }

  function DispatchCut(w: World, h: Handle, id: JobId, k: nat): World
    requires k <= 3
  {
    if k == 0 then w
    else if k == 1 then Apply(w, Launch(h, id))
    else if k == 2 then Apply(Apply(w, Launch(h, id)), Annotate(id, CountAttempt))
    else Apply(Apply(Apply(w, Launch(h, id)), Annotate(id, CountAttempt)), Move(id, Allocating, Some(h), None, false))
  }

  lemma PlayDispatch(w: World, h: Handle, id: JobId, k: nat)
    requires k <= 3
    ensures Play(w, DispatchScript(h, id)[..k]) == DispatchCut(w, h, id, k)
  {
    var es := DispatchScript(h, id);
    assert es[..0] == [] && es[..1] == [] + [es[0]] && es[..2] == es[..1] + [es[1]] && es[..3] == es[..2] + [es[2]];
    PlayOne(w, [], es[0]);
    PlayOne(w, es[..1], es[1]);
    PlayOne(w, es[..2], es[2]);
  }

  ghost predicate OrphansOnly(w: World, w': World, h: Handle, k: nat) {
    && Lost(w') == Lost(w) && Stranded(w') == Stranded(w)
    && Orphans(w') == (if k == 1 || k == 2 then Orphans(w) + {h} else Orphans(w))
  }

  /** A crash in the middle of a dispatch orphans the new machine, and nothing else:
      the machine carries the job's tag before any record names it. */
  lemma DispatchCrash(w: World, h: Handle, id: JobId, k: nat)
    requires PlacesKnown(w) && |w.db.history| == |w.db.jobs|
    requires id < |w.db.jobs| && w.db.jobs[id].state == Queued && NameFree(w.machines, h, id) && k <= 3
    ensures OrphansOnly(w, DispatchCut(w, h, id, k), h, k)
  {
    hide Recorded, Written, WritesOf, LegalTransitions;
    var w' := DispatchCut(w, h, id, k);
    forall j | 0 <= j < |w.db.jobs|
      ensures j in Lost(w') <==> j in Lost(w)
      ensures j in Stranded(w') <==> j in Stranded(w)
    {
      assert PlaceKnown(w, j);
    }
    forall g ensures g in Orphans(w') <==> g in Orphans(w) || (g == h && (k == 1 || k == 2)) {
      RecordedAfterDispatch(w, h, id, k, g);
    }
  }

  lemma RecordedAfterDispatch(w: World, h: Handle, id: JobId, k: nat, g: Handle)
    requires PlacesKnown(w) && |w.db.history| == |w.db.jobs|
    requires id < |w.db.jobs| && w.db.jobs[id].state == Queued && NameFree(w.machines, h, id) && k <= 3
    ensures Recorded(DispatchCut(w, h, id, k).db.jobs, g) <==> Recorded(w.db.jobs, g) || (g == h && k == 3)
    ensures !Recorded(w.db.jobs, h)
  {
    var w' := DispatchCut(w, h, id, k);
    forall j | 0 <= j < |w.db.jobs|
      ensures Holds(w'.db.jobs, j, g)
         <==> (Holds(w.db.jobs, j, g)) || (j == id && g == h && k == 3)
      ensures w.db.jobs[j].place != Some(h)
    {
      assert PlaceKnown(w, j);
    }
    if g == h && k == 3 {
      assert Holds(w'.db.jobs, id, g);
    }
    if Recorded(w.db.jobs, g) {
      var j :| 0 <= j < |w.db.jobs| && Holds(w.db.jobs, j, g);
      assert Holds(w'.db.jobs, j, g);
    }
  }

  lemma OneMachineDrifts(w: World, w': World, h: Handle, k: nat)
    requires OrphansOnly(w, w', h, k)
    ensures CutSafe(w, w')
  {
    hide Orphans, Lost, Stranded;
    assert DriftOfMachine(w, w', h);
  }

  /** A dispatch can be cut anywhere, with exactly that drift, and finished it leaves none. */
  lemma DispatchCuts(cfg: Config, w: World, done: seq<Effect>, n: nat, h: Handle, id: JobId)
    requires Reached(cfg, done) && CutsSafe(w, done, n) && NoNewDrift(w, After(done))
    requires var at := After(done); id < |at.db.jobs| && at.db.jobs[id].state == Queued && NameFree(at.machines, h, id)
    ensures CutsSafe(w, done + DispatchScript(h, id), n) && NoNewDrift(w, After(done + DispatchScript(h, id)))
    ensures forall k :: 0 <= k <= 3 ==> OrphansOnly(After(done), After(done + DispatchScript(h, id)[..k]), h, k)
  {
    hide Reached, CutSafe, Play, Orphans, Lost, Stranded, DispatchCut, Enabled;
    var at, es := After(done), DispatchScript(h, id);
    ReachedIsGood(cfg, done);
    forall k | 0 <= k <= |es|
      ensures CutSafe(at, Play(at, es[..k])) && OrphansOnly(at, After(done + es[..k]), h, k)
    {
      PlayDispatch(at, h, id, k);
      DispatchCrash(at, h, id, k);
      OneMachineDrifts(at, Play(at, es[..k]), h, k);
      PlayConcat(EMPTY, done, es[..k]);
    }
    CutsExtend(w, done, n, es);
    assert es[..3] == es && OrphansOnly(at, After(done + es[..3]), h, 3);
  }
}
