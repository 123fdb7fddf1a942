/** The only code that writes the tables (gpu_broker/store.py). Each method commits
    one transaction, so its effect is one whole step of the tables or none. */
module Store {
  import opened Wrappers
  import opened Money
  import opened States
  import opened Ledger
  import opened Tables
  import opened World

  datatype IllegalTransition = IllegalTransition(id: JobId, from: JobState, to: JobState)

  class Store {
    var jobs: seq<Job>
    var ledger: seq<Entry>
    var history: seq<seq<Row>>
    var suspended: set<UserId>
    var clock: Clock

    /** The tables as one value. */
    ghost function View(): Db
      reads this
    {
      Db(jobs, ledger, history, suspended, clock)
    }

    ghost predicate Valid()
      reads this
    {
      |history| == |jobs|
    }

    constructor ()
      ensures Valid() && View() == EMPTY_DB
    {
      jobs, ledger, history, suspended, clock := [], [], [], {}, Clock(0.0, 0);
    }

    /** Time passes between two calls; periods never run backwards. */
    method Elapse(moment: Clock)
      requires clock.now <= moment.now && clock.period <= moment.period
      modifies this`clock
      ensures View() == old(View()).(clock := moment)
    {
      clock := moment;
    }

    // ------------------------------------------------------------------ writing

    method InsertLedger(id: JobId, job: Job, w: LedgerWrite)
      modifies this`ledger
      ensures ledger == old(ledger) + [RowFor(old(View()), id, job, w)]
    {
      ledger := ledger + [Entry(Some(id), Some(job.user), w.currency, w.kind, w.amount,
                                clock.period, clock.now, None)];
    }

    method InsertAll(id: JobId, job: Job, ws: seq<LedgerWrite>)
      modifies this`ledger
      ensures ledger == Written(old(View()), id, job, ws)
    {
      assert ledger == Written(View(), id, job, []);
      for i := 0 to |ws|
        invariant ledger == Written(old(View()), id, job, ws[..i])
      {
        InsertLedger(id, job, ws[i]);
        assert ws[..i + 1] == ws[..i] + [ws[i]];
      }
      assert ws[..|ws|] == ws;
    }

    method CreateJob(user: UserId, gpu: GpuType, currency: Currency, reserved: real) returns (id: JobId)
      requires Valid()
      modifies this
      ensures Valid() && id == old(|jobs|)
      ensures View() == Created(old(View()), user, gpu, currency, Quantize(reserved))
    {
      id := |jobs|;
      var job := Job(user, gpu, currency, Quantize(reserved), Queued, clock.now, None, None,
                     None, None, 0, 0, None, None, false, 0);
      jobs := jobs + [job];
      history := history + [[Row(None, Queued)]];
      if 0 < job.reserved {
        InsertLedger(id, job, LedgerWrite(Reserve, job.reserved, currency));
      }
    }

    method RecordRefusal(user: UserId, gpu: GpuType, currency: Currency, reserved: real) returns (id: JobId)
      requires Valid()
      modifies this
      ensures Valid() && id == old(|jobs|)
      ensures View() == RefusalRecorded(old(View()), user, gpu, currency, Quantize(reserved))
    {
      id := |jobs|;
      jobs := jobs + [Job(user, gpu, currency, Quantize(reserved), Refused, clock.now, None,
                          Some(clock.now), None, None, 0, 0, None, None, false, 0)];
      history := history + [[Row(None, Refused)]];
    }

    /** What is left of a finishing job's hold, once the rows the caller is already writing are counted. */
    method ReleaseRemainingHold(id: JobId, job: Job, extra: seq<LedgerWrite>) returns (ws: seq<LedgerWrite>)
      ensures ws == ReleaseOfRemainder(Held(ledger, OfJob(id, job.currency)), job.currency, extra)
    {
      var held, _ := Aggregate(ledger, OfJob(id, job.currency));
      var outstanding := held;
      for i := 0 to |extra|
        invariant outstanding == Outstanding(held, job.currency, extra[..i])
      {
        assert extra[..i + 1][..i] == extra[..i];
        var w := extra[i];
        if w.currency == job.currency {
          if w.kind == Reserve {
            outstanding := outstanding + w.amount;
          } else if w.kind == Release || w.kind == Kind.Settle {
            outstanding := outstanding - w.amount;
          }
        }
      }
      assert extra[..|extra|] == extra;
      if outstanding <= 0 {
        ws := [];
      } else {
        ws := [LedgerWrite(Release, outstanding, job.currency)];
      }
    }

    /** Moves a job along an edge, or changes nothing. The snapshot decides which edge is asked for;
        the guarded update refuses it when the row has moved on since the snapshot was read. */
    method Transition(id: JobId, snap: Job, to: JobState, place: Option<Handle>, exit: Option<int>,
                      clear: bool, extra: seq<LedgerWrite>)
      returns (r: Result<Job, IllegalTransition>)
      requires Valid()
      modifies this
      ensures Valid()
      ensures r.Ok? <==> TransitionCommits(old(View()), id, snap, to)
      ensures r.Ok? ==> View() == Transitioned(old(View()), id, snap, to, place, exit, clear, extra)
      ensures r.Ok? ==> r.value == MovedJob(snap, snap, to, place, exit, clear, clock.now)
      ensures r.Err? ==> View() == old(View())
    {
      hide LegalTransitions, Written, WritesOf, RowFor;
      if !CanTransition(snap.state, to) {
        return Err(IllegalTransition(id, snap.state, to));
      }
      var writes := WritesFor(id, snap, to, extra);
      if id >= |jobs| || jobs[id].state != snap.state {
        return Err(IllegalTransition(id, snap.state, to));
      }
      var startedAt, finishedAt := snap.startedAt, snap.finishedAt;
      if to in ACTIVE && startedAt == None {
        startedAt := Some(clock.now);
      }
      if to in TERMINAL {
        finishedAt := Some(clock.now);
      }
      var newPlace := if clear then None else if place.Some? then place else snap.place;
      var newExit := if exit.Some? then exit else snap.exitCode;
      var moved := jobs[id].(state := to, place := newPlace, startedAt := startedAt,
                             finishedAt := finishedAt, exitCode := newExit);
      assert moved == MovedJob(jobs[id], snap, to, place, exit, clear, clock.now);
      r := Ok(snap.(state := to, place := newPlace, startedAt := startedAt,
                    finishedAt := finishedAt, exitCode := newExit));
      Commit(id, snap, moved, writes);
    }

    /** The one transaction of a transition: the job row, its log row and its ledger rows. */
    method Commit(id: JobId, snap: Job, moved: Job, writes: seq<LedgerWrite>)
      requires Valid() && id < |jobs|
      modifies this
      ensures Valid()
      ensures View() == old(View()).(jobs := old(jobs)[id := moved],
                                     history := old(history)[id := old(history)[id] + [Row(Some(snap.state), moved.state)]],
                                     ledger := Written(old(View()), id, snap, writes))
    {
      InsertAll(id, snap, writes);
      jobs := jobs[id := moved];
      history := history[id := history[id] + [Row(Some(snap.state), moved.state)]];
    }

    method WritesFor(id: JobId, snap: Job, to: JobState, extra: seq<LedgerWrite>) returns (ws: seq<LedgerWrite>)
      ensures ws == WritesOf(View(), id, snap, to, extra)
    {
      ws := extra;
      if to in TERMINAL {
        var rest := ReleaseRemainingHold(id, snap, extra);
        ws := ws + rest;
      }
    }

    /** Spend on a running job, and the hold it converts, together. */
    method Settle(id: JobId, amount: int)
      requires Valid() && id < |jobs|
      modifies this`ledger
      ensures View() == SettledFor(old(View()), id, amount)
    {
      if amount <= 0 {
        return;
      }
      InsertLedger(id, jobs[id], LedgerWrite(Kind.Settle, amount, jobs[id].currency));
      InsertLedger(id, jobs[id], LedgerWrite(Release, amount, jobs[id].currency));
    }

    method Annotate(id: JobId, note: Note)
      requires Valid() && id < |jobs|
      modifies this`jobs
      ensures View() == Noted(old(View()), id, note)
      ensures note == AskToCancel ==> jobs == old(jobs)[id := old(jobs[id]).(cancelRequested := true)]
    {
      var job := jobs[id];
      match note {
        case CountAttempt => job := job.(attempts := job.attempts + 1);
        case CountPreemption => job := job.(preemptions := job.preemptions + 1);
        case SaveCheckpoint(step) => job := job.(checkpoint := Some(step));
        case PinTo(tier) => job := job.(pinned := Some(tier));
        case AskToCancel => job := job.(cancelRequested := true);
        case FetchedLogs(lines) => job := job.(logsFetched := job.logsFetched + lines);
      }
      jobs := jobs[id := job];
    }

    method SetSuspended(users: set<UserId>)
      modifies this`suspended
      ensures View() == old(View()).(suspended := users)
    {
      suspended := users;
    }

    /** Charges the machine's name up to `burned`, its whole cost so far. Passes overlap, so only the part
        the name does not carry yet is written, and a repeated pass writes nothing. */
    method RecordAbandoned(handle: Handle, job: Option<JobId>, user: Option<UserId>,
                           currency: Currency, burned: real)
      returns (delta: int)
      requires Valid()
      modifies this`ledger
      ensures View() == Charged(old(View()), handle,
                                if job.Some? && job.value < |jobs| then job else None, user, currency, delta)
      ensures 0 <= delta
      ensures 0 <= old(Total(ledger, OfMachine(handle.serial, currency), Abandoned)) ==>
                Total(ledger, OfMachine(handle.serial, currency), Abandoned)
                  == (if old(Total(ledger, OfMachine(handle.serial, currency), Abandoned)) < Quantize(burned)
                      then Quantize(burned)
                      else old(Total(ledger, OfMachine(handle.serial, currency), Abandoned)))
    {
      var already := AbandonedFor(handle.serial, currency);
      if 0 <= already {
        AbandonedDelta(burned, already);
      }
      delta := Quantize(burned - already as real);
      if delta <= 0 {
        delta := 0;
        return;
      }
      var known := if job.Some? && job.value < |jobs| then job else None;
      var row := Entry(known, user, currency, Abandoned, delta, clock.period, clock.now, Some(handle.serial));
      TotalAppend(ledger, row, OfMachine(handle.serial, currency), Abandoned);
      ledger := ledger + [row];
    }

    // ------------------------------------------------------------------ reading

    method ActiveJobs() returns (ids: seq<JobId>)
      ensures forall k :: 0 <= k < |ids| ==> ids[k] < |jobs| && jobs[ids[k]].state in ACTIVE
      ensures forall i, k :: 0 <= i < k < |ids| ==> ids[i] < ids[k]
      ensures forall j :: 0 <= j < |jobs| && jobs[j].state in ACTIVE ==> j in ids
    {
      ids := InStates(ACTIVE);
    }

    method QueuedJobs() returns (ids: seq<JobId>)
      ensures forall k :: 0 <= k < |ids| ==> ids[k] < |jobs| && jobs[ids[k]].state == Queued
      ensures forall i, k :: 0 <= i < k < |ids| ==> ids[i] < ids[k]
      ensures forall j :: 0 <= j < |jobs| && jobs[j].state == Queued ==> j in ids
    {
      ids := InStates({Queued});
    }

    /** Rows come back in submission order, which is row order. */
    method InStates(states: set<JobState>) returns (ids: seq<JobId>)
      ensures forall k :: 0 <= k < |ids| ==> ids[k] < |jobs| && jobs[ids[k]].state in states
      ensures forall i, k :: 0 <= i < k < |ids| ==> ids[i] < ids[k]
      ensures forall j :: 0 <= j < |jobs| && jobs[j].state in states ==> j in ids
    {
      ids := [];
      for n := 0 to |jobs|
        invariant forall k :: 0 <= k < |ids| ==> ids[k] < n && jobs[ids[k]].state in states
        invariant forall i, k :: 0 <= i < k < |ids| ==> ids[i] < ids[k]
        invariant forall j :: 0 <= j < n && jobs[j].state in states ==> j in ids
      {
        if jobs[n].state in states {
          ids := ids + [n];
        }
      }
    }

    method RunningCountOf(user: UserId) returns (n: nat)
      ensures n == RunningCount(View(), user)
      ensures n == |set j | 0 <= j < |jobs| && jobs[j].user == user
                            && jobs[j].state in {Allocating, Running, Checkpointing, Resuming}|
    {
      CountIsMachines(jobs, user, |jobs|);
      n := 0;
      for i := 0 to |jobs|
        invariant n == CountActive(jobs, user, i)
      {
        if jobs[i].user == user && jobs[i].state in ACTIVE {
          n := n + 1;
        }
      }
    }

    /** What the pool cap is compared with: spent this period, plus the holds of jobs that have a machine. */
    method PoolCommittedNow(currency: Currency) returns (n: int)
      ensures n == PoolCommitted(View(), currency)
    {
      var _, spent := Aggregate(ledger, OfPool(currency, clock.period));
      var holds := 0;
      for i := 0 to |jobs|
        invariant holds == SumHolds(jobs, ledger, ActiveIn(currency), i)
      {
        if jobs[i].state in ACTIVE && jobs[i].currency == currency {
          var held, _ := Aggregate(ledger, OfJob(i, currency));
          holds := holds + held;
        }
      }
      n := spent + holds;
    }

    /** What machines of this name have already been charged as abandoned. */
    method AbandonedFor(name: nat, currency: Currency) returns (n: int)
      ensures n == Total(ledger, OfMachine(name, currency), Abandoned)
    {
      n := 0;
      for i := 0 to |ledger|
        invariant n == Total(ledger[..i], OfMachine(name, currency), Abandoned)
      {
        assert ledger[..i + 1] == ledger[..i] + [ledger[i]];
        TotalAppend(ledger[..i], ledger[i], OfMachine(name, currency), Abandoned);
        if ledger[i].machine == Some(name) && ledger[i].currency == currency && ledger[i].kind == Abandoned {
          n := n + ledger[i].amount;
        }
      }
      assert ledger[..|ledger|] == ledger;
    }

    method JobSpend(id: JobId) returns (n: int)
      ensures n == Spent(ledger, OfJobAnyCurrency(id))
    {
      var _, spent := Aggregate(ledger, OfJobAnyCurrency(id));
      n := spent;
    }
  }

  /** The part of a machine's whole cost that is not written down yet. */
  lemma AbandonedDelta(burned: real, already: int)
    requires 0 <= already
    ensures var delta := Quantize(burned - already as real);
            && (0 < delta <==> already < Quantize(burned))
            && (0 < delta ==> already + delta == Quantize(burned))
  {
    if already as real <= burned {
      QuantizeMinusWhole(burned, already);
    } else {
      QuantizeMonotone(burned, already as real);
      QuantizeWhole(already);
      QuantizeMonotone(burned - already as real, 0.0);
      QuantizeWhole(0);
    }
  }
}
