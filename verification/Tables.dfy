/** The broker's durable tables and what each store operation does to them
    (gpu_broker/store.py). A job's identity is its row number. */
module Tables {
  import opened Wrappers
  import opened Money
  import opened States
  import opened Ledger

  type GpuType = nat
  type Tier = nat

  datatype Job = Job(user: UserId, gpu: GpuType, currency: Currency, reserved: int, state: JobState,
                     submittedAt: real, startedAt: Option<real>, finishedAt: Option<real>,
                     place: Option<Handle>, exitCode: Option<int>,
                     attempts: nat, preemptions: nat, pinned: Option<Tier>,
                     checkpoint: Option<nat>, cancelRequested: bool, logsFetched: nat)

  /** One row of `job_transitions`. */
  datatype Row = Row(from: Option<JobState>, to: JobState)

  /** The clock in hours, with the billing period that moment falls in. */
  datatype Clock = Clock(now: real, period: Period)

  datatype Db = Db(jobs: seq<Job>, ledger: seq<Entry>, history: seq<seq<Row>>,
                   suspended: set<UserId>, clock: Clock)

  /** A ledger row committed together with a transition. */
  datatype LedgerWrite = LedgerWrite(kind: Kind, amount: int, currency: Currency)

  function RowFor(db: Db, id: JobId, job: Job, w: LedgerWrite): Entry {
    Entry(Some(id), Some(job.user), w.currency, w.kind, w.amount, db.clock.period, db.clock.now, None)
  }

  // ------------------------------------------------------------------ creating

  function NewJob(db: Db, user: UserId, gpu: GpuType, currency: Currency, reserved: int, state: JobState): Job {
    Job(user, gpu, currency, reserved, state, db.clock.now, None,
        if state == Refused then Some(db.clock.now) else None,
        None, None, 0, 0, None, None, false, 0)
  }

  /** `create_job`: the job row, its first transition and its hold, in one transaction. */
  function Created(db: Db, user: UserId, gpu: GpuType, currency: Currency, reserved: int): Db {
    var id := |db.jobs|;
    var job := NewJob(db, user, gpu, currency, reserved, Queued);
    db.(jobs := db.jobs + [job],
        history := db.history + [[Row(None, Queued)]],
        ledger := if 0 < reserved
                  then db.ledger + [RowFor(db, id, job, LedgerWrite(Reserve, reserved, currency))]
                  else db.ledger)
  }

  /** `record_refusal`: a job row that never held anything. */
  function RefusalRecorded(db: Db, user: UserId, gpu: GpuType, currency: Currency, reserved: int): Db {
    db.(jobs := db.jobs + [NewJob(db, user, gpu, currency, reserved, Refused)],
        history := db.history + [[Row(None, Refused)]])
  }

  // ---------------------------------------------------------------- transitions

  /** What `_release_remaining_hold` starts from, given the rows the caller is already writing. */
  function Outstanding(held: int, currency: Currency, extra: seq<LedgerWrite>): int {
    if extra == [] then held
    else
      var rest := Outstanding(held, currency, extra[..|extra| - 1]);
      var w := extra[|extra| - 1];
      if w.currency != currency then rest
      else if w.kind == Reserve then rest + w.amount
      else if w.kind == Release || w.kind == Settle then rest - w.amount
      else rest
  }

  function ReleaseOfRemainder(held: int, currency: Currency, extra: seq<LedgerWrite>): seq<LedgerWrite> {
    var outstanding := Outstanding(held, currency, extra);
    if outstanding <= 0 then [] else [LedgerWrite(Release, outstanding, currency)]
  }

  /** Every ledger row a transition commits: the caller's, then the release of a finishing job's hold. */
  function WritesOf(db: Db, id: JobId, snap: Job, to: JobState, extra: seq<LedgerWrite>): seq<LedgerWrite> {
    if to in TERMINAL
    then extra + ReleaseOfRemainder(Held(db.ledger, OfJob(id, snap.currency)), snap.currency, extra)
    else extra
  }

  function Written(db: Db, id: JobId, job: Job, ws: seq<LedgerWrite>): (l: seq<Entry>)
    ensures |l| == |db.ledger| + |ws|
  {
    db.ledger + seq(|ws|, i requires 0 <= i < |ws| => RowFor(db, id, job, ws[i]))
  }

  /** The row after the guarded UPDATE: the columns it names come from the caller's snapshot
      (which may be stale), every other column from the row itself. */
  function MovedJob(row: Job, snap: Job, to: JobState, place: Option<Handle>, exit: Option<int>,
                    clear: bool, now: real): Job {
    row.(state := to,
         place := if clear then None else if place.Some? then place else snap.place,
         startedAt := if to in ACTIVE && snap.startedAt.None? then Some(now) else snap.startedAt,
         finishedAt := if to in TERMINAL then Some(now) else snap.finishedAt,
         exitCode := if exit.Some? then exit else snap.exitCode)
  }

  /** When `transition` commits: the snapshot's state has the edge, and the row still has that state. */
  predicate TransitionCommits(db: Db, id: JobId, snap: Job, to: JobState) {
    id < |db.jobs| && CanTransition(snap.state, to) && db.jobs[id].state == snap.state
  }

  /** `transition`: the job row, the history row and the ledger rows, in one transaction. */
  function Transitioned(db: Db, id: JobId, snap: Job, to: JobState, place: Option<Handle>,
                        exit: Option<int>, clear: bool, extra: seq<LedgerWrite>): Db
    requires id < |db.jobs| == |db.history|
  {
    var job := MovedJob(db.jobs[id], snap, to, place, exit, clear, db.clock.now);
    db.(jobs := db.jobs[id := job],
        history := db.history[id := db.history[id] + [Row(Some(snap.state), to)]],
        ledger := Written(db, id, snap, WritesOf(db, id, snap, to, extra)))
  }

  // ----------------------------------------------------------------- settlement

  /** `settle`: spend and the matching release of the hold, in one transaction. */
  function SettledFor(db: Db, id: JobId, amount: int): Db
    requires id < |db.jobs|
  {
    var job := db.jobs[id];
    if amount <= 0 then db
    else db.(ledger := db.ledger
               + [RowFor(db, id, job, LedgerWrite(Settle, amount, job.currency))]
               + [RowFor(db, id, job, LedgerWrite(Release, amount, job.currency))])
  }

  /** `record_abandoned`: one ABANDONED row, for a machine with no finished work behind it. */
  function Charged(db: Db, handle: Handle, job: Option<JobId>, user: Option<UserId>,
                   currency: Currency, amount: int): Db
  {
    if amount <= 0 then db
    else db.(ledger := db.ledger + [Entry(job, user, currency, Abandoned, amount, db.clock.period,
                                          db.clock.now, Some(handle.serial))])
  }

  // ---------------------------------------------------------------- other columns

  /** The single-column updates that touch neither state nor money. */
  datatype Note =
    | CountAttempt
    | CountPreemption
    | SaveCheckpoint(step: nat)
    | PinTo(tier: Tier)
    | AskToCancel
    | FetchedLogs(lines: nat)

  function NotedJob(job: Job, note: Note): Job {
    match note
    case CountAttempt => job.(attempts := job.attempts + 1)
    case CountPreemption => job.(preemptions := job.preemptions + 1)
    case SaveCheckpoint(step) => job.(checkpoint := Some(step))
    case PinTo(tier) => job.(pinned := Some(tier))
    case AskToCancel => job.(cancelRequested := true)
    case FetchedLogs(lines) => job.(logsFetched := job.logsFetched + lines)
  }

  function Noted(db: Db, id: JobId, note: Note): Db
    requires id < |db.jobs|
  {
    db.(jobs := db.jobs[id := NotedJob(db.jobs[id], note)])
  }

  // ------------------------------------------------------- what a transition leaves held

  function AmountOf(w: LedgerWrite, kind: Kind, currency: Currency): int {
    if w.kind == kind && w.currency == currency then w.amount else 0
  }

  /** The caller's rows of one kind and currency, added up. */
  function WriteTotal(ws: seq<LedgerWrite>, kind: Kind, currency: Currency): int {
    if ws == [] then 0
    else WriteTotal(ws[..|ws| - 1], kind, currency) + AmountOf(ws[|ws| - 1], kind, currency)
  }

  lemma {:induction false} OutstandingIs(held: int, currency: Currency, extra: seq<LedgerWrite>)
    ensures Outstanding(held, currency, extra)
         == held + WriteTotal(extra, Reserve, currency) - WriteTotal(extra, Release, currency)
                 - WriteTotal(extra, Settle, currency)
  {
    if extra != [] {
      OutstandingIs(held, currency, extra[..|extra| - 1]);
    }
  }

  lemma RowHolds(db: Db, id: JobId, job: Job, w: LedgerWrite, currency: Currency)
    ensures HeldIn(RowFor(db, id, job, w), OfJob(id, currency))
         == AmountOf(w, Reserve, currency) - AmountOf(w, Release, currency)
  {
  }

  lemma {:induction false} HeldAfterWrites(db: Db, id: JobId, job: Job, ws: seq<LedgerWrite>, currency: Currency)
    ensures Held(Written(db, id, job, ws), OfJob(id, currency))
         == Held(db.ledger, OfJob(id, currency)) + WriteTotal(ws, Reserve, currency) - WriteTotal(ws, Release, currency)
  {
    hide Held, HeldIn, RowFor, AmountOf;
    if ws == [] {
      assert Written(db, id, job, ws) == db.ledger;
    } else {
      var front := ws[..|ws| - 1];
      HeldAfterWrites(db, id, job, front, currency);
      var e := RowFor(db, id, job, ws[|ws| - 1]);
      RowHolds(db, id, job, ws[|ws| - 1], currency);
      assert Written(db, id, job, ws) == Written(db, id, job, front) + [e];
      HeldAppend(Written(db, id, job, front), e, OfJob(id, currency));
    }
  }

  lemma {:induction false} WriteTotalAppend(ws: seq<LedgerWrite>, w: LedgerWrite, kind: Kind, currency: Currency)
    ensures WriteTotal(ws + [w], kind, currency)
         == WriteTotal(ws, kind, currency) + AmountOf(w, kind, currency)
  {
    assert (ws + [w])[..|ws|] == ws;
  }

  /** A transition into a terminal state leaves exactly the caller's own SETTLE rows held
      when any hold was left to release: settlements are taken off the release
      but never released themselves. */
  lemma TerminalLeavesHeld(db: Db, id: JobId, snap: Job, to: JobState, place: Option<Handle>,
                           exit: Option<int>, clear: bool, extra: seq<LedgerWrite>)
    requires id < |db.jobs| == |db.history| && to in TERMINAL
    ensures var before := Held(db.ledger, OfJob(id, snap.currency));
            var after := Transitioned(db, id, snap, to, place, exit, clear, extra);
            var settled := WriteTotal(extra, Settle, snap.currency);
            var unsettled := before + WriteTotal(extra, Reserve, snap.currency)
                                    - WriteTotal(extra, Release, snap.currency);
            Held(after.ledger, OfJob(id, snap.currency))
              == if settled < unsettled then settled else unsettled
  {
    var c := snap.currency;
    var held := Held(db.ledger, OfJob(id, c));
    OutstandingIs(held, c, extra);
    var ws := WritesOf(db, id, snap, to, extra);
    HeldAfterWrites(db, id, snap, ws, c);
    var outstanding := Outstanding(held, c, extra);
    if outstanding <= 0 {
      assert ws == extra;
    } else {
      var w := LedgerWrite(Release, outstanding, c);
      assert ws == extra + [w];
      WriteTotalAppend(extra, w, Reserve, c);
      WriteTotalAppend(extra, w, Release, c);
    }
  }

  /** So the hold is fully returned exactly when the caller settles nothing in the same call,
      given that its other rows leave something to return. */
  lemma TerminalReturnsHoldIff(db: Db, id: JobId, snap: Job, to: JobState, place: Option<Handle>,
                               exit: Option<int>, clear: bool, extra: seq<LedgerWrite>)
    requires id < |db.jobs| == |db.history| && to in TERMINAL
    requires 0 < Held(db.ledger, OfJob(id, snap.currency))
                 + WriteTotal(extra, Reserve, snap.currency) - WriteTotal(extra, Release, snap.currency)
    ensures Held(Transitioned(db, id, snap, to, place, exit, clear, extra).ledger, OfJob(id, snap.currency)) == 0
        <==> WriteTotal(extra, Settle, snap.currency) == 0
  {
    TerminalLeavesHeld(db, id, snap, to, place, exit, clear, extra);
  }

  /** The case the source describes as typical, a final SETTLE in the same transaction:
      the settled amount stays held after the job is over. */
  lemma FinalSettleStaysHeld(db: Db, id: JobId, snap: Job, amount: int)
    requires id < |db.jobs| == |db.history|
    requires 0 < amount < Held(db.ledger, OfJob(id, snap.currency))
    ensures var after := Transitioned(db, id, snap, Completed, None, None, true,
                                      [LedgerWrite(Settle, amount, snap.currency)]);
            Held(after.ledger, OfJob(id, snap.currency)) == amount
  {
    var extra := [LedgerWrite(Settle, amount, snap.currency)];
    TerminalLeavesHeld(db, id, snap, Completed, None, None, true, extra);
    assert extra == [] + extra;
    WriteTotalAppend([], extra[0], Reserve, snap.currency);
    WriteTotalAppend([], extra[0], Release, snap.currency);
    WriteTotalAppend([], extra[0], Settle, snap.currency);
  }
}
