/** Transition logs, and what any number of writers can do to them
    (gpu_broker/store.py `transition`, gpu_broker/states.py). */
module History {
  import opened Wrappers
  import opened States
  import opened Ledger
  import opened Tables
  import opened Money

  /** Each row starts where the one before it ended, along an edge of the graph. */
  predicate Chained(rows: seq<Row>) {
    forall i :: 1 <= i < |rows| ==>
      rows[i].from == Some(rows[i - 1].to) && CanTransition(rows[i - 1].to, rows[i].to)
  }

  /** A job's log: one opening row, then a legal path to where the job is now. */
  predicate LegalLog(rows: seq<Row>, state: JobState) {
    && rows != []
    && rows[0] in {Row(None, Queued), Row(None, Refused)}
    && Chained(rows)
    && rows[|rows| - 1].to == state
  }

  function PreemptedRows(rows: seq<Row>): nat {
    if rows == [] then 0
    else PreemptedRows(rows[..|rows| - 1]) + (if rows[|rows| - 1].to == Preempted then 1 else 0)
  }

  lemma PreemptedRowsAppend(rows: seq<Row>, row: Row)
    ensures PreemptedRows(rows + [row]) == PreemptedRows(rows) + (if row.to == Preempted then 1 else 0)
  {
    assert (rows + [row])[..|rows|] == rows;
  }

  lemma LogExtends(rows: seq<Row>, from: JobState, to: JobState)
    requires LegalLog(rows, from) && CanTransition(from, to)
    ensures LegalLog(rows + [Row(Some(from), to)], to)
  {
  }

  /** How far along one attempt a state is: the most rows a log can have gained since QUEUED. */
  function Rank(s: JobState): nat {
    match s
    case Preempted => 0
    case Queued => 1
    case Allocating => 2
    case Resuming => 3
    case Running => 4
    case Checkpointing => 5
    case _ => 6
  }

  /** One attempt writes at most six rows, so a log has at most six per preemption and six more. */
  lemma {:induction false} LogLength(rows: seq<Row>, state: JobState)
    requires LegalLog(rows, state)
    ensures |rows| <= 6 * PreemptedRows(rows) + Rank(state)
    ensures |rows| <= 6 * PreemptedRows(rows) + 6
  {
    if |rows| > 1 {
      var front := rows[..|rows| - 1];
      LogLength(front, front[|front| - 1].to);
    }
  }

  /** Nothing follows a terminal row, and REFUSED is only ever a log of one row. */
  lemma NothingAfterTerminal(rows: seq<Row>, state: JobState, i: nat)
    requires LegalLog(rows, state) && i < |rows| && rows[i].to in TERMINAL
    ensures i == |rows| - 1
    ensures rows[i].to == Refused ==> |rows| == 1
  {
    forall k | 0 <= k < |rows| - 1
      ensures rows[k].to !in TERMINAL
    {
      assert rows[k + 1].from == Some(rows[k].to);
    }
    assert 0 < i ==> rows[i].from == Some(rows[i - 1].to);
  }

  // ------------------------------------------------------------ many processes

  /** One call some process makes. The snapshot is whatever that process last read,
      so it may disagree with the row in any way. */
  datatype Call =
    | Create(user: UserId, gpu: GpuType, currency: Currency, reserved: int)
    | RecordRefusal(user: UserId, gpu: GpuType, currency: Currency, reserved: int)
    | RecordPreemption(id: JobId)
    | Transition(id: JobId, snap: Job, to: JobState, place: Option<Handle>,
                 exit: Option<int>, clear: bool, extra: seq<LedgerWrite>)

  /** `owed[j]` counts the preemptions recorded for job `j` by processes that have not
      made their transition to PREEMPTED yet (or died before making it). */
  datatype Shared = Shared(db: Db, owed: seq<nat>)

  predicate WellFormed(s: Shared) {
    |s.db.jobs| == |s.db.history| == |s.owed|
  }

  /** `_preempt` records the preemption before it asks for the transition. */
  predicate Allowed(s: Shared, c: Call)
    requires WellFormed(s)
  {
    match c
    case RecordPreemption(id) => id < |s.db.jobs|
    case Transition(id, snap, to, _, _, _, _) =>
      to == Preempted ==> id < |s.owed| && 0 < s.owed[id]
    case _ => true
  }

  /** One call, committed or refused as a whole. */
  function Served(s: Shared, c: Call): (t: Shared)
    requires WellFormed(s) && Allowed(s, c)
    ensures WellFormed(t)
  {
    match c
    case Create(u, g, cur, r) => Shared(Created(s.db, u, g, cur, r), s.owed + [0])
    case RecordRefusal(u, g, cur, r) => Shared(RefusalRecorded(s.db, u, g, cur, r), s.owed + [0])
    case RecordPreemption(id) =>
      Shared(Noted(s.db, id, CountPreemption), s.owed[id := s.owed[id] + 1])
    case Transition(id, snap, to, place, exit, clear, extra) =>
      var db := if TransitionCommits(s.db, id, snap, to)
                then Transitioned(s.db, id, snap, to, place, exit, clear, extra) else s.db;
      Shared(db, if to == Preempted then s.owed[id := s.owed[id] - 1] else s.owed)
  }

  predicate LegalCalls(s: Shared, calls: seq<Call>)
    requires WellFormed(s)
    decreases |calls|
  {
    calls == [] || (Allowed(s, calls[0]) && LegalCalls(Served(s, calls[0]), calls[1..]))
  }

  function ServedAll(s: Shared, calls: seq<Call>): (t: Shared)
    requires WellFormed(s) && LegalCalls(s, calls)
    ensures WellFormed(t)
    decreases |calls|
  {
    if calls == [] then s else ServedAll(Served(s, calls[0]), calls[1..])
  }

  predicate AllLogsLegal(s: Shared)
    requires WellFormed(s)
  {
    forall j :: 0 <= j < |s.db.jobs| ==>
      LegalLog(s.db.history[j], s.db.jobs[j].state)
      && PreemptedRows(s.db.history[j]) + s.owed[j] <= s.db.jobs[j].preemptions
  }

  lemma CallKeepsLogsLegal(s: Shared, c: Call)
    requires WellFormed(s) && Allowed(s, c) && AllLogsLegal(s)
    ensures AllLogsLegal(Served(s, c))
  {
    var t := Served(s, c);
    forall j | 0 <= j < |t.db.jobs|
      ensures LegalLog(t.db.history[j], t.db.jobs[j].state)
      ensures PreemptedRows(t.db.history[j]) + t.owed[j] <= t.db.jobs[j].preemptions
    {
      if j == |s.db.jobs| {
        assert t.db.history[j][..0] == [];
      } else if c.Transition? && c.id == j && TransitionCommits(s.db, j, c.snap, c.to) {
        LogExtends(s.db.history[j], c.snap.state, c.to);
        PreemptedRowsAppend(s.db.history[j], Row(Some(c.snap.state), c.to));
      }
    }
  }

  /** However many processes interleave their calls, and however stale the snapshots they call
      with, every job's log stays a legal path from QUEUED (or the single row REFUSED) to the
      job's current state, and its length is bounded by the job's own preemption count. */
  lemma {:induction false} InterleavedLogsLegal(s: Shared, calls: seq<Call>)
    requires WellFormed(s) && AllLogsLegal(s) && LegalCalls(s, calls)
    ensures var t := ServedAll(s, calls);
            forall j :: 0 <= j < |t.db.jobs| ==>
              && LegalLog(t.db.history[j], t.db.jobs[j].state)
              && |t.db.history[j]| <= 6 * t.db.jobs[j].preemptions + 6
    decreases |calls|
  {
    if calls == [] {
      forall j | 0 <= j < |s.db.jobs|
        ensures |s.db.history[j]| <= 6 * s.db.jobs[j].preemptions + 6
      {
        LogLength(s.db.history[j], s.db.jobs[j].state);
      }
    } else {
      CallKeepsLogsLegal(s, calls[0]);
      InterleavedLogsLegal(Served(s, calls[0]), calls[1..]);
      assert ServedAll(s, calls) == ServedAll(Served(s, calls[0]), calls[1..]);
    }
  }

  /** Two processes that read the same job cannot both move it: once one call has committed,
      a second with the first one's snapshot commits only if the first came back to the state it left. */
  lemma SecondWriterLoses(s: Shared, first: Call, second: Call)
    requires WellFormed(s) && first.Transition? && second.Transition? && first.id == second.id
    requires first.snap == second.snap && Allowed(s, first)
    requires TransitionCommits(s.db, first.id, first.snap, first.to)
    ensures !TransitionCommits(Served(s, first).db, second.id, second.snap, second.to)
  {
    assert !CanTransition(first.snap.state, first.snap.state);
  }
}
