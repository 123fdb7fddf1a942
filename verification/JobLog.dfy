/** What one job may store of its output (gpu_broker/store.py `_within_log_budget`, `append_log`,
    `append_backend_logs`). */
module JobLog {

  datatype Stream = Stdout | Stderr | FromBroker

  datatype Line = Line(stream: Stream, text: string)

  /** `s[:end]` as Python slices: a negative end counts from the back. */
  function Sliced(s: string, end: int): string {
    var n := if end < 0 then |s| + end else end;
    if n <= 0 then "" else if |s| <= n then s else s[..n]
  }

  function ClipText(width: int, text: string): string {
    if |text| <= width then text else Sliced(text, width - 3) + "..."
  }

  function Clip(width: int, line: Line): Line {
    line.(text := ClipText(width, line.text))
  }

  function ClipAll(width: int, lines: seq<Line>): seq<Line> {
    seq(|lines|, i requires 0 <= i < |lines| => Clip(width, lines[i]))
  }

  /** Cutting a long line makes it fit exactly when the width has room for the three dots.
      Below that the slice counts from the back, and the line can even grow. */
  lemma ClippedFitsIff(width: int, text: string)
    requires width < |text|
    ensures |ClipText(width, text)| <= width <==> 3 <= width
    ensures 3 <= width ==> ClipText(width, text) == text[..width - 3] + "..."
    ensures width < 3 && 0 < |text| + width - 3 ==> ClipText(width, text) == text[..|text| + width - 3] + "..."
  {
  }

  /** Everything ever offered, as far as it is kept: all of it while there is room,
      and then the first lines and the notice. */
  function Kept(cap: nat, width: int, notice: Line, all: seq<Line>): seq<Line>
    requires 0 < cap
  {
    if |all| < cap then ClipAll(width, all) else ClipAll(width, all[..cap - 1]) + [notice]
  }

  class JobLog {
    const cap: nat
    const width: int
    const notice: Line
    var rows: seq<Line>
    var fetched: nat
    /** Every line ever offered, and how many of those were polled from the backend. */
    ghost var offered: seq<Line>
    ghost var polled: nat

    ghost predicate Valid()
      reads this
    {
      0 < cap && rows == Kept(cap, width, notice, offered) && fetched == polled
    }

    constructor (cap: nat, width: int, notice: Line)
      requires 0 < cap
      ensures Valid() && offered == [] && rows == [] && fetched == 0
      ensures this.cap == cap && this.width == width && this.notice == notice
    {
      this.cap, this.width, this.notice := cap, width, notice;
      rows, fetched, offered, polled := [], 0, [], 0;
    }

    /** `_within_log_budget`. */
    method WithinBudget(lines: seq<Line>) returns (keep: seq<Line>)
      requires Valid()
      ensures rows + keep == Kept(cap, width, notice, offered + lines)
    {
      if |rows| >= cap {
        assert (offered + lines)[..cap - 1] == offered[..cap - 1];
        return [];
      }
      var clipped := [];
      for i := 0 to |lines|
        invariant clipped == ClipAll(width, lines[..i])
      {
        clipped := clipped + [Clip(width, lines[i])];
      }
      assert lines[..|lines|] == lines;
      assert rows == ClipAll(width, offered);
      var room := cap - |rows|;
      if |clipped| < room {
        assert ClipAll(width, offered) + ClipAll(width, lines) == ClipAll(width, offered + lines);
        return clipped;
      }
      assert ClipAll(width, offered) + ClipAll(width, lines)[..room - 1] == ClipAll(width, (offered + lines)[..cap - 1]);
      return clipped[..room - 1] + [notice];
    }

    /** `append_log`: a line of the broker's own. */
    method AppendLog(line: Line)
      requires Valid()
      modifies this
      ensures Valid() && offered == old(offered) + [line] && polled == old(polled)
    {
      var keep := WithinBudget([line]);
      rows := rows + keep;
      offered := offered + [line];
    }

    /** `append_backend_logs`: the lines one poll brought. All of them move the cursor, also those that are dropped. */
    method AppendBackendLogs(lines: seq<Line>) returns (cursor: nat)
      requires Valid()
      modifies this
      ensures Valid() && offered == old(offered) + lines && polled == old(polled) + |lines| && cursor == fetched
    {
      if lines == [] {
        assert offered + lines == offered;
        return fetched;
      }
      var keep := WithinBudget(lines);
      rows := rows + keep;
      fetched := fetched + |lines|;
      offered, polled := offered + lines, polled + |lines|;
      cursor := fetched;
    }
  }

  /** What the budget promises, over any sequence of appends: the rows never exceed the cap; while fewer lines
      than the cap were offered, every one of them is kept; from then on the notice is the last row, and the only
      row of that position; and every other row is an offered line: as it was when it fits the width, and otherwise
      its first characters and three dots, exactly as wide as allowed. */
  lemma BudgetHolds(log: JobLog, i: nat)
    requires log.Valid() && i < |log.rows|
    ensures |log.rows| == (if |log.offered| < log.cap then |log.offered| else log.cap)
    ensures log.cap <= |log.offered| ==> log.rows[log.cap - 1] == log.notice
    ensures |log.offered| < log.cap || i < log.cap - 1 ==> log.rows[i] == Clip(log.width, log.offered[i])
    ensures (|log.offered| < log.cap || i < log.cap - 1) && |log.offered[i].text| <= log.width ==>
              log.rows[i] == log.offered[i]
    ensures (|log.offered| < log.cap || i < log.cap - 1) && 3 <= log.width < |log.offered[i].text| ==>
              && log.rows[i].stream == log.offered[i].stream && |log.rows[i].text| == log.width
              && log.rows[i].text == log.offered[i].text[..log.width - 3] + "..."
  {
    if |log.offered| < log.cap || i < log.cap - 1 {
      if log.width < |log.offered[i].text| {
        ClippedFitsIff(log.width, log.offered[i].text);
      }
    }
  }
}
