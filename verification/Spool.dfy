/** One attempt's event spool (controlplane/internal/agent/agent.go): an event is written to the file first,
    the file is sent until it is accepted, and the control plane keeps the first event it sees under each
    sequence number. An append is taken to be atomic. */
module Spool {
  import opened Wrappers

  datatype Kind = Log | Started | Exit

  datatype Event = Event(seqno: nat, kind: Kind, message: string, outcome: Option<nat>, exitCode: Option<int>)

  const WINDOW: nat := 500
  const MESSAGE_LIMIT: nat := 16384

  /** What happens to a request, and to the reply. */
  datatype Reply = NotSent | ReplyLost | Accepted | UnknownAttempt | OtherError

  /** Whether the control plane stored the request's events. */
  predicate Processed(r: Reply) {
    r == ReplyLost || r == Accepted
  }

  /** An event as it is sent: an over-long message is cut. */
  function Wire(e: Event): Event {
    if MESSAGE_LIMIT < |e.message| then e.(message := e.message[..MESSAGE_LIMIT]) else e
  }

  /** A sent event is the spooled one, its message whole unless it is longer than 16384. */
  predicate AsSpooled(sent: Event, e: Event) {
    && (|e.message| <= 16384 ==> sent == e)
    && (16384 < |e.message| ==> sent == e.(message := e.message[..16384]))
  }

  /** The last 500 events, or all of them when there are no more, each as it was spooled. */
  ghost predicate LastAsSpooled(body: seq<Event>, events: seq<Event>) {
    && |body| == (if |events| <= 500 then |events| else 500)
    && forall i :: 0 <= i < |body| ==> AsSpooled(body[i], events[|events| - |body| + i])
  }

  /** What compaction keeps of an event. */
  function Blank(e: Event): Event {
    e.(message := "")
  }

  /** Where the window of the last 500 events starts. */
  function WindowStart(n: nat): nat {
    if n <= WINDOW then 0 else n - WINDOW
  }

  /** The control plane keeps the first event it is sent under each number. */
  function Deliver(server: map<nat, Event>, sent: seq<Event>): map<nat, Event> {
    if sent == [] then server
    else
      var rest := Deliver(server, sent[..|sent| - 1]);
      var e := sent[|sent| - 1];
      if e.seqno in rest then rest else rest[e.seqno := e]
  }

  lemma {:induction false} DeliveredUnder(server: map<nat, Event>, sent: seq<Event>, s: nat)
    ensures s in Deliver(server, sent) <==> s in server || exists i :: 0 <= i < |sent| && sent[i].seqno == s
    ensures s in server ==> Deliver(server, sent)[s] == server[s]
  {
    if sent != [] {
      DeliveredUnder(server, sent[..|sent| - 1], s);
    }
  }

  lemma {:induction false} DeliveredAt(server: map<nat, Event>, sent: seq<Event>, i: nat)
    requires i < |sent| && sent[i].seqno !in server
    requires forall k :: 0 <= k < i ==> sent[k].seqno != sent[i].seqno
    ensures sent[i].seqno in Deliver(server, sent) && Deliver(server, sent)[sent[i].seqno] == sent[i]
  {
    var n := |sent| - 1;
    if i < n {
      DeliveredAt(server, sent[..n], i);
    } else {
      DeliveredUnder(server, sent[..n], sent[n].seqno);
    }
  }

  lemma Delivered(server: map<nat, Event>, sent: seq<Event>)
    requires forall i, j :: 0 <= i < j < |sent| ==> sent[i].seqno != sent[j].seqno
    ensures forall s :: s in Deliver(server, sent) <==> s in server || exists i :: 0 <= i < |sent| && sent[i].seqno == s
    ensures forall s :: s in server ==> Deliver(server, sent)[s] == server[s]
    ensures forall i :: 0 <= i < |sent| && sent[i].seqno !in server ==> Deliver(server, sent)[sent[i].seqno] == sent[i]
  {
    forall s: nat
      ensures s in Deliver(server, sent) <==> s in server || exists i :: 0 <= i < |sent| && sent[i].seqno == s
      ensures s in server ==> Deliver(server, sent)[s] == server[s]
    {
      DeliveredUnder(server, sent, s);
    }
    forall i | 0 <= i < |sent| && sent[i].seqno !in server
      ensures Deliver(server, sent)[sent[i].seqno] == sent[i]
    {
      DeliveredAt(server, sent, i);
    }
  }

  ghost predicate Numbered(events: seq<Event>) {
    forall i :: 0 <= i < |events| ==> events[i].seqno == i + 1
  }

  ghost predicate OneExit(events: seq<Event>) {
    forall i, j :: 0 <= i < |events| && 0 <= j < |events| && events[i].kind == Exit && events[j].kind == Exit ==> i == j
  }

  /** The file is the events ever spooled, except that one the control plane has, or can no longer be sent,
      may have lost its message. */
  ghost predicate Remembers(file: seq<Event>, history: seq<Event>, server: map<nat, Event>) {
    && |file| == |history|
    && forall i :: 0 <= i < |file| ==>
         file[i] == history[i] || (file[i] == Blank(history[i]) && (Has(server, i) || i < WindowStart(|file|)))
  }

  /** The control plane has the event at this place in the file. */
  predicate Has(server: map<nat, Event>, i: nat) {
    i + 1 in server
  }

  /** Everything the control plane has is an event that was spooled, with its own message. */
  ghost predicate Faithful(server: map<nat, Event>, history: seq<Event>) {
    forall s :: s in server ==> 1 <= s <= |history| && AsSpooled(server[s], history[s - 1])
  }

  /** The first `n` events have arrived. */
  ghost predicate Arrived(server: map<nat, Event>, n: nat) {
    forall i :: 0 <= i < n ==> Has(server, i)
  }

  class AttemptSpool {
    /** The spool file; None before the first event and after the attempt is forgotten. */
    var file: Option<seq<Event>>
    var server: map<nat, Event>
    var forgotten: bool
    /** Every event ever spooled, as it was spooled. */
    ghost var history: seq<Event>
    /** How many had been spooled when the control plane last stored a request. */
    ghost var mark: nat

    ghost predicate Valid()
      reads this
    {
      && Numbered(history) && OneExit(history) && Faithful(server, history) && mark <= |history|
      && (file.Some? ==> Remembers(file.value, history, server))
      && (file.None? && !forgotten ==> history == [])
      && (forall i :: mark <= i < |history| ==> !Has(server, i))
      && (forall i :: WindowStart(mark) <= i < mark ==> Has(server, i))
    }

    constructor ()
      ensures Valid() && history == [] && server == map[] && !forgotten
    {
      file, server, forgotten, history, mark := None, map[], false, [], 0;
    }

    /** `readSpool`; a missing file reads as no events. */
    method ReadSpool() returns (events: seq<Event>)
      ensures events == file.GetOr([])
    {
      events := file.GetOr([]);
    }

    /** `spool`: the event gets the next number and is on disk before anything is sent;
        a second exit event is dropped. */
    method Append(kind: Kind, message: string, outcome: Option<nat>, exitCode: Option<int>)
      requires Valid() && !forgotten
      modifies this
      ensures Valid() && server == old(server) && mark == old(mark) && !forgotten
      ensures var e := Event(|old(history)| + 1, kind, message, outcome, exitCode);
              history == (if kind == Exit && (exists i :: 0 <= i < |old(history)| && old(history)[i].kind == Exit)
                          then old(history) else old(history) + [e])
      ensures history != [] ==> file.Some?
    {
      var prior := ReadSpool();
      if kind == Exit {
        for i := 0 to |prior|
          invariant forall k :: 0 <= k < i ==> prior[k].kind != Exit
        {
          if prior[i].kind == Exit {
            assert history[i].kind == Exit;
            return;
          }
        }
      }
      var e := Event(|prior| + 1, kind, message, outcome, exitCode);
      file := Some(prior + [e]);
      history := history + [e];
    }

    /** The request `flushSpool` builds: the last 500 events, and whether any of them ends the attempt. */
    method BuildRequest(events: seq<Event>) returns (body: seq<Event>, terminal: bool)
      ensures |body| == |events| - WindowStart(|events|)
      ensures forall i :: 0 <= i < |body| ==> body[i] == Wire(events[WindowStart(|events|) + i])
      ensures LastAsSpooled(body, events)
      ensures terminal <==> exists i :: 0 <= i < |events| && events[i].outcome.Some?
    {
      hide LastAsSpooled, Wire, WindowStart;
      body, terminal := [], false;
      for i := 0 to |events|
        invariant |body| == i && forall k :: 0 <= k < i ==> body[k] == Wire(events[k])
        invariant terminal <==> exists k :: 0 <= k < i && events[k].outcome.Some?
      {
        var message := events[i].message;
        if |message| > MESSAGE_LIMIT {
          message := message[..MESSAGE_LIMIT];
        }
        if events[i].outcome.Some? {
          terminal := true;
        }
        assert events[i].(message := message) == Wire(events[i]) by { WireIs(events[i]); }
        body := body + [events[i].(message := message)];
      }
      LastWindow(events, body);
      if |body| > WINDOW {
        body := body[|body| - WINDOW..];
      }
      WiredAsSpooled(events, body);
    }

    /** `compactSpool`: the same numbers, without the messages, in one rename. */
    method Compact(events: seq<Event>) returns (kept: seq<Event>)
      ensures |kept| == |events| && forall i :: 0 <= i < |events| ==> kept[i] == Blank(events[i])
      ensures forall i :: 0 <= i < |events| ==> kept[i] == events[i].(message := "")
    {
      kept := [];
      for i := 0 to |events|
        invariant |kept| == i && forall k :: 0 <= k < i ==> kept[k] == Blank(events[k])
      {
        kept := kept + [events[i].(message := "")];
      }
    }

    /** `flushSpool` for this attempt. Whatever became of the request and its reply, and even if the process dies
        between the reply and the rewrite, no event is changed or invented: under each number the control plane has the
        event as it was spooled, compacted since or not. A request that is stored delivers everything exactly when no
        more than 500 events had piled up since the last one that was. */
    method Flush(reply: Reply, dies: bool) returns (failed: bool)
      requires Valid()
      modifies this
      ensures Valid() && history == old(history)
      ensures failed <==> old(file.Some? && file.value != []) && reply in {NotSent, ReplyLost, OtherError}
      ensures Faithful(server, history)
      ensures forall s :: s in old(server) ==> s in server && server[s] == old(server)[s]
      ensures old(file.Some? && file.value != []) && reply in {ReplyLost, Accepted} ==>
                forall s :: |history| - 500 < s <= |history| && 1 <= s ==> s in server
      ensures !(old(file.Some? && file.value != []) && Processed(reply)) ==> server == old(server) && mark == old(mark)
      ensures old(file.Some? && file.value != []) && Processed(reply) ==>
                && mark == |history|
                && (Arrived(server, |history|) <==> old(Arrived(server, mark)) && |history| - old(mark) <= WINDOW)
      ensures forgotten && !old(forgotten) ==>
                reply == UnknownAttempt
                || (reply == Accepted && exists i :: 0 <= i < |history| && history[i].outcome.Some?)
      ensures old(file.Some?) && reply == Accepted && (exists i :: 0 <= i < |history| && history[i].outcome.Some?) ==>
                file.None? && forgotten
    {
      hide Wire, Deliver, WindowStart, Remembers, Faithful, Blank, Arrived, AsSpooled;
      failed := false;
      var events := ReadSpool();
      if file.None? {
        return;
      }
      Outcomes(events, history, server);
      if events == [] {
        return;
      }
      var body, terminal := BuildRequest(events);
      assert terminal <==> exists i :: 0 <= i < |history| && history[i].outcome.Some?;
      Stored(events, history, server, body);
      if Processed(reply) {
        ghost var before := server;
        server := Deliver(server, body);
        ArrivedIff(before, server, |history|, mark);
        StillRemembers(events, history, before, server);
        LastOnesArrived(server, |history|);
        mark := |history|;
      }
      if reply == NotSent || reply == ReplyLost || reply == OtherError {
        return true;
      }
      if reply == UnknownAttempt || terminal {
        file, forgotten := None, true;
      } else if !dies {
        var kept := Compact(events);
        Compacted(events, history, server, kept);
        file := Some(kept);
      }
    }
  }

  lemma WireIsAsSpooled(e: Event)
    ensures AsSpooled(Wire(e), e)
  {
  }

  lemma WireIs(e: Event)
    ensures Wire(e) == e.(message := if |e.message| > MESSAGE_LIMIT then e.message[..MESSAGE_LIMIT] else e.message)
  {
  }

  /** The last 500 of what was built are the last 500 events. */
  lemma LastWindow(events: seq<Event>, all: seq<Event>)
    requires |all| == |events| && forall k :: 0 <= k < |all| ==> all[k] == Wire(events[k])
    ensures var body := if |all| > WINDOW then all[|all| - WINDOW..] else all;
            && |body| == |events| - WindowStart(|events|)
            && forall i :: 0 <= i < |body| ==> body[i] == Wire(events[WindowStart(|events|) + i])
  {
    hide Wire;
  }

  lemma WiredAsSpooled(events: seq<Event>, body: seq<Event>)
    requires |body| == |events| - WindowStart(|events|)
    requires forall i :: 0 <= i < |body| ==> body[i] == Wire(events[WindowStart(|events|) + i])
    ensures LastAsSpooled(body, events)
  {
    hide Wire, AsSpooled;
    forall i | 0 <= i < |body| ensures AsSpooled(body[i], events[|events| - |body| + i]) {
      WireIsAsSpooled(events[WindowStart(|events|) + i]);
    }
  }

  lemma LastOnesArrived(server: map<nat, Event>, n: nat)
    requires forall i :: WindowStart(n) <= i < n ==> Has(server, i)
    ensures forall s :: n - 500 < s <= n && 1 <= s ==> s in server
  {
    forall s: int | n - 500 < s <= n && 1 <= s ensures s in server {
      assert Has(server, s - 1);
    }
  }

  lemma Numbers(events: seq<Event>, history: seq<Event>, server: map<nat, Event>, body: seq<Event>)
    requires Numbered(history) && Remembers(events, history, server)
    requires |body| == |events| - WindowStart(|events|)
    requires forall i :: 0 <= i < |body| ==> body[i] == Wire(events[WindowStart(|events|) + i])
    ensures |events| == |history|
    ensures forall i :: 0 <= i < |body| ==> body[i].seqno == WindowStart(|events|) + i + 1
    ensures forall i :: 0 <= i < |body| && body[i].seqno !in server ==> body[i] == Wire(history[WindowStart(|events|) + i])
  {
    var start := WindowStart(|events|);
    forall i | 0 <= i < |body|
      ensures body[i].seqno == start + i + 1
      ensures body[i].seqno !in server ==> body[i] == Wire(history[start + i])
    {
      assert events[start + i] == history[start + i]
          || (events[start + i] == Blank(history[start + i]) && Has(server, start + i));
    }
  }

  lemma StoredFaithfully(events: seq<Event>, history: seq<Event>, server: map<nat, Event>, body: seq<Event>)
    requires Numbered(history) && Remembers(events, history, server) && Faithful(server, history)
    requires |body| == |events| - WindowStart(|events|)
    requires forall i :: 0 <= i < |body| ==> body[i] == Wire(events[WindowStart(|events|) + i])
    ensures Faithful(Deliver(server, body), history)
    ensures forall s :: s in server ==> s in Deliver(server, body) && Deliver(server, body)[s] == server[s]
  {
    hide Wire, Deliver, Blank, Remembers, WindowStart, AsSpooled;
    Numbers(events, history, server, body);
    Delivered(server, body);
    var start, after := WindowStart(|events|), Deliver(server, body);
    assert forall s :: s in server ==> 1 <= s <= |history| && AsSpooled(server[s], history[s - 1]);
    forall s | s in after ensures 1 <= s <= |history| && AsSpooled(after[s], history[s - 1]) {
      if s !in server {
        var i :| 0 <= i < |body| && body[i].seqno == s;
        assert s - 1 == start + i;
        WireIsAsSpooled(history[s - 1]);
      }
    }
  }

  lemma StoredWindow(events: seq<Event>, history: seq<Event>, server: map<nat, Event>, body: seq<Event>)
    requires Numbered(history) && Remembers(events, history, server) && Faithful(server, history)
    requires |body| == |events| - WindowStart(|events|)
    requires forall i :: 0 <= i < |body| ==> body[i] == Wire(events[WindowStart(|events|) + i])
    ensures forall i :: WindowStart(|history|) <= i < |history| ==> Has(Deliver(server, body), i)
    ensures forall i :: 0 <= i < WindowStart(|history|) && Has(Deliver(server, body), i) ==> Has(server, i)
  {
    hide Wire, Deliver, Blank, Remembers, WindowStart, Faithful;
    Numbers(events, history, server, body);
    Delivered(server, body);
    var start, after := WindowStart(|events|), Deliver(server, body);
    forall i | start <= i < |history| ensures Has(after, i) {
      assert body[i - start].seqno == i + 1;
    }
  }

  /** The request reaches the control plane: what is new to it is as it was spooled, and is the whole window. */
  lemma Stored(events: seq<Event>, history: seq<Event>, server: map<nat, Event>, body: seq<Event>)
    requires Numbered(history) && Remembers(events, history, server) && Faithful(server, history)
    requires |body| == |events| - WindowStart(|events|)
    requires forall i :: 0 <= i < |body| ==> body[i] == Wire(events[WindowStart(|events|) + i])
    ensures Faithful(Deliver(server, body), history)
    ensures forall s :: s in server ==> s in Deliver(server, body) && Deliver(server, body)[s] == server[s]
    ensures forall i :: WindowStart(|history|) <= i < |history| ==> Has(Deliver(server, body), i)
    ensures forall i :: 0 <= i < WindowStart(|history|) && Has(Deliver(server, body), i) ==> Has(server, i)
  {
    hide Wire, Deliver, Remembers, WindowStart, Faithful, Has;
    StoredFaithfully(events, history, server, body);
    StoredWindow(events, history, server, body);
  }

  /** What compaction forgets, the control plane has, or can no longer be sent. */
  lemma Compacted(events: seq<Event>, history: seq<Event>, server: map<nat, Event>, kept: seq<Event>)
    requires Remembers(events, history, server)
    requires forall i :: WindowStart(|history|) <= i < |history| ==> Has(server, i)
    requires |kept| == |events| && forall i :: 0 <= i < |events| ==> kept[i] == Blank(events[i])
    ensures Remembers(kept, history, server)
  {
    hide WindowStart;
    forall i | 0 <= i < |kept|
      ensures kept[i] == Blank(history[i]) && (Has(server, i) || i < WindowStart(|kept|))
    {
      assert events[i] == history[i] || events[i] == Blank(history[i]);
    }
  }

  /** A file remembers no less when the control plane has more. */
  lemma StillRemembers(events: seq<Event>, history: seq<Event>, before: map<nat, Event>, after: map<nat, Event>)
    requires Remembers(events, history, before) && forall s :: s in before ==> s in after
    ensures Remembers(events, history, after)
  {
    hide WindowStart, Blank;
  }

  lemma Outcomes(events: seq<Event>, history: seq<Event>, server: map<nat, Event>)
    requires Remembers(events, history, server)
    ensures |events| == |history| && forall i :: 0 <= i < |events| ==> events[i].outcome == history[i].outcome
  {
  }

  /** What one stored request completes. */
  lemma ArrivedIff(before: map<nat, Event>, after: map<nat, Event>, n: nat, mark: nat)
    requires mark <= n
    requires forall i :: mark <= i < n ==> !Has(before, i)
    requires forall i :: WindowStart(mark) <= i < mark ==> Has(before, i)
    requires forall s :: s in before ==> s in after
    requires forall i :: WindowStart(n) <= i < n ==> Has(after, i)
    requires forall i :: 0 <= i < WindowStart(n) && Has(after, i) ==> Has(before, i)
    ensures Arrived(after, n) <==> Arrived(before, mark) && n - mark <= WINDOW
  {
    if Arrived(after, n) {
      if mark < n {
        assert Has(after, mark);
      }
      forall i | 0 <= i < mark ensures Has(before, i) {
        assert Has(after, i);
      }
    }
    if Arrived(before, mark) && n - mark <= WINDOW {
      forall i | 0 <= i < n ensures Has(after, i) {
        if i < mark {
          assert Has(before, i);
        }
      }
    }
  }
}
