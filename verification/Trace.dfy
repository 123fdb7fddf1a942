/** Replaying an exported trace (gpu_broker/schedule_trace.py `replay_trace`, `_jain`). Times are exact reals. */
module Trace {
  import opened Wrappers
  import Counting
  import Sorting

  type JobKey = nat

  datatype TraceJob = TraceJob(key: JobKey, submitted: real, start: Option<real>, finish: Option<real>, completed: bool)

  datatype Action = Submit | Start | Finish | FinishUnstarted

  datatype Event = Event(time: real, action: Action, key: JobKey)

  datatype Rejection =
    | StartsBeforeSubmit | InvalidFinish | CompletedUnstarted
    | DuplicateSubmit | InvalidStart | FinishInactive | TerminalBeforeSubmit

  /** At one instant submissions come first, then starts, then finishes. */
  function Rank(a: Action): nat {
    match a
    case Submit => 0
    case Start => 1
    case Finish => 2
    case FinishUnstarted => 3
  }

  predicate Before(a: Event, b: Event) {
    a.time < b.time
    || (a.time == b.time && (Rank(a.action) < Rank(b.action) || (Rank(a.action) == Rank(b.action) && a.key <= b.key)))
  }

  function EventsOf(job: TraceJob): seq<Event> {
    [Event(job.submitted, Submit, job.key)]
    + (if job.start.Some? then [Event(job.start.value, Start, job.key)] else [])
    + (if job.finish.None? then []
       else [Event(job.finish.value, if job.start.Some? then Finish else FinishUnstarted, job.key)])
  }

  function AllEvents(jobs: seq<TraceJob>): seq<Event> {
    if jobs == [] then [] else AllEvents(jobs[..|jobs| - 1]) + EventsOf(jobs[|jobs| - 1])
  }

  /** What a job's own times must satisfy. */
  predicate Timely(job: TraceJob) {
    && (job.start.Some? ==> job.submitted <= job.start.value)
    && (job.finish.Some? ==> job.start.GetOr(job.submitted) <= job.finish.value)
    && (job.finish.Some? && job.completed ==> job.start.Some?)
  }

  /** What an exported trace satisfies. */
  ghost predicate WellFormed(jobs: seq<TraceJob>) {
    && (forall i :: 0 <= i < |jobs| ==> Timely(jobs[i]))
    && (forall i, j :: 0 <= i < j < |jobs| ==> jobs[i].key != jobs[j].key)
  }

  /** The job's run, both ends included, contains this instant. A run that has not ended is still going. */
  predicate RunsAt(job: TraceJob, t: real) {
    job.start.Some? && job.start.value <= t && (job.finish.Some? ==> t <= job.finish.value)
  }

  /** The jobs running at one instant. Keys are distinct, so this counts jobs. */
  function RunningAt(jobs: seq<TraceJob>, t: real): set<JobKey> {
    set i | 0 <= i < |jobs| && RunsAt(jobs[i], t) :: jobs[i].key
  }

  /** Keys are distinct, so as many keys as jobs run at an instant: those that have started by then and
      have not finished before it. */
  lemma RunningAreJobs(jobs: seq<TraceJob>, t: real)
    requires forall i, j :: 0 <= i < j < |jobs| ==> jobs[i].key != jobs[j].key
    ensures |RunningAt(jobs, t)|
         == |set i | 0 <= i < |jobs| && jobs[i].start.Some? && jobs[i].start.value <= t
                     && (jobs[i].finish.None? || t <= jobs[i].finish.value)|
  {
    var running := set i | 0 <= i < |jobs| && jobs[i].start.Some? && jobs[i].start.value <= t
                           && (jobs[i].finish.None? || t <= jobs[i].finish.value);
    KeyEach(jobs, running, RunningAt(jobs, t));
  }

  lemma {:induction false} KeyEach(jobs: seq<TraceJob>, places: set<nat>, keys: set<JobKey>)
    requires forall i, j :: 0 <= i < j < |jobs| ==> jobs[i].key != jobs[j].key
    requires forall i :: i in places ==> 0 <= i < |jobs| && jobs[i].key in keys
    requires forall k :: k in keys ==> exists i :: i in places && jobs[i].key == k
    ensures |keys| == |places|
  {
    if places == {} {
      assert keys == {};
    } else {
      var i :| i in places;
      KeyEach(jobs, places - {i}, keys - {jobs[i].key});
    }
  }

  // --------------------------------------------------------------------- collecting

  /** The first loop: the events of every job, or the first job whose times make no sense. */
  method Collect(jobs: seq<TraceJob>) returns (r: Result<seq<Event>, Rejection>)
    ensures r.Ok? <==> forall i :: 0 <= i < |jobs| ==> Timely(jobs[i])
    ensures r.Ok? ==> r.value == AllEvents(jobs)
  {
    var events: seq<Event> := [];
    for i := 0 to |jobs|
      invariant events == AllEvents(jobs[..i]) && forall k :: 0 <= k < i ==> Timely(jobs[k])
    {
      var job := jobs[i];
      assert jobs[..i + 1][..i] == jobs[..i];
      events := events + [Event(job.submitted, Submit, job.key)];
      if job.start.Some? {
        if job.start.value < job.submitted {
          return Err(StartsBeforeSubmit);
        }
        events := events + [Event(job.start.value, Start, job.key)];
      }
      if job.finish.Some? {
        if job.finish.value < job.start.GetOr(job.submitted) {
          return Err(InvalidFinish);
        }
        events := events + [Event(job.finish.value, if job.start.Some? then Finish else FinishUnstarted, job.key)];
        if job.completed && job.start.None? {
          return Err(CompletedUnstarted);
        }
      }
    }
    assert jobs[..|jobs|] == jobs;
    return Ok(events);
  }

  // ----------------------------------------------------------------------- sweeping

  /** The keys whose events of one kind are among the first `n`. */
  function Seen(es: seq<Event>, n: nat, a: Action): set<JobKey>
    requires n <= |es|
  {
    set i | 0 <= i < n && es[i].action == a :: es[i].key
  }

  /** The events of well-formed jobs, in order. */
  ghost predicate Swept(jobs: seq<TraceJob>, es: seq<Event>) {
    && (forall i, j :: 0 <= i < j < |es| ==> Before(es[i], es[j]) && es[i] != es[j])
    && (forall e :: e in es <==> exists k :: 0 <= k < |jobs| && e in EventsOf(jobs[k]))
  }

  /** `most` is the largest number of jobs running at any start so far that is the last of its instant. */
  ghost predicate Peak(jobs: seq<TraceJob>, es: seq<Event>, n: nat, most: nat)
    requires n <= |es|
  {
    && (forall i :: 0 <= i < n && es[i].action == Start && LastStart(es, i) ==> |RunningAt(jobs, es[i].time)| <= most)
    && (most == 0 || exists i :: 0 <= i < n && most <= |RunningAt(jobs, es[i].time)|)
  }

  lemma PeakAtStart(jobs: seq<TraceJob>, es: seq<Event>, n: nat, most: nat)
    requires WellFormed(jobs) && Swept(jobs, es) && n < |es| && es[n].action == Start && Peak(jobs, es, n, most)
    ensures var active := |ActiveAfter(es, n + 1)|;
            Peak(jobs, es, n + 1, if most < active then active else most)
  {
    hide RunningAt, ActiveAfter, LastStart;
    ActiveIsRunning(jobs, es, n);
    var active := |ActiveAfter(es, n + 1)|;
    if most < active {
      assert active <= |RunningAt(jobs, es[n].time)|;
    }
  }

  lemma PeakElsewhere(jobs: seq<TraceJob>, es: seq<Event>, n: nat, most: nat)
    requires n < |es| && es[n].action != Start && Peak(jobs, es, n, most)
    ensures Peak(jobs, es, n + 1, most)
  {
  }

  lemma PeakOverall(jobs: seq<TraceJob>, es: seq<Event>, most: nat)
    requires WellFormed(jobs) && Swept(jobs, es) && Peak(jobs, es, |es|, most)
    ensures forall t :: |RunningAt(jobs, t)| <= most
    ensures most == 0 || exists t :: |RunningAt(jobs, t)| == most
  {
    hide RunningAt, LastStart;
    forall t ensures |RunningAt(jobs, t)| <= most {
      if RunningAt(jobs, t) != {} {
        var i := PeakAtAStart(jobs, es, t);
      }
    }
    if most != 0 {
      var i :| 0 <= i < |es| && most <= |RunningAt(jobs, es[i].time)|;
      assert |RunningAt(jobs, es[i].time)| == most;
    }
  }

  /** The second loop. */
  method Sweep(es: seq<Event>, ghost jobs: seq<TraceJob>) returns (r: Result<nat, Rejection>)
    ensures WellFormed(jobs) && Swept(jobs, es) ==> r.Ok?
    ensures r.Ok? ==> SubmitsDiffer(es, |es|)
    ensures WellFormed(jobs) && Swept(jobs, es) ==> (forall t :: |RunningAt(jobs, t)| <= r.value)
                                                    && (r.value == 0 || exists t :: |RunningAt(jobs, t)| == r.value)
  {
    hide RunningAt, Peak, Seen, Swept, LastStart, WellFormed, SubmitsDiffer;
    SeenNone(es);
    var active, submitted: set<JobKey> := {}, {};
    var most: nat := 0;
    for n := 0 to |es|
      invariant WellFormed(jobs) && Swept(jobs, es) ==> active == ActiveAfter(es, n) && Peak(jobs, es, n, most)
      invariant submitted == Seen(es, n, Submit) && SubmitsDiffer(es, n)
    {
      var e := es[n];
      SeenNext(es, n);
      SubmitsNext(es, n);
      if WellFormed(jobs) && Swept(jobs, es) {
        Placed(jobs, es, n);
        if e.action == Start {
          PeakAtStart(jobs, es, n, most);
        } else {
          PeakElsewhere(jobs, es, n, most);
        }
      }
      if e.action == Submit {
        if e.key in submitted {
          return Err(DuplicateSubmit);
        }
        submitted := submitted + {e.key};
      } else if e.action == Start {
        if e.key !in submitted || e.key in active {
          return Err(InvalidStart);
        }
        active := active + {e.key};
        if most < |active| {
          most := |active|;
        }
      } else if e.action == Finish {
        if e.key !in active {
          return Err(FinishInactive);
        }
        active := active - {e.key};
      } else if e.key !in submitted {
        return Err(TerminalBeforeSubmit);
      }
    }
    if WellFormed(jobs) && Swept(jobs, es) {
      PeakOverall(jobs, es, most);
    }
    r := Ok(most);
  }

  predicate LastStart(es: seq<Event>, i: nat)
    requires i < |es|
  {
    forall j :: i < j < |es| && es[j].action == Start ==> es[j].time != es[i].time
  }

  /** No key is submitted twice among the first `n` events. */
  ghost predicate SubmitsDiffer(es: seq<Event>, n: nat)
    requires n <= |es|
  {
    forall i, j :: 0 <= i < j < n && es[i].action == Submit && es[j].action == Submit ==> es[i].key != es[j].key
  }

  lemma SubmitsNext(es: seq<Event>, n: nat)
    requires n < |es| && SubmitsDiffer(es, n)
    ensures es[n].action != Submit || es[n].key !in Seen(es, n, Submit) ==> SubmitsDiffer(es, n + 1)
  {
  }

  lemma SeenNone(es: seq<Event>)
    ensures SubmitsDiffer(es, 0) && forall a :: Seen(es, 0, a) == {}
    ensures forall jobs :: Peak(jobs, es, 0, 0)
  {
  }

  lemma SeenNext(es: seq<Event>, n: nat)
    requires n < |es|
    ensures forall a :: Seen(es, n + 1, a) == if es[n].action == a then Seen(es, n, a) + {es[n].key} else Seen(es, n, a)
  {
    forall a
      ensures Seen(es, n + 1, a) == if es[n].action == a then Seen(es, n, a) + {es[n].key} else Seen(es, n, a)
    {
      if es[n].action == a {
        assert es[n].key in Seen(es, n + 1, a);
      }
      forall k | k in Seen(es, n, a) ensures k in Seen(es, n + 1, a) {
        var i :| 0 <= i < n && es[i].action == a && es[i].key == k;
        assert 0 <= i < n + 1;
      }
    }
  }

  /** An event and the job it belongs to. */
  lemma Owner(jobs: seq<TraceJob>, es: seq<Event>, n: nat) returns (k: nat)
    requires Swept(jobs, es) && n < |es|
    ensures k < |jobs| && es[n] in EventsOf(jobs[k]) && es[n].key == jobs[k].key
  {
    assert es[n] in es;
    k :| 0 <= k < |jobs| && es[n] in EventsOf(jobs[k]);
  }

  /** Where an event of a job stands. */
  lemma Stands(jobs: seq<TraceJob>, es: seq<Event>, k: nat, e: Event) returns (i: nat)
    requires Swept(jobs, es) && k < |jobs| && e in EventsOf(jobs[k])
    ensures i < |es| && es[i] == e
  {
    assert e in es;
    i :| 0 <= i < |es| && es[i] == e;
  }

  lemma SameOwner(jobs: seq<TraceJob>, i: nat, j: nat)
    requires WellFormed(jobs) && i < |jobs| && j < |jobs| && jobs[i].key == jobs[j].key
    ensures i == j
  {
  }

  /** Two events of one kind with one key are one event. */
  lemma OneOfEach(jobs: seq<TraceJob>, es: seq<Event>, i: nat, j: nat)
    requires WellFormed(jobs) && Swept(jobs, es) && i < |es| && j < |es|
    requires es[i].key == es[j].key && es[i].action == es[j].action
    ensures i == j
  {
    InOrder(jobs, es, i, j);
    InOrder(jobs, es, j, i);
    var k := Owner(jobs, es, i);
    var l := Owner(jobs, es, j);
    SameOwner(jobs, k, l);
    assert es[i] == es[j];
  }

  lemma InOrder(jobs: seq<TraceJob>, es: seq<Event>, i: nat, j: nat)
    requires Swept(jobs, es) && i < |es| && j < |es|
    ensures i < j ==> Before(es[i], es[j]) && es[i] != es[j]
  {
  }

  lemma NotSeenTwice(jobs: seq<TraceJob>, es: seq<Event>, n: nat)
    requires WellFormed(jobs) && Swept(jobs, es) && n < |es|
    ensures es[n].key !in Seen(es, n, es[n].action)
  {
    if es[n].key in Seen(es, n, es[n].action) {
      var i :| 0 <= i < n && es[i].action == es[n].action && es[i].key == es[n].key;
      OneOfEach(jobs, es, i, n);
    }
  }

  lemma SeenBefore(es: seq<Event>, n: nat, i: nat, jobs: seq<TraceJob>)
    requires Swept(jobs, es) && n < |es| && i < |es| && es[i] != es[n] && Before(es[i], es[n])
    requires Rank(es[i].action) < Rank(es[n].action)
    ensures i < n && es[i].key in Seen(es, n, es[i].action)
  {
    InOrder(jobs, es, n, i);
  }

  /** At every event, what the sweep checks about it holds. */
  lemma Placed(jobs: seq<TraceJob>, es: seq<Event>, n: nat)
    requires WellFormed(jobs) && Swept(jobs, es) && n < |es|
    ensures es[n].key !in Seen(es, n, es[n].action)
    ensures es[n].action != Submit ==> es[n].key in Seen(es, n, Submit)
    ensures es[n].action == Finish ==> es[n].key in Seen(es, n, Start)
    ensures es[n].action == Start ==> es[n].key !in Seen(es, n, Finish)
  {
    NotSeenTwice(jobs, es, n);
    var k := Owner(jobs, es, n);
    var job := jobs[k];
    assert Timely(job);
    if es[n].action != Submit {
      var i := Stands(jobs, es, k, Event(job.submitted, Submit, job.key));
      SeenBefore(es, n, i, jobs);
    }
    if es[n].action == Start {
      forall j | 0 <= j < n && es[j].action == Finish ensures es[j].key != es[n].key {
        if es[j].key == es[n].key {
          FinishFollowsStart(jobs, es, n, j);
        }
      }
    }
    if es[n].action == Finish {
      var i := Stands(jobs, es, k, Event(job.start.value, Start, job.key));
      SeenBefore(es, n, i, jobs);
    }
  }

  lemma FinishFollowsStart(jobs: seq<TraceJob>, es: seq<Event>, n: nat, j: nat)
    requires WellFormed(jobs) && Swept(jobs, es) && n < |es| && es[n].action == Start
    requires j < |es| && es[j].action == Finish && es[j].key == es[n].key
    ensures n < j
  {
    var k := Owner(jobs, es, n);
    var l := Owner(jobs, es, j);
    SameOwner(jobs, k, l);
    assert Timely(jobs[k]);
    InOrder(jobs, es, j, n);
  }

  function ActiveAfter(es: seq<Event>, n: nat): set<JobKey>
    requires n <= |es|
  {
    Seen(es, n, Start) - Seen(es, n, Finish)
  }

  /** Whoever is active just after a start is running at that instant; and after the last start
      of an instant, everybody running at it is active. */
  lemma ActiveIsRunning(jobs: seq<TraceJob>, es: seq<Event>, n: nat)
    requires WellFormed(jobs) && Swept(jobs, es) && n < |es| && es[n].action == Start
    ensures ActiveAfter(es, n + 1) <= RunningAt(jobs, es[n].time)
    ensures LastStart(es, n) ==> RunningAt(jobs, es[n].time) <= ActiveAfter(es, n + 1)
    ensures |ActiveAfter(es, n + 1)| <= |RunningAt(jobs, es[n].time)|
    ensures LastStart(es, n) ==> |RunningAt(jobs, es[n].time)| == |ActiveAfter(es, n + 1)|
  {
    var t := es[n].time;
    forall key | key in ActiveAfter(es, n + 1) ensures key in RunningAt(jobs, t) {
      var i :| 0 <= i < n + 1 && es[i].action == Start && es[i].key == key;
      StartedRuns(jobs, es, n, i);
    }
    if LastStart(es, n) {
      forall key | key in RunningAt(jobs, t) ensures key in ActiveAfter(es, n + 1) {
        var k :| 0 <= k < |jobs| && RunsAt(jobs[k], t) && jobs[k].key == key;
        RunnerIsActive(jobs, es, n, k);
      }
    }
    Counting.SubsetSize(ActiveAfter(es, n + 1), RunningAt(jobs, t));
    if LastStart(es, n) {
      Counting.SubsetSize(RunningAt(jobs, t), ActiveAfter(es, n + 1));
    }
  }

  lemma FinishSeen(es: seq<Event>, n: nat, j: nat)
    requires n < |es| && j < |es| && es[j].action == Finish
    ensures j <= n ==> es[j].key in Seen(es, n + 1, Finish)
  {
  }

  lemma LaterStart(es: seq<Event>, n: nat, i: nat)
    requires n < |es| && i < |es| && es[i].action == Start && LastStart(es, n)
    ensures n < i ==> es[i].time != es[n].time
  {
  }

  lemma StartedRuns(jobs: seq<TraceJob>, es: seq<Event>, n: nat, i: nat)
    requires WellFormed(jobs) && Swept(jobs, es) && i <= n < |es| && es[n].action == Start
    requires es[i].action == Start && es[i].key in ActiveAfter(es, n + 1)
    ensures es[i].key in RunningAt(jobs, es[n].time)
  {
    var k := Owner(jobs, es, i);
    InOrder(jobs, es, i, n);
    if jobs[k].finish.Some? {
      var j := Stands(jobs, es, k, Event(jobs[k].finish.value, Finish, jobs[k].key));
      FinishSeen(es, n, j);
      InOrder(jobs, es, n, j);
    }
    assert RunsAt(jobs[k], es[n].time);
  }

  lemma RunnerIsActive(jobs: seq<TraceJob>, es: seq<Event>, n: nat, k: nat)
    requires WellFormed(jobs) && Swept(jobs, es) && n < |es| && es[n].action == Start && LastStart(es, n)
    requires k < |jobs| && RunsAt(jobs[k], es[n].time)
    ensures jobs[k].key in ActiveAfter(es, n + 1)
  {
    var i := Stands(jobs, es, k, Event(jobs[k].start.value, Start, jobs[k].key));
    InOrder(jobs, es, n, i);
    LaterStart(es, n, i);
    assert jobs[k].key in Seen(es, n + 1, Start);
    forall j | 0 <= j < n + 1 && es[j].action == Finish ensures es[j].key != jobs[k].key {
      if es[j].key == jobs[k].key {
        FinishComesLater(jobs, es, n, k, j);
      }
    }
  }

  lemma FinishComesLater(jobs: seq<TraceJob>, es: seq<Event>, n: nat, k: nat, j: nat)
    requires WellFormed(jobs) && Swept(jobs, es) && n < |es| && es[n].action == Start
    requires k < |jobs| && RunsAt(jobs[k], es[n].time) && j < |es| && es[j].action == Finish && es[j].key == jobs[k].key
    ensures n < j
  {
    var l := Owner(jobs, es, j);
    SameOwner(jobs, k, l);
    InOrder(jobs, es, j, n);
  }

  // ------------------------------------------------------------- the last start before t

  lemma {:induction false} LastStartUpTo(es: seq<Event>, t: real, n: nat) returns (i: nat)
    requires n <= |es| && exists k :: 0 <= k < n && es[k].action == Start && es[k].time <= t
    ensures i < n && es[i].action == Start && es[i].time <= t
    ensures forall k :: i < k < n && es[k].action == Start ==> t < es[k].time
  {
    if es[n - 1].action == Start && es[n - 1].time <= t {
      i := n - 1;
    } else {
      i := LastStartUpTo(es, t, n - 1);
    }
  }

  /** Concurrency only ever rises at a start, so some last start sees as many jobs as any instant does. */
  lemma PeakAtAStart(jobs: seq<TraceJob>, es: seq<Event>, t: real) returns (i: nat)
    requires WellFormed(jobs) && Swept(jobs, es) && RunningAt(jobs, t) != {}
    ensures i < |es| && es[i].action == Start && LastStart(es, i)
    ensures |RunningAt(jobs, t)| <= |RunningAt(jobs, es[i].time)|
  {
    var key :| key in RunningAt(jobs, t);
    var k :| 0 <= k < |jobs| && RunsAt(jobs[k], t) && jobs[k].key == key;
    var first := Stands(jobs, es, k, Event(jobs[k].start.value, Start, jobs[k].key));
    i := LastStartUpTo(es, t, |es|);
    forall other | other in RunningAt(jobs, t) ensures other in RunningAt(jobs, es[i].time) {
      var l :| 0 <= l < |jobs| && RunsAt(jobs[l], t) && jobs[l].key == other;
      var j := Stands(jobs, es, l, Event(jobs[l].start.value, Start, jobs[l].key));
      assert j < i ==> Before(es[j], es[i]);
      assert RunsAt(jobs[l], es[i].time);
    }
    Counting.SubsetSize(RunningAt(jobs, t), RunningAt(jobs, es[i].time));
  }

  // ----------------------------------------------------------------------- replaying

  lemma BeforeRanks()
    ensures Sorting.Ranks(Before)
  {
  }

  lemma {:induction false} AllEventsHave(jobs: seq<TraceJob>, e: Event)
    ensures e in AllEvents(jobs) <==> exists k :: 0 <= k < |jobs| && e in EventsOf(jobs[k])
  {
    if jobs != [] {
      var n := |jobs| - 1;
      AllEventsHave(jobs[..n], e);
      if e in EventsOf(jobs[n]) {
        assert e in AllEvents(jobs);
      }
      if k :| 0 <= k < n && e in EventsOf(jobs[..n][k]) {
        assert e in EventsOf(jobs[k]);
      }
      if k :| 0 <= k < |jobs| && e in EventsOf(jobs[k]) {
        assert k < n ==> e in EventsOf(jobs[..n][k]);
      }
    }
  }

  lemma {:induction false} NoEventTwice(jobs: seq<TraceJob>)
    requires forall i, j :: 0 <= i < j < |jobs| ==> jobs[i].key != jobs[j].key
    ensures forall i, j :: 0 <= i < j < |AllEvents(jobs)| ==> AllEvents(jobs)[i] != AllEvents(jobs)[j]
  {
    if jobs != [] {
      var n := |jobs| - 1;
      NoEventTwice(jobs[..n]);
      var front, last := AllEvents(jobs[..n]), EventsOf(jobs[n]);
      forall i | 0 <= i < |front| ensures front[i].key != jobs[n].key {
        AllEventsHave(jobs[..n], front[i]);
        var k :| 0 <= k < n && front[i] in EventsOf(jobs[..n][k]);
      }
    }
  }

  lemma SortedIsSwept(jobs: seq<TraceJob>)
    requires WellFormed(jobs)
    ensures Swept(jobs, Sorting.Sort(Before, AllEvents(jobs)))
  {
    var events, es := AllEvents(jobs), Sorting.Sort(Before, AllEvents(jobs));
    BeforeRanks();
    Sorting.SortSorts(Before, events);
    NoEventTwice(jobs);
    Counting.NoRepeats(events, es);
    forall e ensures e in es <==> exists k :: 0 <= k < |jobs| && e in EventsOf(jobs[k]) {
      Sorting.SameElements(es, events, e);
      AllEventsHave(jobs, e);
    }
  }

  lemma {:induction false} SubmitCounted(jobs: seq<TraceJob>, k: nat)
    requires k < |jobs|
    ensures 1 <= multiset(AllEvents(jobs))[Event(jobs[k].submitted, Submit, jobs[k].key)]
  {
    AllEventsHave(jobs, Event(jobs[k].submitted, Submit, jobs[k].key));
  }

  lemma OwnSubmit(job: TraceJob)
    ensures Event(job.submitted, Submit, job.key) in multiset(EventsOf(job))
  {
    assert EventsOf(job)[0] == Event(job.submitted, Submit, job.key);
  }

  lemma {:induction false} SubmittedTwice(jobs: seq<TraceJob>, i: nat, j: nat)
    requires i < j < |jobs| && jobs[i].key == jobs[j].key && jobs[i].submitted == jobs[j].submitted
    ensures 2 <= multiset(AllEvents(jobs))[Event(jobs[i].submitted, Submit, jobs[i].key)]
  {
    hide EventsOf;
    var n, e := |jobs| - 1, Event(jobs[i].submitted, Submit, jobs[i].key);
    assert multiset(AllEvents(jobs)) == multiset(AllEvents(jobs[..n])) + multiset(EventsOf(jobs[n]));
    if j < n {
      SubmittedTwice(jobs[..n], i, j);
    } else {
      SubmitCounted(jobs[..n], i);
      OwnSubmit(jobs[n]);
    }
  }

  /** Once sorted, two jobs with one key still submit it twice. */
  lemma RepeatIsSeen(jobs: seq<TraceJob>, es: seq<Event>, i: nat, j: nat)
    requires multiset(es) == multiset(AllEvents(jobs)) && i < j < |jobs| && jobs[i].key == jobs[j].key
    ensures !SubmitsDiffer(es, |es|)
  {
    hide AllEvents;
    var a, b := Event(jobs[i].submitted, Submit, jobs[i].key), Event(jobs[j].submitted, Submit, jobs[j].key);
    if a == b {
      SubmittedTwice(jobs, i, j);
      Counting.StandsTwice(es, a);
    } else {
      SubmitCounted(jobs, i);
      SubmitCounted(jobs, j);
      assert a in multiset(es) && b in multiset(es);
      var p :| 0 <= p < |es| && es[p] == a;
      var q :| 0 <= q < |es| && es[q] == b;
      assert p < q || q < p;
    }
  }

  /** `replay_trace`, past the digest check: it accepts exactly the well-formed traces, and then `max_active` is the
      largest number of jobs whose runs, ends included, ever contain one instant. */
  method Replay(jobs: seq<TraceJob>) returns (r: Result<nat, Rejection>)
    ensures r.Ok? <==> WellFormed(jobs)
    ensures r.Ok? ==> forall i :: 0 <= i < |jobs| ==>
              && (jobs[i].start.Some? ==> jobs[i].submitted <= jobs[i].start.value)
              && (jobs[i].start.Some? && jobs[i].finish.Some? ==> jobs[i].start.value <= jobs[i].finish.value)
              && (jobs[i].start.None? && jobs[i].finish.Some? ==>
                    jobs[i].submitted <= jobs[i].finish.value && !jobs[i].completed)
    ensures r.Ok? ==> (forall t :: |RunningAt(jobs, t)| <= r.value)
                      && (r.value == 0 || exists t :: |RunningAt(jobs, t)| == r.value)
  {
    hide SubmitsDiffer, RunningAt, Swept, EventsOf;
    var events := Collect(jobs);
    if events.Err? {
      return Err(events.error);
    }
    var es := Sorting.Sort(Before, events.value);
    BeforeRanks();
    Sorting.SortSorts(Before, events.value);
    if WellFormed(jobs) {
      SortedIsSwept(jobs);
    } else {
      var i, j :| 0 <= i < j < |jobs| && jobs[i].key == jobs[j].key;
      RepeatIsSeen(jobs, es, i, j);
    }
    r := Sweep(es, jobs);
  }

  // --------------------------------------------------------------------------- Jain

  function Times(x: real, y: real): real {
    x * y
  }

  function Square(x: real): real {
    Times(x, x)
  }

  function Sum(xs: seq<real>): real {
    if xs == [] then 0.0 else Sum(xs[..|xs| - 1]) + xs[|xs| - 1]
  }

  function Squares(xs: seq<real>): real {
    if xs == [] then 0.0 else Squares(xs[..|xs| - 1]) + Square(xs[|xs| - 1])
  }

  /** `_jain`. */
  function Jain(xs: seq<real>): Option<real> {
    if xs == [] || Sum(xs) == 0.0 || Squares(xs) == 0.0 then None
    else Some(Ratio(Square(Sum(xs)), Times(|xs| as real, Squares(xs))))
  }

  function Ratio(x: real, y: real): real {
    if y == 0.0 then 0.0 else x / y
  }

  /** How far the values are from one number. */
  function Spread(xs: seq<real>, y: real): real {
    if xs == [] then 0.0 else Spread(xs[..|xs| - 1], y) + Square(xs[|xs| - 1] - y)
  }

  lemma SquareSign(d: real)
    ensures 0.0 <= Square(d) && (Square(d) == 0.0 <==> d == 0.0)
  {
    hide Times;
    if 0.0 < d {
      TimesNotNegative(d, d);
    } else if d < 0.0 {
      TimesNotNegative(-d, -d);
      TimesNegated(d);
    } else {
      TimesAdds(0.0, 0.0, 0.0);
    }
  }

  lemma TimesNegated(d: real)
    ensures Times(-d, -d) == Times(d, d)
  {
  }

  lemma TimesAdds(y: real, s: real, x: real)
    ensures Times(y, s + x) == Times(y, s) + Times(y, x)
    ensures Times(s + x, y) == Times(s, y) + Times(x, y)
    ensures Times(1.0, y) == y && Times(0.0, y) == 0.0 && Times(y, 0.0) == 0.0
  {
  }

  lemma SquareAdds(s: real, x: real)
    ensures Square(s + x) == Square(s) + 2.0 * Times(x, s) + Square(x)
    ensures Square(s - x) == Square(s) - 2.0 * Times(x, s) + Square(x)
    ensures Square(0.0) == 0.0
  {
  }

  lemma {:induction false} SpreadIs(xs: seq<real>, y: real)
    ensures Spread(xs, y) == Squares(xs) - 2.0 * Times(y, Sum(xs)) + Times(|xs| as real, Square(y))
    ensures 0.0 <= Spread(xs, y)
    ensures Spread(xs, y) == 0.0 ==> forall i :: 0 <= i < |xs| ==> xs[i] == y
  {
    hide Square, Times;
    var n := |xs| - 1;
    if xs == [] {
      TimesAdds(y, 0.0, 0.0);
      TimesAdds(Square(y), 0.0, 0.0);
    } else {
      SpreadIs(xs[..n], y);
      SquareAdds(xs[n], y);
      SquareSign(xs[n] - y);
      TimesAdds(y, Sum(xs[..n]), xs[n]);
      TimesAdds(Square(y), n as real, 1.0);
      assert forall i :: 0 <= i < n ==> xs[..n][i] == xs[i];
    }
  }

  /** What is missing to equality in the Cauchy-Schwarz inequality. */
  function Gap(xs: seq<real>): real {
    Times(|xs| as real, Squares(xs)) - Square(Sum(xs))
  }

  lemma {:induction false} GapGrows(xs: seq<real>)
    ensures 0.0 <= Gap(xs)
    ensures Gap(xs) == 0.0 ==> forall i, j :: 0 <= i < |xs| && 0 <= j < |xs| ==> xs[i] == xs[j]
  {
    hide Square, Times;
    var n := |xs| - 1;
    if xs == [] {
      TimesAdds(0.0, 0.0, 0.0);
      SquareAdds(0.0, 0.0);
    } else {
      var front, y := xs[..n], xs[n];
      GapGrows(front);
      SpreadIs(front, y);
      TimesAdds(Squares(front) + Square(y), n as real, 1.0);
      TimesAdds(n as real, Squares(front), Square(y));
      SquareAdds(Sum(front), y);
      assert Gap(xs) == Gap(front) + Spread(front, y);
      assert forall i :: 0 <= i < n ==> front[i] == xs[i];
    }
  }

  ghost predicate NotNegative(xs: seq<real>) {
    forall i :: 0 <= i < |xs| ==> 0.0 <= xs[i]
  }

  lemma TimesNotNegative(x: real, y: real)
    requires 0.0 <= x && 0.0 <= y
    ensures 0.0 <= Times(x, y) && (0.0 < x && 0.0 < y ==> 0.0 < Times(x, y))
  {
  }

  lemma {:induction false} SquaresWithinSquare(xs: seq<real>)
    requires NotNegative(xs)
    ensures 0.0 <= Sum(xs) && 0.0 <= Squares(xs) <= Square(Sum(xs))
    ensures 0.0 < Sum(xs) ==> 0.0 < Squares(xs)
  {
    hide Square, Times;
    if xs == [] {
      SquareAdds(0.0, 0.0);
    } else {
      var n := |xs| - 1;
      SquaresWithinSquare(xs[..n]);
      SquareAdds(Sum(xs[..n]), xs[n]);
      TimesNotNegative(xs[n], Sum(xs[..n]));
      SquareSign(xs[n]);
    }
  }

  lemma RatioSmall(s: real, nq: real)
    requires 0.0 < nq && 0.0 <= s <= nq
    ensures Ratio(s, nq) <= 1.0 && (Ratio(s, nq) == 1.0 <==> s == nq)
  {
    var r := s / nq;
    assert r * nq == s;
    if 1.0 < r {
      assert 1.0 * nq < r * nq;
    }
  }

  lemma RatioLarge(s: real, q: real, n: real)
    requires 0.0 < q <= s && 0.0 < n
    ensures 0.0 < Times(n, q) && 1.0 / n <= Ratio(s, Times(n, q))
  {
    var nq := n * q;
    assert 0.0 < nq;
    var one, r := 1.0 / n, s / nq;
    assert one * n == 1.0 && r * nq == s;
    assert one * nq == q by {
      assert one * (n * q) == (one * n) * q;
    }
    if r < one {
      assert r * nq < one * nq;
    }
  }

  /** For non-negative values with a positive sum, Jain's index lies between 1/n and 1,
      and is 1 exactly when all the values are equal. */
  lemma JainBounds(xs: seq<real>)
    requires NotNegative(xs) && 0.0 < Sum(xs)
    ensures xs != [] && Jain(xs).Some?
    ensures 1.0 / |xs| as real <= Jain(xs).value <= 1.0
    ensures Jain(xs).value == 1.0 <==> forall i, j :: 0 <= i < |xs| && 0 <= j < |xs| ==> xs[i] == xs[j]
  {
    hide Square, Times, Ratio;
    SquaresWithinSquare(xs);
    GapGrows(xs);
    RatioLarge(Square(Sum(xs)), Squares(xs), |xs| as real);
    RatioSmall(Square(Sum(xs)), Times(|xs| as real, Squares(xs)));
    if forall i, j :: 0 <= i < |xs| && 0 <= j < |xs| ==> xs[i] == xs[j] {
      NoGap(xs, xs[0]);
    }
  }

  lemma {:induction false} NoGap(xs: seq<real>, y: real)
    requires forall i :: 0 <= i < |xs| ==> xs[i] == y
    ensures Gap(xs) == 0.0 && Spread(xs, y) == 0.0
  {
    hide Square, Times;
    if xs == [] {
      TimesAdds(0.0, 0.0, 0.0);
      SquareAdds(0.0, 0.0);
    } else {
      var n := |xs| - 1;
      var front := xs[..n];
      NoGap(front, y);
      SpreadIs(front, y);
      SquareAdds(0.0, 0.0);
      TimesAdds(Squares(front) + Square(y), n as real, 1.0);
      TimesAdds(n as real, Squares(front), Square(y));
      SquareAdds(Sum(front), y);
      assert Gap(xs) == Gap(front) + Spread(front, y);
    }
  }

  // --------------------------------------------------------------------- FIFO replay

  type GpuType = nat

  /** A job that really started: when it was submitted (after the first one), and how long it ran. */
  datatype Ran = Ran(gpu: GpuType, submitted: real, duration: real)

  /** Replaying through one slot per type, first come first served: nobody starts before being submitted,
      no two runs of a type overlap, and nobody waits for longer than the run in front of them. */
  ghost predicate FirstComeFirstServed(jobs: seq<Ran>, starts: seq<real>) {
    && |starts| == |jobs|
    && forall i :: 0 <= i < |jobs| ==> ServedInTurn(jobs, starts, i)
  }

  ghost predicate ServedInTurn(jobs: seq<Ran>, starts: seq<real>, i: nat)
    requires i < |jobs| && i < |starts| && |starts| <= |jobs|
  {
    && jobs[i].submitted <= starts[i]
    && (forall j :: 0 <= j < i && jobs[j].gpu == jobs[i].gpu ==> starts[j] + jobs[j].duration <= starts[i])
    && (starts[i] == jobs[i].submitted
        || exists j :: 0 <= j < i && jobs[j].gpu == jobs[i].gpu && starts[j] + jobs[j].duration == starts[i])
  }

  lemma StillServed(jobs: seq<Ran>, before: seq<real>, start: real, k: nat)
    requires k < |before| < |jobs| && ServedInTurn(jobs, before, k)
    ensures ServedInTurn(jobs, before + [start], k)
  {
  }

  lemma ServedNow(jobs: seq<Ran>, before: seq<real>, start: real)
    requires var i := |before|;
             && i < |jobs| && jobs[i].submitted <= start
             && (forall j :: 0 <= j < i && jobs[j].gpu == jobs[i].gpu ==> before[j] + jobs[j].duration <= start)
             && (start == jobs[i].submitted
                 || exists j :: 0 <= j < i && jobs[j].gpu == jobs[i].gpu && before[j] + jobs[j].duration == start)
    ensures ServedInTurn(jobs, before + [start], |before|)
  {
    var i, starts := |before|, before + [start];
    if start != jobs[i].submitted {
      var j :| 0 <= j < i && jobs[j].gpu == jobs[i].gpu && before[j] + jobs[j].duration == start;
      assert starts[j] + jobs[j].duration == starts[i];
    }
  }

  /** The FIFO loop of `build_cost_report`, over the jobs in submission order. */
  method FifoReplay(jobs: seq<Ran>) returns (starts: seq<real>)
    requires forall i :: 0 <= i < |jobs| ==> 0.0 <= jobs[i].submitted && 0.0 <= jobs[i].duration
    ensures FirstComeFirstServed(jobs, starts)
  {
    hide ServedInTurn;
    starts := [];
    var available: map<GpuType, real> := map[];
    for i := 0 to |jobs|
      invariant |starts| == i
      invariant forall k :: 0 <= k < i ==> 0.0 <= starts[k] && ServedInTurn(jobs, starts, k)
      invariant forall k :: 0 <= k < i ==>
                  jobs[k].gpu in available && starts[k] + jobs[k].duration <= available[jobs[k].gpu]
      invariant forall g :: g in available ==>
                  exists k :: 0 <= k < i && jobs[k].gpu == g && starts[k] + jobs[k].duration == available[g]
    {
      var job := jobs[i];
      var free := if job.gpu in available then available[job.gpu] else 0.0;
      var start := if free < job.submitted then job.submitted else free;
      ghost var before := starts;
      starts := starts + [start];
      available := available[job.gpu := start + job.duration];
      forall k | 0 <= k < i ensures ServedInTurn(jobs, starts, k) {
        StillServed(jobs, before, start, k);
      }
      ServedNow(jobs, before, start);
    }
  }

  /** Those rules leave no choice: there is one first-come-first-served schedule of given jobs. */
  lemma {:induction false} OneFifoSchedule(jobs: seq<Ran>, a: seq<real>, b: seq<real>, n: nat)
    requires FirstComeFirstServed(jobs, a) && FirstComeFirstServed(jobs, b) && n <= |jobs|
    ensures a[..n] == b[..n]
  {
    if 0 < n {
      OneFifoSchedule(jobs, a, b, n - 1);
      SameStart(jobs, a, b, n - 1);
      SameStart(jobs, b, a, n - 1);
      assert a[..n] == a[..n - 1] + [a[n - 1]] && b[..n] == b[..n - 1] + [b[n - 1]];
    }
  }

  lemma SameStart(jobs: seq<Ran>, a: seq<real>, b: seq<real>, i: nat)
    requires FirstComeFirstServed(jobs, a) && FirstComeFirstServed(jobs, b) && i < |jobs|
    requires a[..i] == b[..i]
    ensures a[i] <= b[i]
  {
    assert ServedInTurn(jobs, a, i) && ServedInTurn(jobs, b, i);
    if a[i] != jobs[i].submitted {
      var j :| 0 <= j < i && jobs[j].gpu == jobs[i].gpu && a[j] + jobs[j].duration == a[i];
      assert a[j] == a[..i][j] == b[..i][j] == b[j];
    }
  }
}
