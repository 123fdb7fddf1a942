/** Checkpointed work on simulated machines (gpu_broker/backends/fake.py): every step adds its own number to
    an accumulator, so a step run twice, or not at all, shows in the total. */
module FakeBackend {
  import opened Wrappers

  type JobId = nat
  type GpuType = nat
  type Handle = nat

  datatype Status = Pending | Running | Completed | Failed | Interrupted | Gone

  /** What a job will do, decided in advance. */
  datatype Plan = Plan(outcome: Status, hours: real, total: int, every: int, launchError: bool)

  datatype Resource = Resource(job: JobId, gpu: GpuType, readyAt: real, finishAt: real, outcome: Status,
                               total: int, every: int, start: nat, startValue: int,
                               lastSaved: int, terminated: bool)

  datatype LaunchError = NoCapacity | NoFreeSlot | Planned

  // --------------------------------------------------------------------- the work

  /** `sum(range(from, end))`. */
  function SumRange(from: int, end: int): int
    decreases end - from
  {
    if end <= from then 0 else SumRange(from, end - 1) + (end - 1)
  }

  lemma {:induction false} SumSplits(from: int, mid: int, end: int)
    requires from <= mid <= end
    ensures SumRange(from, end) == SumRange(from, mid) + SumRange(mid, end)
    decreases end - mid
  {
    if mid < end {
      SumSplits(from, mid, end - 1);
    }
  }

  /** The total of an uninterrupted run. */
  lemma {:induction false} SumOfAll(n: nat)
    ensures 2 * SumRange(0, n) == n * (n - 1)
  {
    if 0 < n {
      SumOfAll(n - 1);
    }
  }

  const INSTANT := 0.000000001

  function Clamp(x: real): real {
    if x < 0.0 then 0.0 else if 1.0 < x then 1.0 else x
  }

  function Span(r: Resource): real {
    if r.finishAt - r.readyAt < INSTANT then INSTANT else r.finishAt - r.readyAt
  }

  /** How much of the attempt's time has passed. */
  function Fraction(r: Resource, now: real): (f: real)
    ensures 0.0 <= f <= 1.0
  {
    Clamp((now - r.readyAt) / Span(r))
  }

  /** The steps an attempt has behind it at this moment. */
  function StepsDone(r: Resource, now: real): int {
    if r.total <= 0 then 0
    else r.start + Part(Fraction(r, now), r.total - r.start)
  }

  /** The whole steps in a fraction of `n`. */
  function Part(f: real, n: int): int {
    (f * n as real).Floor
  }

  lemma PartOf(f: real, n: nat)
    requires 0.0 <= f <= 1.0
    ensures 0 <= Part(f, n) <= n
    ensures f == 1.0 ==> Part(f, n) == n
    ensures f == 0.0 ==> Part(f, n) == 0
  {
    assert 0.0 <= f * n as real <= n as real;
  }

  /** An attempt never has fewer steps than it started with, nor more than there are. */
  lemma StepsInRange(r: Resource, now: real)
    requires 0 < r.total && r.start <= r.total
    ensures r.start <= StepsDone(r, now) <= r.total
    ensures now <= r.readyAt ==> StepsDone(r, now) == r.start
    ensures r.readyAt + Span(r) <= now ==> StepsDone(r, now) == r.total
  {
    hide Part;
    PartOf(Fraction(r, now), r.total - r.start);
    if now <= r.readyAt {
      NotPositive(now - r.readyAt, Span(r));
    }
    if r.readyAt + Span(r) <= now {
      AtLeastOne(now - r.readyAt, Span(r));
    }
  }

  /** In between, the steps are those that the time passed pays for at an even pace, and no more. */
  lemma StepsKeepPace(r: Resource, now: real)
    requires 0 < r.total && r.start <= r.total && r.readyAt <= now <= r.finishAt && INSTANT <= r.finishAt - r.readyAt
    ensures var left, done := r.total - r.start, StepsDone(r, now) - r.start;
            && done as real * (r.finishAt - r.readyAt) <= (now - r.readyAt) * left as real
            && (now - r.readyAt) * left as real < (done + 1) as real * (r.finishAt - r.readyAt)
  {
    hide Part, Fraction;
    FractionWithin(r, now);
    PartPaced(now - r.readyAt, r.finishAt - r.readyAt, r.total - r.start);
  }

  /** Half way through an attempt, half of what it has to do is done. */
  lemma HalfWayIsHalf(r: Resource, now: real)
    requires 0 < r.total && r.start <= r.total && r.readyAt <= now <= r.finishAt && INSTANT <= r.finishAt - r.readyAt
    requires now - r.readyAt == r.finishAt - now
    ensures StepsDone(r, now) == r.start + (r.total - r.start) / 2
  {
    hide StepsDone;
    StepsKeepPace(r, now);
    Halves(StepsDone(r, now) - r.start, r.total - r.start, now - r.readyAt, r.finishAt - r.readyAt);
  }

  lemma FractionWithin(r: Resource, now: real)
    requires r.readyAt <= now <= r.finishAt && INSTANT <= r.finishAt - r.readyAt
    ensures Fraction(r, now) == (now - r.readyAt) / (r.finishAt - r.readyAt)
  {
    QuotientMonotone(now - r.readyAt, r.finishAt - r.readyAt, r.finishAt - r.readyAt);
    QuotientMonotone(0.0, now - r.readyAt, r.finishAt - r.readyAt);
  }

  lemma Scaling(lo: real, x: real, hi: real, span: real, y: real)
    requires lo <= x < hi && 0.0 < span && x * span == y
    ensures lo * span <= y < hi * span
  {
    assert 0.0 <= (x - lo) * span;
    assert 0.0 < (hi - x) * span;
  }

  lemma Shared(f: real, passed: real, n: real, span: real)
    requires f * span == passed
    ensures f * n * span == passed * n
  {
    assert f * n * span == f * span * n;
  }

  lemma PartPaced(passed: real, span: real, n: nat)
    requires 0.0 <= passed && 0.0 < span
    ensures Part(passed / span, n) as real * span <= passed * n as real
    ensures passed * n as real < (Part(passed / span, n) + 1) as real * span
  {
    var f := passed / span;
    var x, lo, hi := f * n as real, Part(f, n) as real, (Part(f, n) + 1) as real;
    assert lo <= x < hi;
    Shared(f, passed, n as real, span);
    Scaling(lo, x, hi, span, passed * n as real);
  }

  lemma Sign(k: real, x: real)
    requires 0.0 < k
    ensures 0.0 <= k * x ==> 0.0 <= x
    ensures 0.0 < k * x ==> 0.0 < x
  {
  }

  lemma Halves(done: int, left: int, half: real, span: real)
    requires 0.0 < half && span == 2.0 * half
    requires done as real * span <= half * left as real
    requires half * left as real < (done + 1) as real * span
    ensures done == left / 2
  {
    Apart(done as real, left as real, (done + 1) as real, half, span);
  }

  lemma Apart(lo: real, x: real, hi: real, half: real, span: real)
    requires 0.0 < half && span == 2.0 * half
    requires lo * span <= half * x < hi * span
    ensures 2.0 * lo <= x < 2.0 * hi
  {
    Sign(half, x - 2.0 * lo);
    Sign(half, 2.0 * hi - x);
    assert half * (x - 2.0 * lo) == half * x - lo * span;
    assert half * (2.0 * hi - x) == hi * span - half * x;
  }

  lemma NotPositive(x: real, y: real)
    requires x <= 0.0 && 0.0 < y
    ensures x / y <= 0.0
  {
  }

  lemma AtLeastOne(x: real, y: real)
    requires 0.0 < y <= x
    ensures 1.0 <= x / y
  {
  }

  lemma QuotientMonotone(x: real, y: real, z: real)
    requires 0.0 < z && x <= y
    ensures x / z <= y / z
  {
  }

  lemma ProductMonotone(x: real, y: real, n: nat)
    requires x <= y
    ensures x * n as real <= y * n as real
  {
  }

  /** Within an attempt, steps never go backwards as time passes. */
  lemma StepsNeverRegress(r: Resource, now: real, later: real)
    requires r.start <= r.total && now <= later
    ensures StepsDone(r, now) <= StepsDone(r, later)
  {
    hide Fraction, Part;
    if 0 < r.total {
      FractionGrows(r, now, later);
      FloorMonotone(Fraction(r, now), Fraction(r, later), r.total - r.start);
    }
  }

  lemma FractionGrows(r: Resource, now: real, later: real)
    requires now <= later
    ensures Fraction(r, now) <= Fraction(r, later)
  {
    QuotientMonotone(now - r.readyAt, later - r.readyAt, Span(r));
  }

  lemma FloorMonotone(x: real, y: real, n: nat)
    requires x <= y
    ensures Part(x, n) <= Part(y, n)
  {
    ProductMonotone(x, y, n);
  }

  /** An interruption moves the end of the attempt to now. If the machine is interrupted again before it is given
      up, the steps counted then are more than had been done exactly when some were left and the second
      interruption comes an instant after the machine was ready or later: then every step counts as done.
      Before it was ready nothing is counted; within that instant the steps of an attempt one instant long are. */
  lemma SecondInterruptOvercountsIff(r: Resource, first: real, second: real)
    requires 0 < r.total && r.start <= r.total && first <= second
    ensures StepsDone(r, first) < StepsDone(r.(finishAt := first), second)
       <==> if r.readyAt + INSTANT <= second then StepsDone(r, first) < r.total
            else if second <= r.readyAt then false
            else Part(Fraction(r, first), r.total - r.start)
                 < Part((second - r.readyAt) / INSTANT, r.total - r.start)
    ensures r.readyAt + INSTANT <= second ==> StepsDone(r.(finishAt := first), second) == r.total
  {
    hide Part;
    var again := r.(finishAt := first);
    StepsInRange(again, second);
    StepsInRange(r, first);
    if r.readyAt < second < r.readyAt + INSTANT {
      assert Span(again) == INSTANT;
      WithinInstant(second - r.readyAt);
    }
  }

  lemma WithinInstant(x: real)
    requires 0.0 <= x < INSTANT
    ensures Clamp(x / INSTANT) == x / INSTANT
  {
  }

  function ValueAt(r: Resource, step: int): int {
    r.startValue + SumRange(r.start, step)
  }

  // ------------------------------------------------------------------- the backend

  type Saved = map<nat, int>

  /** Every checkpoint holds the sum of exactly the steps before it, none is past the end. */
  predicate RightSums(saved: Saved, total: int) {
    forall step :: step in saved ==> saved[step] == SumRange(0, step) && step <= total
  }

  predicate Attempts(r: Resource, plan: Plan, saved: Saved) {
    && r.total == plan.total && r.every == plan.every
    && (0 < r.total ==> r.start <= r.total && r.lastSaved <= r.total)
    && r.startValue == SumRange(0, r.start)
    && (0 <= r.lastSaved ==> r.lastSaved in saved)
    && (0 < r.start ==> r.start in saved)
  }

  /** Nothing in `b` that was in `a` is gone or changed. */
  predicate Extends(a: Saved, b: Saved) {
    forall step :: step in a ==> step in b && b[step] == a[step]
  }

  /** The step `latest` resumes from. */
  predicate IsLatest(saved: Saved, step: nat) {
    if saved == map[] then step == 0 else step in saved && forall s :: s in saved ==> s <= step
  }

  class FakeBackend {
    const plans: map<JobId, Plan>
    const capacity: map<GpuType, nat>
    const startup: real
    var now: real
    var resources: map<Handle, Resource>
    var counter: nat
    var saved: map<JobId, Saved>

    function PlanOf(job: JobId): Plan {
      if job in plans then plans[job] else Plan(Completed, 1.0, 0, 0, false)
    }

    function SavedOf(job: JobId): Saved
      reads this
    {
      if job in saved then saved[job] else map[]
    }

    ghost predicate Valid()
      reads this
    {
      && (forall h :: h in resources ==>
            h < counter && Attempts(resources[h], PlanOf(resources[h].job), SavedOf(resources[h].job)))
      && (forall job :: RightSums(SavedOf(job), PlanOf(job).total))
    }

    constructor (plans: map<JobId, Plan>, capacity: map<GpuType, nat>, startup: real)
      ensures Valid() && this.plans == plans && saved == map[] && resources == map[]
    {
      this.plans, this.capacity, this.startup := plans, capacity, startup;
      now, resources, counter, saved := 0.0, map[], 0, map[];
    }

    method Elapse(moment: real)
      requires Valid() && now <= moment
      modifies this`now
      ensures Valid() && now == moment
    {
      now := moment;
    }

    method Latest(job: JobId) returns (step: nat, value: int)
      requires Valid()
      ensures IsLatest(SavedOf(job), step) && value == SumRange(0, step)
    {
      step, value := 0, 0;
      var mine := SavedOf(job);
      if mine == map[] {
        return;
      }
      var rest := mine.Keys;
      assert rest != {};
      step :| step in rest;
      while rest != {}
        invariant rest <= mine.Keys && step in mine
        invariant forall s :: s in mine ==> s in rest || s <= step
        decreases |rest|
      {
        var s :| s in rest;
        rest := rest - {s};
        if step < s {
          step := s;
        }
      }
      value := mine[step];
    }

    predicate Finished(r: Resource)
      reads this
    {
      r.terminated || r.finishAt <= now
    }

    /** The machines of a type that are neither given up nor past their end. */
    function InUse(gpu: GpuType): (hs: set<Handle>)
      reads this
      ensures forall h :: h in hs <==>
                h in resources && resources[h].gpu == gpu && !resources[h].terminated && now < resources[h].finishAt
    {
      set h | h in resources && resources[h].gpu == gpu && !Finished(resources[h])
    }

    /** `free_slots`. */
    method FreeSlots(gpu: GpuType) returns (n: nat)
      ensures gpu !in capacity ==> n == 0
      ensures gpu in capacity ==> (0 < n <==> |InUse(gpu)| < capacity[gpu])
      ensures 0 < n ==> n + |InUse(gpu)| == capacity[gpu]
    {
      if gpu !in capacity {
        return 0;
      }
      var free := capacity[gpu] - |InUse(gpu)|;
      n := if free < 0 then 0 else free;
    }

    /** `launch`: an attempt begins where the newest checkpoint left off, with the sum that goes with it,
        and never before the start, or the last saved step, of any earlier attempt of the job. */
    method Launch(job: JobId, gpu: GpuType) returns (r: Result<Handle, LaunchError>)
      requires Valid()
      modifies this
      ensures Valid() && saved == old(saved) && now == old(now)
      ensures r.Err? ==> resources == old(resources)
      ensures r.Ok? <==> gpu in capacity && |old(InUse(gpu))| < capacity[gpu] && !PlanOf(job).launchError
      ensures r.Ok? ==>
                && r.value !in old(resources) && resources.Keys == old(resources).Keys + {r.value}
                && (forall h :: h in old(resources) ==> resources[h] == old(resources)[h])
                && resources[r.value].job == job
                && IsLatest(SavedOf(job), resources[r.value].start)
                && resources[r.value].startValue == SumRange(0, resources[r.value].start)
      ensures r.Ok? ==>
                var a, plan := resources[r.value], PlanOf(job);
                && a.gpu == gpu && a.readyAt == now + startup && a.finishAt == a.readyAt + plan.hours && !a.terminated
                && a.outcome == plan.outcome && a.total == plan.total && a.every == plan.every
      ensures job in plans ==> PlanOf(job) == plans[job]
      ensures r.Ok? ==> (forall step :: step in SavedOf(job) ==> step <= resources[r.value].start)
                        && forall h :: h in old(resources) && resources[h].job == job ==>
                             resources[h].start <= resources[r.value].start
                             && resources[h].lastSaved <= resources[r.value].start
    {
      hide SumRange, IsLatest, RightSums;
      if gpu !in capacity {
        return Err(NoCapacity);
      }
      var free := FreeSlots(gpu);
      if free <= 0 {
        return Err(NoFreeSlot);
      }
      var plan := PlanOf(job);
      if plan.launchError {
        return Err(Planned);
      }
      var step, value := Latest(job);
      LatestIsSaved(SavedOf(job), step, plan.total);
      var ready := now + startup;
      r := Ok(counter);
      Begin(Resource(job, gpu, ready, ready + plan.hours, plan.outcome, plan.total, plan.every, step, value, -1, false));
    }

    /** The next handle, and the attempt under it. */
    method Begin(r: Resource)
      requires Valid() && Attempts(r, PlanOf(r.job), SavedOf(r.job))
      modifies this`resources, this`counter
      ensures Valid() && old(counter) !in old(resources) && resources == old(resources)[old(counter) := r]
    {
      hide SumRange, RightSums, Attempts;
      resources := resources[counter := r];
      counter := counter + 1;
    }

    /** A checkpoint lands in the store. */
    method Store(job: JobId, step: nat, value: int)
      requires Valid() && value == SumRange(0, step) && step <= PlanOf(job).total
      modifies this`saved
      ensures Valid() && saved == old(saved)[job := old(SavedOf(job))[step := SumRange(0, step)]]
      ensures forall other :: Extends(old(SavedOf(other)), SavedOf(other))
    {
      hide SumRange;
      OneMoreSaved(SavedOf(job), PlanOf(job).total, step);
      saved := saved[job := SavedOf(job)[step := value]];
    }

    /** `_save`: nothing that was saved is ever changed, and what is added is the right sum. */
    method Save(h: Handle, step: nat)
      requires Valid() && h in resources && resources[h].start <= step <= resources[h].total
      modifies this`resources, this`saved
      ensures Valid() && resources.Keys == old(resources).Keys
      ensures var r := old(resources[h]);
              && resources == old(resources)[h := r.(lastSaved := if r.lastSaved < step then step else r.lastSaved)]
              && saved == (if r.lastSaved < step
                           then old(saved)[r.job := old(SavedOf(r.job))[step := SumRange(0, step)]] else old(saved))
      ensures forall job :: Extends(old(SavedOf(job)), SavedOf(job))
    {
      hide RightSums, Extends, SumRange;
      ExtendsItself(this);
      var r := resources[h];
      if step <= r.lastSaved {
        return;
      }
      SumSplits(0, r.start, step);
      Store(r.job, step, ValueAt(r, step));
      Mark(h, step);
    }

    /** The attempt remembers the last step it saved. */
    method Mark(h: Handle, step: nat)
      requires Valid() && h in resources && step <= resources[h].total && step in SavedOf(resources[h].job)
      modifies this`resources
      ensures Valid() && resources == old(resources)[h := old(resources[h]).(lastSaved := step)]
    {
      hide RightSums, SumRange;
      resources := resources[h := resources[h].(lastSaved := step)];
    }

    /** `_maybe_checkpoint`: the last boundary passed is saved, unless the attempt started past it. */
    method MaybeCheckpoint(h: Handle)
      requires Valid() && h in resources
      modifies this`resources, this`saved
      ensures Valid() && OnlySaved(old(resources), resources)
      ensures forall job :: Extends(old(SavedOf(job)), SavedOf(job))
      ensures BoundarySaved(old(resources[h]), resources[h].lastSaved, now)
      ensures var r := old(resources[h]); resources[h].lastSaved != r.lastSaved ==>
                0 < r.every && resources[h].lastSaved == StepsDone(r, now) / r.every * r.every
      ensures forall g :: g in resources && g != h ==> resources[g] == old(resources)[g]
    {
      hide StepsDone, SumRange;
      var r := resources[h];
      if r.every <= 0 || r.total <= 0 {
        return;
      }
      StepsInRange(r, now);
      var step := StepsDone(r, now);
      var boundary := step / r.every * r.every;
      Boundary(step, r.every);
      if boundary > r.lastSaved && boundary > r.start {
        Save(h, boundary);
      }
    }

    /** The last step, so that a completed job's accumulator is the full sum. */
    method SaveLast(h: Handle)
      requires Valid() && h in resources && 0 < resources[h].total
      modifies this`resources, this`saved
      ensures Valid() && OnlySaved(old(resources), resources)
      ensures forall job :: Extends(old(SavedOf(job)), SavedOf(job))
      ensures IsLatest(SavedOf(old(resources[h]).job), old(resources[h]).total)
    {
      hide SumRange;
      var r := resources[h];
      assert Attempts(r, PlanOf(r.job), SavedOf(r.job));
      Save(h, r.total);
      assert RightSums(SavedOf(r.job), PlanOf(r.job).total);
      assert resources[h].lastSaved == r.total;
    }

    /** `poll`. A running attempt has saved its last boundary, and a completed one its whole sum. */
    method Poll(h: Handle) returns (s: Status)
      requires Valid()
      modifies this`resources, this`saved
      ensures Valid() && OnlySaved(old(resources), resources)
      ensures forall job :: Extends(old(SavedOf(job)), SavedOf(job))
      ensures h !in old(resources) || old(resources[h]).terminated ==> s == Gone
      ensures h in old(resources) && !old(resources[h]).terminated ==>
                var r := old(resources[h]);
                s == if now < r.readyAt then Pending else if now < r.finishAt then Running else r.outcome
      ensures h in resources && !resources[h].terminated && resources[h].readyAt <= now < resources[h].finishAt ==>
                BoundarySaved(old(resources[h]), resources[h].lastSaved, now)
      ensures s == Completed && h in resources && 0 < resources[h].total && now >= resources[h].finishAt ==>
                IsLatest(SavedOf(resources[h].job), resources[h].total)
    {
      hide StepsDone, SumRange, BoundarySaved, RightSums, Attempts, IsLatest, Extends;
      ExtendsItself(this);
      if h !in resources {
        return Gone;
      }
      var r := resources[h];
      if r.terminated {
        return Gone;
      }
      if now < r.readyAt {
        return Pending;
      }
      if now < r.finishAt {
        MaybeCheckpoint(h);
        return Running;
      }
      if r.total > 0 && r.outcome == Completed {
        SaveLast(h);
      }
      return r.outcome;
    }

    method SaveProgress(h: Handle, step: int)
      requires Valid() && h in resources && 0 < resources[h].total
      requires step == StepsDone(resources[h], now)
      modifies this`resources, this`saved
      ensures Valid() && OnlySaved(old(resources), resources)
      ensures resources[h].lastSaved == (if old(resources[h]).lastSaved < step then step else old(resources[h]).lastSaved)
      ensures forall g :: g in resources && g != h ==> resources[g] == old(resources)[g]
      ensures forall job :: Extends(old(SavedOf(job)), SavedOf(job))
    {
      hide StepsDone, SumRange, RightSums;
      var r := resources[h];
      assert Attempts(r, PlanOf(r.job), SavedOf(r.job));
      StepsInRange(r, now);
      Save(h, step);
    }

    method TakeAway(h: Handle)
      requires Valid() && h in resources
      modifies this`resources
      ensures Valid() && resources == old(resources)[h := old(resources[h]).(finishAt := now, outcome := Interrupted)]
    {
      hide SumRange, RightSums;
      assert Attempts(resources[h], PlanOf(resources[h].job), SavedOf(resources[h].job));
      resources := resources[h := resources[h].(finishAt := now, outcome := Interrupted)];
    }

    /** `interrupt`: the job saves whatever it has, and then the capacity goes. */
    method Interrupt(h: Handle)
      requires Valid()
      modifies this`resources, this`saved
      ensures Valid() && resources.Keys == old(resources).Keys
      ensures forall job :: Extends(old(SavedOf(job)), SavedOf(job))
      ensures h in resources && !old(resources[h]).terminated ==>
                var r := old(resources[h]); var step := StepsDone(r, now);
                && resources[h].outcome == Interrupted && resources[h].finishAt == now
                && resources[h].lastSaved
                     == (if 0 < r.total && r.start < step && r.lastSaved < step then step else r.lastSaved)
      ensures forall g :: g in resources && g != h ==> resources[g] == old(resources)[g]
      ensures h !in resources || old(resources[h]).terminated ==> resources == old(resources) && saved == old(saved)
    {
      hide StepsDone, SumRange, RightSums, Attempts, Extends;
      ExtendsItself(this);
      if h !in resources || resources[h].terminated {
        return;
      }
      var r := resources[h];
      var step := StepsDone(r, now);
      if r.total > 0 && step > r.start {
        SaveProgress(h, step);
      }
      TakeAway(h);
    }

    method Terminate(h: Handle)
      requires Valid()
      modifies this`resources
      ensures Valid() && resources.Keys == old(resources).Keys
      ensures forall g :: g in resources ==>
                resources[g] == old(resources)[g].(terminated := g == h || old(resources)[g].terminated)
    {
      if h in resources {
        resources := resources[h := resources[h].(terminated := true)];
      }
    }

    /** `final_value`: what the newest checkpoint holds. */
    method FinalValue(job: JobId) returns (v: Option<int>)
      requires Valid()
      ensures v.None? <==> SavedOf(job) == map[]
      ensures v.Some? ==> exists step: nat :: IsLatest(SavedOf(job), step) && v.value == SumRange(0, step)
    {
      if SavedOf(job) == map[] {
        return None;
      }
      var step, value := Latest(job);
      return Some(value);
    }
  }

  lemma ExtendsItself(b: FakeBackend)
    ensures forall job :: Extends(b.SavedOf(job), b.SavedOf(job))
  {
  }

  lemma OneMoreSaved(saved: Saved, total: int, step: nat)
    requires RightSums(saved, total) && step <= total
    ensures RightSums(saved[step := SumRange(0, step)], total) && Extends(saved, saved[step := SumRange(0, step)])
  {
  }

  predicate OnlySaved(a: map<Handle, Resource>, b: map<Handle, Resource>) {
    a.Keys == b.Keys && forall h :: h in a ==> b[h] == a[h].(lastSaved := b[h].lastSaved)
  }

  /** No more than one interval of steps is unsaved. */
  predicate BoundarySaved(r: Resource, lastSaved: int, now: real) {
    0 < r.every && 0 < r.total ==>
      StepsDone(r, now) - r.every < (if r.start < lastSaved then lastSaved else r.start)
  }

  lemma Boundary(step: nat, every: int)
    requires 0 < every
    ensures 0 <= step / every * every <= step < step / every * every + every
  {
  }

  lemma LatestIsSaved(saved: Saved, step: nat, total: int)
    requires IsLatest(saved, step) && RightSums(saved, total)
    ensures (forall s :: s in saved ==> s <= step) && (0 < step ==> step in saved && step <= total)
  {
  }

  /** However often it was interrupted, and wherever each attempt resumed: once the newest checkpoint is the
      job's last step, as `poll` leaves it when it reports a job complete, the final value is the total of an
      uninterrupted run. Every step was counted once. */
  lemma ExactlyOnce(b: FakeBackend, job: JobId, step: nat)
    requires b.Valid() && 0 < b.PlanOf(job).total && b.PlanOf(job).total in b.SavedOf(job)
    requires IsLatest(b.SavedOf(job), step)
    ensures step == b.PlanOf(job).total
    ensures 2 * SumRange(0, step) == b.PlanOf(job).total * (b.PlanOf(job).total - 1)
  {
    assert RightSums(b.SavedOf(job), b.PlanOf(job).total);
    SumOfAll(step);
  }
}
