/** The semaphore-limited task pool of src/core/connection.py, which replaces its own semaphore while
    tasks still hold, and wait on, older ones.  Every semaphore the pool has ever installed is a
    "generation"; the last one is current.  One event is the code between two awaits. */
module TaskPool {
  import opened Counting

  type TaskId = nat

  /** An asyncio semaphore: FIFO waiters, and a release hands its permit to the first of them at once.
      A granted task owns a permit but has not run again yet. */
  datatype Generation = Generation(
    installed: nat,
    value: nat,
    waiting: seq<TaskId>,
    granted: set<TaskId>,
    running: set<TaskId>)

  datatype Pool = Pool(
    maxWorkers: nat,
    autoScale: bool,
    activeTasks: int,
    queuedTasks: int,
    completedTasks: nat,
    failedTasks: nat,
    submitted: nat,
    generations: seq<Generation>)

  /** `ok` is the outcome of the coroutine; `cooled` says that the scaling cooldown has passed and
      `degraded` that recent task times exceed the historical ones: clock readings are oracles. */
  datatype Event =
    | Submit
    | Resume(generation: nat, task: TaskId)
    | Finish(generation: nat, task: TaskId, ok: bool, cooled: bool, degraded: bool)

  function Fresh(permits: nat): Generation {
    Generation(permits, permits, [], {}, {})
  }

  function Init(maxWorkers: nat, autoScale: bool): Pool {
    Pool(maxWorkers, autoScale, 0, 0, 0, 0, 0, [Fresh(maxWorkers)])
  }

  function Min(a: int, b: int): int { if a < b then a else b }
  function Max(a: int, b: int): int { if a < b then b else a }

  predicate Enabled(p: Pool, e: Event) {
    match e
    case Submit => p.generations != []
    case Resume(g, t) => g < |p.generations| && t in p.generations[g].granted
    case Finish(g, t, _, _, _) => g < |p.generations| && t in p.generations[g].running
  }

  // ----- The steps

  function Utilization(value: nat, active: int): real {
    var capacity := value + active;
    if capacity > 0 then active as real / capacity as real else 0.0
  }

  function QueuePressure(queued: int, active: int): real {
    queued as real / Max(active, 1) as real
  }

  /** The permits of a semaphore of `newSize` once the permits out of the old one are taken off it. */
  function CarriedOver(oldSize: nat, value: nat, newSize: nat): (permits: nat)
    ensures permits <= newSize
  {
    newSize - Max(Min(oldSize - value, newSize), 0)
  }

  function Resize(p: Pool, newSize: nat): Pool
    requires p.generations != []
  {
    var current := p.generations[|p.generations| - 1];
    p.(maxWorkers := newSize,
       generations := p.generations + [Fresh(CarriedOver(p.maxWorkers, current.value, newSize))])
  }

  function ConsiderScaling(p: Pool, cooled: bool, degraded: bool): Pool
    requires p.generations != []
  {
    var utilization := Utilization(p.generations[|p.generations| - 1].value, p.activeTasks);
    var pressure := QueuePressure(p.queuedTasks, p.activeTasks);
    if !cooled then p
    else if utilization > 0.8 && pressure > 2.0 && p.maxWorkers < 20 && !degraded then
      Resize(p, Min(p.maxWorkers + 2, 20))
    else if utilization < 0.3 && pressure < 0.5 && p.maxWorkers > 2 then
      Resize(p, Max(p.maxWorkers - 1, 2))
    else p
  }

  function Enter(g: Generation, t: TaskId): Generation {
    if g.value > 0 && g.waiting == [] then g.(value := g.value - 1, running := g.running + {t})
    else g.(waiting := g.waiting + [t])
  }

  function Wake(g: Generation, t: TaskId): Generation {
    g.(granted := g.granted - {t}, running := g.running + {t})
  }

  function Release(g: Generation, t: TaskId): Generation {
    var left := g.running - {t};
    if g.waiting == [] then g.(running := left, value := g.value + 1)
    else g.(running := left, waiting := g.waiting[1..], granted := g.granted + {g.waiting[0]})
  }

  /** The pool as the finishing task leaves it, before its own permit goes back. */
  function Counted(p: Pool, ok: bool, cooled: bool, degraded: bool): Pool
    requires p.generations != []
  {
    if !ok then p.(failedTasks := p.failedTasks + 1)
    else
      var done := p.(completedTasks := p.completedTasks + 1);
      if p.autoScale then ConsiderScaling(done, cooled, degraded) else done
  }

  function Step(p: Pool, e: Event): Pool
    requires Enabled(p, e)
  {
    match e
    case Submit =>
      var last := |p.generations| - 1;
      var g := p.generations[last];
      var entered := p.(submitted := p.submitted + 1, generations := p.generations[last := Enter(g, p.submitted)]);
      if g.value > 0 && g.waiting == [] then entered.(activeTasks := p.activeTasks + 1)
      else entered.(queuedTasks := p.queuedTasks + 1)
    case Resume(k, t) =>
      p.(queuedTasks := p.queuedTasks - 1, activeTasks := p.activeTasks + 1,
         generations := p.generations[k := Wake(p.generations[k], t)])
    case Finish(k, t, ok, cooled, degraded) =>
      var counted := Counted(p, ok, cooled, degraded);
      counted.(activeTasks := counted.activeTasks - 1,
               generations := counted.generations[k := Release(counted.generations[k], t)])
  }

  ghost predicate IsRun(p: Pool, events: seq<Event>)
    decreases |events|
  {
    events == [] || (Enabled(p, events[0]) && IsRun(Step(p, events[0]), events[1..]))
  }

  function Run(p: Pool, events: seq<Event>): Pool
    requires IsRun(p, events)
    decreases |events|
  {
    if events == [] then p else Run(Step(p, events[0]), events[1..])
  }

  // ----- What every run keeps

  function Running(g: Generation): nat { |g.running| }
  function Queued(g: Generation): nat { |g.waiting| + |g.granted| }
  function Holders(g: Generation): nat { |g.granted| + |g.running| }
  function InFlight(g: Generation): nat { |g.waiting| + |g.granted| + |g.running| }

  function Current(p: Pool): Generation
    requires p.generations != []
  {
    p.generations[|p.generations| - 1]
  }

  ghost predicate Distinct(s: seq<TaskId>) {
    forall i, j :: 0 <= i < j < |s| ==> s[i] != s[j]
  }

  /** Permits are conserved within a generation, waiters exist only when none is free, and a task
      is in one place. */
  ghost predicate GenerationInv(g: Generation, submitted: nat) {
    && g.value + Holders(g) == g.installed
    && (g.waiting != [] ==> g.value == 0)
    && g.granted !! g.running
    && Distinct(g.waiting)
    && (forall t :: t in g.waiting ==> t !in g.granted && t !in g.running && t < submitted)
    && (forall t :: t in g.granted ==> t < submitted)
    && (forall t :: t in g.running ==> t < submitted)
  }

  /** The concurrency bound: everyone holding a permit of any generation, plus the free permits of
      the current one, fits into the advertised size. */
  ghost predicate Bounded(p: Pool)
    requires p.generations != []
  {
    Sum(Holders, p.generations) + Current(p).value <= p.maxWorkers
  }

  ghost predicate GenerationsInv(gens: seq<Generation>, submitted: nat) {
    && (forall k :: 0 <= k < |gens| ==> GenerationInv(gens[k], submitted))
    && (forall k :: 1 <= k < |gens| ==> gens[k].installed >= 1)
  }

  /** The pool's own counters are exact and no submission is lost. */
  ghost predicate CountersExact(p: Pool) {
    && p.activeTasks == Sum(Running, p.generations)
    && p.queuedTasks == Sum(Queued, p.generations)
    && p.submitted == p.completedTasks + p.failedTasks + Sum(InFlight, p.generations)
  }

  ghost predicate Inv(p: Pool) {
    && p.generations != []
    && GenerationsInv(p.generations, p.submitted)
    && CountersExact(p)
    && Bounded(p)
  }

  lemma InitInv(maxWorkers: nat, autoScale: bool)
    ensures Inv(Init(maxWorkers, autoScale))
  {
  }

  lemma QuotientAtLeast(a: real, c: real, q: real)
    requires c > 0.0 && a >= q * c
    ensures a / c >= q
  {
    var u := a / c;
    assert u * c == a;
    if u < q {
      assert (q - u) * c > 0.0;
    }
  }

  /** A finishing task is itself active, so a utilization below 0.3 means that at least three permits
      are free. */
  lemma LowUtilizationLeavesPermits(value: nat, active: int)
    requires active >= 1
    requires Utilization(value, active) < 0.3
    ensures value >= 3
  {
    if value <= 2 {
      var capacity := (value + active) as real;
      assert active as real >= 0.3 * capacity;
      QuotientAtLeast(active as real, capacity, 0.3);
    }
  }

  /** Whatever the new size, the bound survives a resize exactly when the present holders fit it. */
  lemma ResizeKeepsBoundIff(p: Pool, newSize: nat)
    requires p.generations != [] && Bounded(p)
    ensures Bounded(Resize(p, newSize)) <==> Sum(Holders, p.generations) <= newSize
  {
    SumAppend(Holders, p.generations, Fresh(CarriedOver(p.maxWorkers, Current(p).value, newSize)));
  }

  lemma ResizeInv(p: Pool, newSize: nat)
    requires Inv(p)
    requires newSize > p.maxWorkers - Current(p).value
    ensures Inv(Resize(p, newSize))
    ensures Current(Resize(p, newSize)).value >= 1
    ensures Measure(Resize(p, newSize)) == Measure(p)
  {
    var g := Fresh(CarriedOver(p.maxWorkers, Current(p).value, newSize));
    SumAppend(Holders, p.generations, g);
    SumAppend(Running, p.generations, g);
    SumAppend(Queued, p.generations, g);
    SumAppend(InFlight, p.generations, g);
    SumAppend(Work, p.generations, g);
  }

  lemma ShrinkInv(p: Pool)
    requires Inv(p) && p.activeTasks >= 1 && p.maxWorkers > 2
    requires Utilization(Current(p).value, p.activeTasks) < 0.3
    ensures Inv(Resize(p, Max(p.maxWorkers - 1, 2)))
    ensures Measure(Resize(p, Max(p.maxWorkers - 1, 2))) == Measure(p)
  {
    LowUtilizationLeavesPermits(Current(p).value, p.activeTasks);
    ResizeInv(p, Max(p.maxWorkers - 1, 2));
  }

  /** The utilisation guards are what makes both directions of scaling safe. */
  lemma ScalingInv(p: Pool, cooled: bool, degraded: bool)
    requires Inv(p) && p.activeTasks >= 1
    ensures var q := ConsiderScaling(p, cooled, degraded);
            && p.generations <= q.generations
            && q == p.(maxWorkers := q.maxWorkers, generations := q.generations)
            && Inv(q)
            && Measure(q) == Measure(p)
  {
    var q := ConsiderScaling(p, cooled, degraded);
    if q.maxWorkers > p.maxWorkers {
      ResizeInv(p, Min(p.maxWorkers + 2, 20));
    } else if q.maxWorkers < p.maxWorkers {
      ShrinkInv(p);
    }
  }

  /** Replacing one generation moves every total by that generation's own change. */
  lemma ReplaceTotals(gens: seq<Generation>, k: nat, g: Generation)
    requires k < |gens|
    ensures Sum(Holders, gens[k := g]) + Holders(gens[k]) == Sum(Holders, gens) + Holders(g)
    ensures Sum(Running, gens[k := g]) + Running(gens[k]) == Sum(Running, gens) + Running(g)
    ensures Sum(Queued, gens[k := g]) + Queued(gens[k]) == Sum(Queued, gens) + Queued(g)
    ensures Sum(InFlight, gens[k := g]) + InFlight(gens[k]) == Sum(InFlight, gens) + InFlight(g)
    ensures Sum(Work, gens[k := g]) + Work(gens[k]) == Sum(Work, gens) + Work(g)
  {
    SumUpdate(Holders, gens, k, g);
    SumUpdate(Running, gens, k, g);
    SumUpdate(Queued, gens, k, g);
    SumUpdate(InFlight, gens, k, g);
    SumUpdate(Work, gens, k, g);
  }

  lemma ReleaseInv(g: Generation, t: TaskId, submitted: nat)
    requires GenerationInv(g, submitted) && t in g.running
    ensures GenerationInv(Release(g, t), submitted)
    ensures Running(Release(g, t)) == Running(g) - 1
    ensures InFlight(Release(g, t)) == InFlight(g) - 1
    ensures Queued(Release(g, t)) == Queued(g)
    ensures Release(g, t).value + Holders(Release(g, t)) == g.value + Holders(g)
    ensures Release(g, t).value >= g.value
    ensures Work(Release(g, t)) == Work(g) - 1
  {
    assert |g.running - {t}| == |g.running| - 1;
    if g.waiting != [] {
      FirstWaiter(g.waiting);
      assert g.waiting[0] in g.waiting;
      assert |g.granted + {g.waiting[0]}| == |g.granted| + 1;
    }
  }

  lemma FirstWaiter(waiting: seq<TaskId>)
    requires waiting != [] && Distinct(waiting)
    ensures Distinct(waiting[1..]) && waiting[0] !in waiting[1..]
    ensures forall t :: t in waiting[1..] ==> t in waiting
  {
    var rest := waiting[1..];
    forall i | 0 <= i < |rest|
      ensures rest[i] != waiting[0]
    {
      assert rest[i] == waiting[i + 1];
    }
  }

  lemma ReplaceGeneration(gens: seq<Generation>, k: nat, g: Generation, before: nat, after: nat)
    requires k < |gens| && GenerationsInv(gens, before) && before <= after
    requires GenerationInv(g, after) && g.installed == gens[k].installed
    ensures GenerationsInv(gens[k := g], after)
  {
    var replaced := gens[k := g];
    forall i | 0 <= i < |replaced|
      ensures GenerationInv(replaced[i], after)
    {
      assert GenerationInv(gens[i], before);
    }
  }

  lemma EnterInv(g: Generation, submitted: nat)
    requires GenerationInv(g, submitted)
    ensures GenerationInv(Enter(g, submitted), submitted + 1)
    ensures Enter(g, submitted).value + Holders(Enter(g, submitted)) == g.value + Holders(g)
    ensures InFlight(Enter(g, submitted)) == InFlight(g) + 1
    ensures Queued(Enter(g, submitted)) + Running(Enter(g, submitted)) == Queued(g) + Running(g) + 1
    ensures Running(Enter(g, submitted)) == Running(g) + (if g.value > 0 && g.waiting == [] then 1 else 0)
  {
    assert submitted !in g.running && submitted !in g.waiting;
  }

  lemma WakeInv(g: Generation, t: TaskId, submitted: nat)
    requires GenerationInv(g, submitted) && t in g.granted
    ensures GenerationInv(Wake(g, t), submitted)
    ensures Holders(Wake(g, t)) == Holders(g) && InFlight(Wake(g, t)) == InFlight(g)
    ensures Queued(Wake(g, t)) == Queued(g) - 1 && Running(Wake(g, t)) == Running(g) + 1
    ensures Work(Wake(g, t)) == Work(g) - 1
  {
    assert t !in g.running;
  }

  /** Replacing generation k by `g` keeps counters and bound if the pool's own numbers move with it. */
  lemma MovedCounters(p: Pool, q: Pool, k: nat, g: Generation)
    requires k < |p.generations| && q.generations == p.generations[k := g]
    requires Bounded(p) && q.maxWorkers == p.maxWorkers
    requires q.activeTasks == Sum(Running, p.generations) + Running(g) - Running(p.generations[k])
    requires q.queuedTasks == Sum(Queued, p.generations) + Queued(g) - Queued(p.generations[k])
    requires q.submitted == q.completedTasks + q.failedTasks
                            + Sum(InFlight, p.generations) + InFlight(g) - InFlight(p.generations[k])
    requires g.value + Holders(g) == p.generations[k].value + Holders(p.generations[k])
    requires k < |p.generations| - 1 ==> Holders(g) <= Holders(p.generations[k])
    ensures CountersExact(q) && Bounded(q)
    ensures Measure(q) - Measure(p) == Work(g) - Work(p.generations[k])
  {
    ReplaceTotals(p.generations, k, g);
  }

  lemma SubmitShape(p: Pool)
    requires Inv(p)
    ensures var before := Current(p);
            var g := Enter(before, p.submitted);
            var q := Step(p, Submit);
            && q.generations == p.generations[|p.generations| - 1 := g]
            && q.maxWorkers == p.maxWorkers && q.submitted == p.submitted + 1
            && q.activeTasks == p.activeTasks + Running(g) - Running(before)
            && q.queuedTasks == p.queuedTasks + Queued(g) - Queued(before)
            && q.completedTasks == p.completedTasks && q.failedTasks == p.failedTasks
  {
    assert GenerationInv(Current(p), p.submitted);
    EnterInv(Current(p), p.submitted);
  }

  lemma SubmitInv(p: Pool)
    requires Inv(p)
    ensures Inv(Step(p, Submit))
  {
    var last := |p.generations| - 1;
    var g := Enter(Current(p), p.submitted);
    SubmitShape(p);
    EnterInv(Current(p), p.submitted);
    ReplaceGeneration(p.generations, last, g, p.submitted, p.submitted + 1);
    MovedCounters(p, Step(p, Submit), last, g);
  }

  lemma ResumeInv(p: Pool, k: nat, t: TaskId)
    requires Inv(p) && Enabled(p, Resume(k, t))
    ensures Inv(Step(p, Resume(k, t)))
    ensures Measure(Step(p, Resume(k, t))) == Measure(p) - 1
  {
    WakeInv(p.generations[k], t, p.submitted);
    ReplaceGeneration(p.generations, k, Wake(p.generations[k], t), p.submitted, p.submitted);
    MovedCounters(p, Step(p, Resume(k, t)), k, Wake(p.generations[k], t));
  }

  ghost predicate BeforeRelease(p: Pool, q: Pool) {
    && p.generations != [] && p.generations <= q.generations
    && GenerationsInv(q.generations, p.submitted)
    && Bounded(q)
    && q.activeTasks == p.activeTasks && q.queuedTasks == p.queuedTasks && q.submitted == p.submitted
    && q.completedTasks + q.failedTasks == p.completedTasks + p.failedTasks + 1
    && Sum(Running, q.generations) == Sum(Running, p.generations)
    && Sum(Queued, q.generations) == Sum(Queued, p.generations)
    && Sum(InFlight, q.generations) == Sum(InFlight, p.generations)
    && Measure(q) == Measure(p)
  }

  lemma ScaledKeeps(p: Pool, q: Pool)
    requires Inv(p) && Inv(q) && p.generations <= q.generations && Measure(q) == Measure(p)
    requires q == p.(maxWorkers := q.maxWorkers, generations := q.generations)
    ensures BeforeRelease(p, q.(completedTasks := p.completedTasks + 1))
  {
  }

  lemma UnscaledKeeps(p: Pool, q: Pool)
    requires Inv(p) && q == p.(completedTasks := q.completedTasks, failedTasks := q.failedTasks)
    requires q.completedTasks + q.failedTasks == p.completedTasks + p.failedTasks + 1
    ensures BeforeRelease(p, q)
  {
  }

  lemma CountedKeeps(p: Pool, ok: bool, cooled: bool, degraded: bool)
    requires Inv(p) && p.activeTasks >= 1
    ensures BeforeRelease(p, Counted(p, ok, cooled, degraded))
  {
    if !(ok && p.autoScale) {
      UnscaledKeeps(p, Counted(p, ok, cooled, degraded));
    } else {
      ScalingInv(p, cooled, degraded);
      ScalingIgnoresCompleted(p, p.completedTasks + 1, cooled, degraded);
      ScaledKeeps(p, ConsiderScaling(p, cooled, degraded));
    }
  }

  lemma ScalingIgnoresCompleted(p: Pool, completed: nat, cooled: bool, degraded: bool)
    requires p.generations != []
    ensures ConsiderScaling(p.(completedTasks := completed), cooled, degraded)
         == ConsiderScaling(p, cooled, degraded).(completedTasks := completed)
  {
  }

  lemma FinishInv(p: Pool, e: Event)
    requires Inv(p) && Enabled(p, e) && e.Finish?
    ensures Inv(Step(p, e))
    ensures Measure(Step(p, e)) == Measure(p) - 1
  {
    var k := e.generation;
    SumAtLeast(Running, p.generations, k);
    CountedKeeps(p, e.ok, e.cooled, e.degraded);
    var q := Counted(p, e.ok, e.cooled, e.degraded);
    ReleaseInv(q.generations[k], e.task, p.submitted);
    ReplaceGeneration(q.generations, k, Release(q.generations[k], e.task), p.submitted, p.submitted);
    MovedCounters(q, Step(p, e), k, Release(q.generations[k], e.task));
  }

  lemma StepInv(p: Pool, e: Event)
    requires Inv(p) && Enabled(p, e)
    ensures Inv(Step(p, e))
  {
    match e
    case Submit => SubmitInv(p);
    case Resume(k, t) => ResumeInv(p, k, t);
    case Finish(_, _, _, _, _) => FinishInv(p, e);
  }

  lemma {:induction false} RunInv(p: Pool, events: seq<Event>)
    requires Inv(p) && IsRun(p, events)
    ensures Inv(Run(p, events))
    decreases |events|
  {
    if events != [] {
      StepInv(p, events[0]);
      RunInv(Step(p, events[0]), events[1..]);
    }
  }

  /** Over any run, whatever the clock says and however often the semaphore is replaced: the bound
      holds, the two counters are exact, and no submission is lost. */
  lemma ConcurrencyBound(maxWorkers: nat, autoScale: bool, events: seq<Event>)
    requires IsRun(Init(maxWorkers, autoScale), events)
    ensures var p := Run(Init(maxWorkers, autoScale), events);
            && p.generations != []
            && Sum(Holders, p.generations) + Current(p).value <= p.maxWorkers
            && p.activeTasks == Sum(Running, p.generations) <= p.maxWorkers
            && p.queuedTasks == Sum(Queued, p.generations)
            && p.submitted == p.completedTasks + p.failedTasks + Sum(InFlight, p.generations)
  {
    InitInv(maxWorkers, autoScale);
    RunInv(Init(maxWorkers, autoScale), events);
    var p := Run(Init(maxWorkers, autoScale), events);
    SumBelow(Running, Holders, p.generations);
  }

  /** Without the guard the bound fails: three submissions fill a pool of three, and shrinking it then
      leaves three holders in a pool of two. */
  lemma ShrinkingUnguardedBreaksBound()
    ensures exists events :: IsRun(Init(3, true), events) && Run(Init(3, true), events).generations != []
                             && Bounded(Run(Init(3, true), events)) && !Bounded(Resize(Run(Init(3, true), events), 2))
  {
    var p0 := Init(3, true);
    var p1 := Step(p0, Submit);
    var p2 := Step(p1, Submit);
    var p3 := Step(p2, Submit);
    OneMore(p2, Submit, []);
    OneMore(p1, Submit, [Submit]);
    OneMore(p0, Submit, [Submit, Submit]);
    var events := [Submit] + [Submit, Submit];
    assert p3.generations[0].running == {0, 1, 2};
    ResizeKeepsBoundIff(p3, 2);
    assert Run(p0, events) == p3;
  }

  lemma OneMore(p: Pool, e: Event, events: seq<Event>)
    requires Enabled(p, e) && IsRun(Step(p, e), events)
    ensures IsRun(p, [e] + events) && Run(p, [e] + events) == Run(Step(p, e), events)
  {
    assert ([e] + events)[1..] == events;
  }

  /** Scaling never takes the size out of 2 to 20, or beyond where it started. */
  lemma {:induction false} SizeStaysInRange(p: Pool, events: seq<Event>, low: int, high: int)
    requires p.generations != [] && IsRun(p, events)
    requires low <= 2 && low <= p.maxWorkers <= high && 20 <= high
    ensures low <= Run(p, events).maxWorkers <= high
    decreases |events|
  {
    if events != [] {
      SizeStaysInRange(Step(p, events[0]), events[1..], low, high);
    }
  }

  /** The real thresholds of the utilization and of the pressure, in integers. */
  lemma ThresholdsInIntegers(value: nat, active: int, queued: int)
    requires active >= 1
    ensures Utilization(value, active) > 0.8 <==> active > 4 * value
    ensures Utilization(value, active) < 0.3 <==> 7 * active < 3 * value
    ensures QueuePressure(queued, active) > 2.0 <==> queued > 2 * active
    ensures QueuePressure(queued, active) < 0.5 <==> 2 * queued < active
  {
    QuotientAgainst(active, value + active, 4, 5);
    QuotientAgainst(active, value + active, 3, 10);
    QuotientAgainst(queued, active, 2, 1);
    QuotientAgainst(queued, active, 1, 2);
  }

  lemma QuotientAgainst(a: int, c: int, p: int, q: int)
    requires c > 0 && q > 0
    ensures a as real / c as real > p as real / q as real <==> q * a > p * c
    ensures a as real / c as real < p as real / q as real <==> q * a < p * c
  {
    var u, v := a as real / c as real, p as real / q as real;
    assert u * c as real == a as real && v * q as real == p as real;
    CrossMultiplied(u, v, c as real, q as real);
    assert (q * a) as real == q as real * a as real && (p * c) as real == p as real * c as real;
  }

  lemma CrossMultiplied(u: real, v: real, c: real, q: real)
    requires c > 0.0 && q > 0.0
    ensures u > v <==> q * (u * c) > (v * q) * c
    ensures u < v <==> q * (u * c) < (v * q) * c
  {
    var k := q * c;
    assert k > 0.0;
    assert q * (u * c) == u * k && (v * q) * c == v * k;
    if u > v {
      assert (u - v) * k > 0.0;
    } else if u < v {
      assert (v - u) * k > 0.0;
    }
  }

  /** When the pool changes its size, in the numbers of the pool as the finishing task finds them, that
      task included.  It grows by two, to 20 at most, exactly if the task succeeded, the pool scales, the
      cooldown is over, times are not degraded, more than four times as many tasks run as permits are
      free, and more than twice as many are queued.  It shrinks by one, to two at least, exactly if fewer
      than three for seven free permits run and fewer than half as many are queued.  Nothing else, and no
      other event, changes the size. */
  lemma SizeAfter(p: Pool, e: Event)
    requires Inv(p) && Enabled(p, e)
    ensures var size, active, queued, value := p.maxWorkers, p.activeTasks, p.queuedTasks, Current(p).value;
            var due := e.Finish? && e.ok && p.autoScale && e.cooled;
            var grows := due && !e.degraded && size < 20 && active > 4 * value && queued > 2 * active;
            var shrinks := due && size > 2 && 7 * active < 3 * value && 2 * queued < active;
            && Step(p, e).maxWorkers == (if grows then (if size + 2 <= 20 then size + 2 else 20)
                                         else if shrinks then size - 1 else size)
            && (Step(p, e).generations != [] && |Step(p, e).generations| > |p.generations| <==> grows || shrinks)
  {
    if e.Finish? {
      SumAtLeast(Running, p.generations, e.generation);
      assert p.activeTasks >= 1;
      ThresholdsInIntegers(Current(p).value, p.activeTasks, p.queuedTasks);
    }
  }

  function Finishes(events: seq<Event>, ok: bool): nat {
    if events == [] then 0 else (if events[0].Finish? && events[0].ok == ok then 1 else 0) + Finishes(events[1..], ok)
  }

  /** Successes and failures are each counted where they belong. */
  lemma {:induction false} OutcomesCounted(p: Pool, events: seq<Event>)
    requires IsRun(p, events)
    ensures Run(p, events).completedTasks == p.completedTasks + Finishes(events, true)
    ensures Run(p, events).failedTasks == p.failedTasks + Finishes(events, false)
    decreases |events|
  {
    if events != [] {
      OutcomesCounted(Step(p, events[0]), events[1..]);
    }
  }

  lemma CountedAppends(p: Pool, ok: bool, cooled: bool, degraded: bool)
    requires p.generations != []
    ensures p.generations <= Counted(p, ok, cooled, degraded).generations
  {
  }

  lemma GenerationStep(p: Pool, e: Event, k: nat)
    requires Enabled(p, e) && k < |p.generations|
    ensures k < |Step(p, e).generations|
    ensures var g := p.generations[k];
            Step(p, e).generations[k] ==
            match e
            case Submit => if k == |p.generations| - 1 then Enter(g, p.submitted) else g
            case Resume(n, t) => if n == k then Wake(g, t) else g
            case Finish(n, t, _, _, _) => if n == k then Release(g, t) else g
  {
    if e.Finish? {
      CountedAppends(p, e.ok, e.cooled, e.degraded);
    }
  }

  /** What one event does to the waiting line of a generation: it lets its first one go, or a new task
      joins at its end. */
  lemma LineStep(p: Pool, e: Event, k: nat)
    requires Enabled(p, e) && k < |p.generations|
    ensures k < |Step(p, e).generations|
    ensures var before, after := p.generations[k], Step(p, e).generations[k];
            || after.waiting == before.waiting
            || (before.waiting != [] && after.waiting == before.waiting[1..]
                && after.granted == before.granted + {before.waiting[0]})
            || after.waiting == before.waiting + [p.submitted]
  {
    GenerationStep(p, e, k);
  }

  lemma LineGrows(before: seq<TaskId>, t: TaskId, joined: seq<TaskId>, served: nat)
    requires served <= |before + [t] + joined|
    ensures (before + [t] + joined)[served..] == (before + ([t] + joined))[served..]
    ensures |before + [t] + joined| == |before + ([t] + joined)|
  {
    assert before + [t] + joined == before + ([t] + joined);
  }

  lemma LineShrinks(before: seq<TaskId>, joined: seq<TaskId>, served: nat)
    requires before != [] && served <= |before[1..] + joined|
    ensures served + 1 <= |before + joined|
    ensures (before[1..] + joined)[served..] == (before + joined)[served + 1..]
  {
    assert before + joined == [before[0]] + (before[1..] + joined);
  }

  /** First come, first served, over any run: the tasks still waiting on a generation are those that
      waited there or joined since, in that order, without the `served` first of them. */
  lemma {:induction false} NoOvertaking(p: Pool, events: seq<Event>, k: nat)
      returns (served: nat, joined: seq<TaskId>)
    requires IsRun(p, events) && k < |p.generations|
    ensures k < |Run(p, events).generations|
    ensures served <= |p.generations[k].waiting + joined|
    ensures Run(p, events).generations[k].waiting == (p.generations[k].waiting + joined)[served..]
    ensures forall t :: t in joined ==> p.submitted <= t < Run(p, events).submitted
    decreases |events|
  {
    if events == [] {
      served, joined := 0, [];
    } else {
      var before, next := p.generations[k].waiting, Step(p, events[0]);
      LineStep(p, events[0], k);
      SubmittedStep(p, events[0]);
      served, joined := NoOvertaking(next, events[1..], k);
      SubmittedRun(next, events[1..]);
      var line := next.generations[k].waiting;
      if line == before + [p.submitted] {
        LineGrows(before, p.submitted, joined, served);
        joined := [p.submitted] + joined;
      } else if line != before {
        LineShrinks(before, joined, served);
        served := served + 1;
      }
    }
  }

  lemma SubmittedStep(p: Pool, e: Event)
    requires Enabled(p, e)
    ensures Step(p, e).submitted == p.submitted + (if e.Submit? then 1 else 0)
    ensures forall k :: 0 <= k < |p.generations| ==>
              k < |Step(p, e).generations|
              && (|Step(p, e).generations[k].waiting| > |p.generations[k].waiting| ==> e.Submit?)
  {
    forall k | 0 <= k < |p.generations|
      ensures k < |Step(p, e).generations|
      ensures |Step(p, e).generations[k].waiting| > |p.generations[k].waiting| ==> e.Submit?
    {
      GenerationStep(p, e, k);
    }
  }

  lemma {:induction false} SubmittedRun(p: Pool, events: seq<Event>)
    requires IsRun(p, events)
    ensures p.submitted <= Run(p, events).submitted
    decreases |events|
  {
    if events != [] {
      SubmittedRun(Step(p, events[0]), events[1..]);
    }
  }

  // ----- What a resize leaves for good

  /** For every new size: the new semaphore keeps what was free, plus the difference of the sizes, and not
      less than nothing.  Growing the pool lowers the number of permits exactly if more tasks hold one of
      the semaphore it replaces than the pool grows by. */
  lemma ResizeKeepsPermits(p: Pool, newSize: nat)
    requires Inv(p)
    ensures var q := Resize(p, newSize);
            && Current(q).installed == Current(q).value
            && Current(q).installed == Max(0, Current(p).value + newSize - p.maxWorkers)
            && (newSize >= p.maxWorkers ==>
                  (Current(q).installed < Current(p).installed <==>
                     Holders(Current(p)) > newSize - p.maxWorkers))
  {
    assert GenerationInv(Current(p), p.submitted);
  }

  /** So when the pool scales up by itself, by at most two, it lowers the permits exactly if more tasks hold
      one of the current semaphore than it grows by; a pool with no free permit is left with at most two. */
  lemma ScaleUpLowersPermitsIff(p: Pool, cooled: bool, degraded: bool)
    requires Inv(p) && ConsiderScaling(p, cooled, degraded).maxWorkers > p.maxWorkers
    ensures var q := ConsiderScaling(p, cooled, degraded);
            && (Current(q).installed < Current(p).installed <==>
                  Holders(Current(p)) > q.maxWorkers - p.maxWorkers)
            && Current(q).installed == Current(p).value + q.maxWorkers - p.maxWorkers <= Current(p).value + 2
  {
    ResizeKeepsPermits(p, Min(p.maxWorkers + 2, 20));
  }

  lemma {:induction false} InstalledForGood(p: Pool, events: seq<Event>, k: nat)
    requires IsRun(p, events) && k < |p.generations|
    ensures k < |Run(p, events).generations|
    ensures Run(p, events).generations[k].installed == p.generations[k].installed
    decreases |events|
  {
    if events != [] {
      GenerationStep(p, events[0], k);
      InstalledForGood(Step(p, events[0]), events[1..], k);
    }
  }

  /** With the older generations idle, what runs is what the last one lets run. */
  lemma OnlyLastHolds(gens: seq<Generation>, submitted: nat)
    requires gens != [] && GenerationInv(gens[|gens| - 1], submitted)
    requires forall k :: 0 <= k < |gens| - 1 ==> Holders(gens[k]) == 0
    ensures Sum(Holders, gens) <= gens[|gens| - 1].installed
  {
    var older, last := gens[..|gens| - 1], gens[|gens| - 1];
    assert gens == older + [last];
    SumZero(Holders, older);
    SumAppend(Holders, older, last);
  }

  /** The loss lasts: in every run after a resize, until the next one, the pool never runs more tasks at a
      time than the permits it kept, once the tasks of the older semaphores are done. */
  lemma ResizeLimitsForGood(p: Pool, newSize: nat, events: seq<Event>)
    requires Inv(p) && Inv(Resize(p, newSize)) && IsRun(Resize(p, newSize), events)
    requires |Run(Resize(p, newSize), events).generations| == |p.generations| + 1
    requires forall k :: 0 <= k < |p.generations| ==>
               Holders(Run(Resize(p, newSize), events).generations[k]) == 0
    ensures Sum(Holders, Run(Resize(p, newSize), events).generations)
            <= Max(0, Current(p).value + newSize - p.maxWorkers)
  {
    var q := Resize(p, newSize);
    var r := Run(q, events);
    ResizeKeepsPermits(p, newSize);
    RunInv(q, events);
    InstalledForGood(q, events, |p.generations|);
    OnlyLastHolds(r.generations, r.submitted);
  }

  // ----- The pool never wedges

  /** A submission still has to be resumed and to finish, or only to finish. */
  function Work(g: Generation): nat { 2 * |g.waiting| + 2 * |g.granted| + |g.running| }
  function Measure(p: Pool): nat { Sum(Work, p.generations) }

  lemma FirstGenerationStep(p: Pool, e: Event)
    requires Enabled(p, e)
    ensures |p.generations| <= |Step(p, e).generations|
    ensures Step(p, e).generations[0].installed == p.generations[0].installed
  {
  }

  lemma {:induction false} FirstGenerationKept(p: Pool, events: seq<Event>)
    requires Inv(p) && IsRun(p, events)
    ensures |p.generations| <= |Run(p, events).generations|
    ensures Run(p, events).generations[0].installed == p.generations[0].installed
    decreases |events|
  {
    if events != [] {
      StepInv(p, events[0]);
      FirstGenerationStep(p, events[0]);
      FirstGenerationKept(Step(p, events[0]), events[1..]);
    }
  }

  predicate AllFinished(p: Pool) { p.completedTasks + p.failedTasks == p.submitted }

  ghost predicate CanMove(p: Pool) {
    exists e :: Enabled(p, e) && !e.Submit?
  }

  /** A pool whose semaphores all had permits is at rest exactly when every task has finished. */
  lemma MovesIffUnfinished(p: Pool)
    requires Inv(p) && p.generations[0].installed >= 1
    ensures CanMove(p) <==> !AllFinished(p)
    ensures AllFinished(p) <==> Measure(p) == 0
  {
    if AllFinished(p) {
      forall k | 0 <= k < |p.generations|
        ensures InFlight(p.generations[k]) == 0
      {
        SumAtLeast(InFlight, p.generations, k);
      }
      SumZero(Work, p.generations);
    } else {
      var k := SumPositive(InFlight, p.generations);
      SumAtLeast(Work, p.generations, k);
      GenerationMoves(p, k);
    }
  }

  lemma GenerationMoves(p: Pool, k: nat)
    requires Inv(p) && k < |p.generations|
    requires InFlight(p.generations[k]) > 0 && p.generations[k].installed >= 1
    ensures CanMove(p)
  {
    var g := p.generations[k];
    assert Holders(g) >= 1;
    if g.granted != {} {
      var t :| t in g.granted;
      assert Enabled(p, Resume(k, t));
    } else {
      assert |g.running| > 0;
      var t :| t in g.running;
      assert Enabled(p, Finish(k, t, true, false, false));
    }
  }

  /** Every waiter, on whatever generation, waits behind a task that holds a permit of that same
      generation, so some task that holds a permit can always move. */
  lemma NeverWedges(maxWorkers: nat, autoScale: bool, events: seq<Event>)
    requires maxWorkers >= 1
    requires IsRun(Init(maxWorkers, autoScale), events)
    ensures var p := Run(Init(maxWorkers, autoScale), events);
            && (forall k :: 0 <= k < |p.generations| && p.generations[k].waiting != [] ==>
                  Holders(p.generations[k]) == p.generations[k].installed >= 1)
            && (AllFinished(p) || CanMove(p))
  {
    InitInv(maxWorkers, autoScale);
    RunInv(Init(maxWorkers, autoScale), events);
    FirstGenerationKept(Init(maxWorkers, autoScale), events);
    MovesIffUnfinished(Run(Init(maxWorkers, autoScale), events));
  }

  lemma {:induction false} MeasureCountsDown(p: Pool, events: seq<Event>)
    requires Inv(p) && IsRun(p, events)
    requires forall i :: 0 <= i < |events| ==> !events[i].Submit?
    ensures |events| + Measure(Run(p, events)) == Measure(p)
    decreases |events|
  {
    if events != [] {
      var e := events[0];
      StepInv(p, e);
      if e.Resume? {
        ResumeInv(p, e.generation, e.task);
      } else {
        FinishInv(p, e);
      }
      var rest := events[1..];
      assert forall i :: 0 <= i < |rest| ==> rest[i] == events[i + 1];
      MeasureCountsDown(Step(p, e), rest);
    }
  }

  /** Once submissions stop, whatever is resized meanwhile, exactly `Measure` steps remain: every
      schedule takes that many, cannot stop before, and has then finished every task it accepted. */
  lemma DrainsInMeasure(p: Pool, events: seq<Event>)
    requires Inv(p) && p.generations[0].installed >= 1 && IsRun(p, events)
    requires forall i :: 0 <= i < |events| ==> !events[i].Submit?
    ensures |events| + Measure(Run(p, events)) == Measure(p)
    ensures !CanMove(Run(p, events)) <==> |events| == Measure(p)
    ensures AllFinished(Run(p, events)) <==> |events| == Measure(p)
  {
    MeasureCountsDown(p, events);
    RunInv(p, events);
    FirstGenerationKept(p, events);
    MovesIffUnfinished(Run(p, events));
  }

  // ----- The pool object

  class AdaptiveTaskPool {
    var maxWorkers: nat
    var autoScale: bool
    var activeTasks: int
    var queuedTasks: int
    var completedTasks: nat
    var failedTasks: nat
    var submitted: nat
    var generations: seq<Generation>

    function View(): Pool
      reads this
    {
      Pool(maxWorkers, autoScale, activeTasks, queuedTasks, completedTasks, failedTasks, submitted, generations)
    }

    constructor (workers: nat, scale: bool)
      ensures View() == Init(workers, scale)
    {
      maxWorkers, autoScale := workers, scale;
      activeTasks, queuedTasks, completedTasks, failedTasks, submitted := 0, 0, 0, 0, 0;
      generations := [Fresh(workers)];
    }

    method SubmitTask()
      requires Enabled(View(), Submit)
      modifies this
      ensures View() == Step(old(View()), Submit)
    {
      var last := |generations| - 1;
      var semaphore := generations[last];
      if semaphore.value > 0 && semaphore.waiting == [] {
        activeTasks := activeTasks + 1;
        semaphore := semaphore.(value := semaphore.value - 1, running := semaphore.running + {submitted});
      } else {
        queuedTasks := queuedTasks + 1;
        semaphore := semaphore.(waiting := semaphore.waiting + [submitted]);
      }
      generations := generations[last := semaphore];
      submitted := submitted + 1;
    }

    method ResumeTask(k: nat, t: TaskId)
      requires Enabled(View(), Resume(k, t))
      modifies this
      ensures View() == Step(old(View()), Resume(k, t))
    {
      queuedTasks := queuedTasks - 1;
      activeTasks := activeTasks + 1;
      var semaphore := generations[k];
      semaphore := semaphore.(granted := semaphore.granted - {t}, running := semaphore.running + {t});
      generations := generations[k := semaphore];
    }

    method FinishTask(k: nat, t: TaskId, ok: bool, cooled: bool, degraded: bool)
      requires Enabled(View(), Finish(k, t, ok, cooled, degraded))
      modifies this
      ensures View() == Step(old(View()), Finish(k, t, ok, cooled, degraded))
    {
      if ok {
        completedTasks := completedTasks + 1;
        if autoScale {
          ScalePool(cooled, degraded);
        }
      } else {
        failedTasks := failedTasks + 1;
      }
      activeTasks := activeTasks - 1;
      var semaphore := generations[k];
      if semaphore.waiting == [] {
        semaphore := semaphore.(value := semaphore.value + 1);
      } else {
        var first := semaphore.waiting[0];
        semaphore := semaphore.(waiting := semaphore.waiting[1..], granted := semaphore.granted + {first});
      }
      generations := generations[k := semaphore.(running := semaphore.running - {t})];
    }

    method ScalePool(cooled: bool, degraded: bool)
      requires generations != []
      modifies this
      ensures View() == ConsiderScaling(old(View()), cooled, degraded)
    {
      if !cooled {
        return;
      }
      var capacity := generations[|generations| - 1].value + activeTasks;
      var utilization := if capacity > 0 then activeTasks as real / capacity as real else 0.0;
      var pressure := queuedTasks as real / Max(activeTasks, 1) as real;
      if utilization > 0.8 && pressure > 2.0 && maxWorkers < 20 && !degraded {
        ResizePool(Min(maxWorkers + 2, 20));
      } else if utilization < 0.3 && pressure < 0.5 && maxWorkers > 2 {
        ResizePool(Max(maxWorkers - 1, 2));
      }
    }

    method ResizePool(newSize: nat)
      requires generations != []
      modifies this`maxWorkers, this`generations
      ensures View() == Resize(old(View()), newSize)
    {
      var out := maxWorkers - generations[|generations| - 1].value;
      maxWorkers := newSize;
      var permits := newSize;
      var taken := 0;
      while taken < Min(out, newSize)
        invariant 0 <= taken <= Max(Min(out, newSize), 0)
        invariant permits == newSize - taken
      {
        permits := permits - 1;
        taken := taken + 1;
      }
      generations := generations + [Fresh(permits)];
    }
  }
}
