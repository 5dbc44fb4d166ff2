/** The sharded export of src/telegram_sharded_client.py: workers take chunks from one task queue and
    stream them into their own bounded queues, while the consumer drains the queues one after another
    and sorts what it got.  One event is the code between two awaits; the schedule is arbitrary. */
module ShardedFetch {
  import opened Counting
  import opened History
  import opened ChunkFetch
  import HotZones

  /** `pending` is the rest of the chunk a worker is streaming, `sent` everything it has put so far (its
      `message_count`), and `received` what the consumer took from its queue. */
  datatype WorkerState = WorkerState(
    pending: seq<int>,
    queue: seq<int>,
    sent: seq<int>,
    received: seq<int>,
    finished: bool,
    failed: bool)

  datatype Config = Config(history: seq<int>, tasks: seq<HotZones.Chunk>, workers: nat, bound: int, retries: nat)

  datatype State = State(
    tasks: seq<HotZones.Chunk>,
    workers: seq<WorkerState>,
    turn: nat,
    collected: seq<int>,
    lost: seq<int>)

  /** `Fail` is an exception inside a worker: it ends that worker and loses the rest of its chunk. */
  datatype Event =
    | Grab(w: nat, t: Timing)
    | Put(w: nat)
    | Quit(w: nat)
    | Fail(w: nat)
    | Receive
    | NextQueue

  /** An export with nothing to sort fails on its summary line. */
  datatype Export = Exported(ids: seq<int>) | EmptyExport

  function Idle(): WorkerState { WorkerState([], [], [], [], false, false) }

  function Init(c: Config): State {
    State(c.tasks, seq(c.workers, (_: nat) => Idle()), 0, [], [])
  }

  predicate Active(s: State, w: nat) {
    w < |s.workers| && !s.workers[w].finished
  }

  predicate Room(q: seq<int>, bound: int) {
    bound <= 0 || |q| < bound
  }

  predicate Enabled(c: Config, s: State, e: Event) {
    match e
    case Grab(w, _) => Active(s, w) && s.workers[w].pending == [] && s.tasks != []
    case Put(w) => Active(s, w) && s.workers[w].pending != [] && Room(s.workers[w].queue, c.bound)
    case Quit(w) => Active(s, w) && s.workers[w].pending == [] && s.tasks == []
    case Fail(w) => Active(s, w)
    case Receive => s.turn < |s.workers| && s.workers[s.turn].queue != []
    case NextQueue => s.turn < |s.workers| && s.workers[s.turn].queue == [] && s.workers[s.turn].finished
  }

  function Acting(e: Event, s: State): nat {
    match e
    case Grab(w, _) => w
    case Put(w) => w
    case Quit(w) => w
    case Fail(w) => w
    case Receive => s.turn
    case NextQueue => s.turn
  }

  /** What the event does to the worker it concerns. */
  function WorkerStep(c: Config, s: State, e: Event): WorkerState
    requires Enabled(c, s, e)
  {
    var x := s.workers[Acting(e, s)];
    match e
    case Grab(_, t) => x.(pending := Emitted(c.history, s.tasks[0].start, s.tasks[0].end, c.retries, t))
    case Put(_) => x.(pending := x.pending[1..], queue := x.queue + [x.pending[0]], sent := x.sent + [x.pending[0]])
    case Quit(_) => x.(finished := true)
    case Fail(_) => x.(finished := true, failed := true, pending := [])
    case Receive => x.(queue := x.queue[1..], received := x.received + [x.queue[0]])
    case NextQueue => x
  }

  function Step(c: Config, s: State, e: Event): State
    requires Enabled(c, s, e)
  {
    var x := s.workers[Acting(e, s)];
    var moved := s.(workers := s.workers[Acting(e, s) := WorkerStep(c, s, e)]);
    match e
    case Grab(_, _) => moved.(tasks := s.tasks[1..])
    case Put(_) => moved
    case Quit(_) => moved
    case Fail(_) => moved.(lost := s.lost + x.pending)
    case Receive => moved.(collected := s.collected + [x.queue[0]])
    case NextQueue => moved.(turn := s.turn + 1)
  }

  ghost predicate IsRun(c: Config, s: State, events: seq<Event>)
    decreases |events|
  {
    events == [] || (Enabled(c, s, events[0]) && IsRun(c, Step(c, s, events[0]), events[1..]))
  }

  function Run(c: Config, s: State, events: seq<Event>): State
    requires IsRun(c, s, events)
    decreases |events|
  {
    if events == [] then s else Run(c, Step(c, s, events[0]), events[1..])
  }

  predicate Done(s: State) { s.turn == |s.workers| }

  function Exports(s: State): Export {
    if s.collected == [] then EmptyExport else Exported(SortById(s.collected))
  }

  // ----- Where a message is

  function Carries(id: int): WorkerState -> nat {
    (x: WorkerState) => Occurs(x.queue, id) + Occurs(x.pending, id)
  }

  function Places(c: Config, s: State, id: int): nat {
    Occurs(s.collected, id) + Sum(Carries(id), s.workers)
    + Sum(HotZones.Contents(c.history, id), s.tasks) + Occurs(s.lost, id)
  }

  /** Every message of the range is in one place: in a chunk not yet taken, with a worker, in its queue,
      collected, or lost to a failure. */
  ghost predicate Conserved(c: Config, s: State, lo: int, hi: int) {
    forall id :: Places(c, s, id) == Occurs(Between(c.history, lo, hi), id)
  }

  /** The part of the discipline that concerns one worker. */
  ghost predicate WorkerDiscipline(x: WorkerState) {
    x.sent == x.received + x.queue && (x.finished ==> x.pending == [])
  }

  /** Queues are FIFO; a finished worker streams nothing; one that quit did so because no chunk was
      left; and the consumer leaves a queue only when it has received everything ever put there. */
  ghost predicate Disciplined(c: Config, s: State) {
    && |s.workers| == c.workers
    && s.turn <= |s.workers|
    && (forall w :: 0 <= w < |s.workers| ==> WorkerDiscipline(s.workers[w]))
    && (forall w :: 0 <= w < |s.workers| && s.workers[w].finished && !s.workers[w].failed ==> s.tasks == [])
    && (forall w :: 0 <= w < s.turn ==> s.workers[w].finished && s.workers[w].queue == [])
    && (s.lost != [] ==> exists w :: 0 <= w < |s.workers| && s.workers[w].failed)
  }

  /** What the event adds to, or takes from, the messages its worker carries. */
  lemma CarriedStep(c: Config, s: State, e: Event, id: int)
    requires Ascending(c.history) && Enabled(c, s, e)
    ensures var x := s.workers[Acting(e, s)];
            var carried := Carries(id)(WorkerStep(c, s, e));
            match e
            case Grab(_, _) => carried == Carries(id)(x) + HotZones.Contents(c.history, id)(s.tasks[0])
            case Put(_) => carried == Carries(id)(x)
            case Quit(_) => carried == Carries(id)(x)
            case Fail(_) => carried + Occurs(x.pending, id) == Carries(id)(x)
            case Receive => carried + Occurs([x.queue[0]], id) == Carries(id)(x)
            case NextQueue => carried == Carries(id)(x)
  {
    var x := s.workers[Acting(e, s)];
    match e
    case Grab(_, t) => EmitsExactly(c.history, s.tasks[0].start, s.tasks[0].end, c.retries, t);
    case Put(_) => assert x.pending == [x.pending[0]] + x.pending[1..];
    case Quit(_) =>
    case Fail(_) =>
    case Receive => assert x.queue == [x.queue[0]] + x.queue[1..];
    case NextQueue =>
  }

  lemma StepPlaces(c: Config, s: State, e: Event, id: int)
    requires Ascending(c.history) && Enabled(c, s, e)
    ensures Places(c, Step(c, s, e), id) == Places(c, s, id)
  {
    SumUpdate(Carries(id), s.workers, Acting(e, s), WorkerStep(c, s, e));
    CarriedStep(c, s, e, id);
  }

  lemma WorkerStepDiscipline(c: Config, s: State, e: Event)
    requires Enabled(c, s, e) && WorkerDiscipline(s.workers[Acting(e, s)])
    ensures WorkerDiscipline(WorkerStep(c, s, e))
  {
    var x := s.workers[Acting(e, s)];
    if e.Receive? {
      assert x.queue == [x.queue[0]] + x.queue[1..];
    }
  }

  lemma StepDisciplined(c: Config, s: State, e: Event)
    requires Enabled(c, s, e) && Disciplined(c, s)
    ensures Disciplined(c, Step(c, s, e))
  {
    var w := Acting(e, s);
    var n := Step(c, s, e);
    assert WorkerDiscipline(s.workers[w]);
    WorkerStepDiscipline(c, s, e);
    if n.lost != [] {
      if e.Fail? {
        assert n.workers[w].failed;
      } else {
        var v :| 0 <= v < |s.workers| && s.workers[v].failed;
        assert n.workers[v].failed;
      }
    }
  }

  lemma {:induction false} RunKeeps(c: Config, s: State, events: seq<Event>, lo: int, hi: int)
    requires Ascending(c.history) && IsRun(c, s, events)
    requires Conserved(c, s, lo, hi) && Disciplined(c, s)
    ensures Conserved(c, Run(c, s, events), lo, hi) && Disciplined(c, Run(c, s, events))
    decreases |events|
  {
    if events != [] {
      var n := Step(c, s, events[0]);
      StepDisciplined(c, s, events[0]);
      forall id
        ensures Places(c, n, id) == Occurs(Between(c.history, lo, hi), id)
      {
        StepPlaces(c, s, events[0], id);
      }
      RunKeeps(c, n, events[1..], lo, hi);
    }
  }

  ghost predicate Planned(c: Config, lo: int, hi: int) {
    Ascending(c.history) && HotZones.Partition(c.tasks, lo, hi)
  }

  lemma RunFromStart(c: Config, events: seq<Event>, lo: int, hi: int)
    requires Planned(c, lo, hi) && IsRun(c, Init(c), events)
    ensures Conserved(c, Run(c, Init(c), events), lo, hi) && Disciplined(c, Run(c, Init(c), events))
  {
    forall id
      ensures Places(c, Init(c), id) == Occurs(Between(c.history, lo, hi), id)
    {
      SumZero(Carries(id), Init(c).workers);
      HotZones.PartitionContents(c.history, c.tasks, lo, hi, id);
    }
    RunKeeps(c, Init(c), events, lo, hi);
  }

  // ----- The promises

  /** When all queues are drained, what was collected is the whole range, less what failures lost. */
  lemma DrainedState(c: Config, s: State, lo: int, hi: int)
    requires Ascending(c.history) && Conserved(c, s, lo, hi) && Disciplined(c, s) && Done(s)
    ensures multiset(s.collected) <= multiset(Between(c.history, lo, hi))
    ensures c.workers >= 1 && (forall w :: 0 <= w < |s.workers| ==> !s.workers[w].failed) ==>
              multiset(s.collected) == multiset(Between(c.history, lo, hi))
  {
    var range := Between(c.history, lo, hi);
    forall id
      ensures multiset(s.collected)[id] <= multiset(range)[id]
    {
      SumZero(Carries(id), s.workers);
      assert Places(c, s, id) == Occurs(range, id);
    }
    if c.workers >= 1 && (forall w :: 0 <= w < |s.workers| ==> !s.workers[w].failed) {
      assert s.workers[0].finished && s.tasks == [] && s.lost == [];
      forall id
        ensures multiset(s.collected)[id] == multiset(range)[id]
      {
        SumZero(Carries(id), s.workers);
        assert Places(c, s, id) == Occurs(range, id);
      }
    }
  }

  /** Without worker failures, whatever the schedule, the work stealing and the verdicts of the clock, a
      sharded export of at least one worker yields exactly the messages of `(lo, hi]`, oldest first, each
      once; it has nothing to yield only if the range holds no message. */
  lemma ExportIsPlainScan(c: Config, events: seq<Event>, lo: int, hi: int)
    requires Planned(c, lo, hi) && IsRun(c, Init(c), events) && c.workers >= 1
    requires Done(Run(c, Init(c), events))
    requires forall k :: 0 <= k < |events| ==> !events[k].Fail?
    ensures var scan := Between(c.history, lo, hi);
            Exports(Run(c, Init(c), events)) == if scan == [] then EmptyExport else Exported(scan)
  {
    RunFromStart(c, events, lo, hi);
    NoFailures(c, Init(c), events);
    var s := Run(c, Init(c), events);
    DrainedState(c, s, lo, hi);
    SortByIdSorts(s.collected);
    BetweenAscending(c.history, lo, hi);
    SortedUnique(SortById(s.collected), Between(c.history, lo, hi));
    assert |multiset(s.collected)| == |s.collected|;
  }

  /** Whatever fails, what a completed export yields is strictly ascending and part of the range. */
  lemma ExportIsAscendingPart(c: Config, events: seq<Event>, lo: int, hi: int)
    requires Planned(c, lo, hi) && IsRun(c, Init(c), events)
    requires Done(Run(c, Init(c), events))
    ensures Exports(Run(c, Init(c), events)).Exported? ==>
              var ids := Exports(Run(c, Init(c), events)).ids;
              Ascending(ids) && forall id :: id in ids ==> id in c.history && lo < id <= hi
  {
    RunFromStart(c, events, lo, hi);
    var s := Run(c, Init(c), events);
    DrainedState(c, s, lo, hi);
    SortByIdSorts(s.collected);
    BetweenAscending(c.history, lo, hi);
    SortedPart(SortById(s.collected), Between(c.history, lo, hi));
    BetweenMembers(c.history, lo, hi);
  }

  /** The result of a plain scan, as the export would report it. */
  function PlainScan(scan: seq<int>): Export { if scan == [] then EmptyExport else Exported(scan) }

  /** What failures cost, exactly: what a completed export collected, lost with a failed worker and left
      in chunks nobody took make up the range, and the export is the plain scan if and only if nothing
      was lost and the chunks left hold no message.  Only when every worker failed is a chunk left. */
  lemma ExportIsWholeIff(c: Config, events: seq<Event>, lo: int, hi: int)
    requires Planned(c, lo, hi) && IsRun(c, Init(c), events)
    requires Done(Run(c, Init(c), events))
    ensures var s := Run(c, Init(c), events);
            var scan := Between(c.history, lo, hi);
            && (forall id :: Occurs(s.collected, id) + Occurs(s.lost, id)
                             + Sum(HotZones.Contents(c.history, id), s.tasks) == Occurs(scan, id))
            && (Exports(s) == PlainScan(scan) <==> s.lost == [] && NothingLeft(c, s))
            && ((exists w :: 0 <= w < |s.workers| && !s.workers[w].failed) ==> s.tasks == [])
  {
    RunFromStart(c, events, lo, hi);
    var s := Run(c, Init(c), events);
    var scan := Between(c.history, lo, hi);
    forall id
      ensures Occurs(s.collected, id) + Occurs(s.lost, id)
              + Sum(HotZones.Contents(c.history, id), s.tasks) == Occurs(scan, id)
    {
      SumZero(Carries(id), s.workers);
      assert Places(c, s, id) == Occurs(scan, id);
    }
    CollectedWholeIff(c, s, scan);
    SortedCollected(c, s, lo, hi);
  }

  /** Sorting the collected messages gives the scan exactly if they are its messages. */
  lemma SortedCollected(c: Config, s: State, lo: int, hi: int)
    requires Ascending(c.history)
    ensures var scan := Between(c.history, lo, hi);
            Exports(s) == PlainScan(scan) <==> multiset(s.collected) == multiset(scan)
  {
    var scan := Between(c.history, lo, hi);
    BetweenAscending(c.history, lo, hi);
    SortByIdSorts(s.collected);
    assert |multiset(s.collected)| == |s.collected| && |multiset(scan)| == |scan|;
    if multiset(s.collected) == multiset(scan) {
      SortedUnique(SortById(s.collected), scan);
    }
  }

  ghost predicate NothingLeft(c: Config, s: State) {
    forall k :: 0 <= k < |s.tasks| ==> Between(c.history, s.tasks[k].start, s.tasks[k].end) == []
  }

  lemma SomeOccurs(s: seq<int>)
    ensures s == [] <==> forall id :: Occurs(s, id) == 0
  {
    if s != [] {
      assert Occurs(s, s[0]) == multiset(s)[s[0]] > 0;
    }
  }

  lemma SameOccurs(a: seq<int>, b: seq<int>)
    ensures multiset(a) == multiset(b) <==> forall id :: Occurs(a, id) == Occurs(b, id)
  {
    if forall id :: Occurs(a, id) == Occurs(b, id) {
      forall id
        ensures multiset(a)[id] == multiset(b)[id]
      {
        assert Occurs(a, id) == Occurs(b, id);
      }
    }
  }

  lemma NothingLeftIff(c: Config, s: State)
    ensures NothingLeft(c, s) <==> forall id :: Sum(HotZones.Contents(c.history, id), s.tasks) == 0
  {
    if NothingLeft(c, s) {
      forall id
        ensures Sum(HotZones.Contents(c.history, id), s.tasks) == 0
      {
        SumZero(HotZones.Contents(c.history, id), s.tasks);
      }
    } else {
      var k :| 0 <= k < |s.tasks| && Between(c.history, s.tasks[k].start, s.tasks[k].end) != [];
      var window := Between(c.history, s.tasks[k].start, s.tasks[k].end);
      SomeOccurs(window);
      var id :| Occurs(window, id) != 0;
      SumAtLeast(HotZones.Contents(c.history, id), s.tasks, k);
    }
  }

  lemma CollectedWholeIff(c: Config, s: State, scan: seq<int>)
    requires forall id :: Occurs(s.collected, id) + Occurs(s.lost, id)
                          + Sum(HotZones.Contents(c.history, id), s.tasks) == Occurs(scan, id)
    ensures multiset(s.collected) == multiset(scan) <==> s.lost == [] && NothingLeft(c, s)
  {
    SomeOccurs(s.lost);
    NothingLeftIff(c, s);
    SameOccurs(s.collected, scan);
  }

  lemma {:induction false} NoFailures(c: Config, s: State, events: seq<Event>)
    requires IsRun(c, s, events)
    requires forall k :: 0 <= k < |events| ==> !events[k].Fail?
    requires forall w :: 0 <= w < |s.workers| ==> !s.workers[w].failed
    ensures forall w :: 0 <= w < |Run(c, s, events).workers| ==> !Run(c, s, events).workers[w].failed
    decreases |events|
  {
    if events != [] {
      var rest := events[1..];
      assert forall k :: 0 <= k < |rest| ==> rest[k] == events[k + 1];
      NoFailures(c, Step(c, s, events[0]), rest);
    }
  }

  // ----- The export as planned by the hot-zone planner

  datatype Setup = Setup(
    history: seq<int>,
    zones: HotZones.Config,
    known: seq<HotZones.HotZone>,
    datacenter: string,
    density: real,
    workers: nat,
    bound: int,
    retries: nat)

  function ConfigFor(u: Setup, effectiveMin: int, maxId: int): Config
    requires HotZones.PositiveSizes(u.zones, u.known)
  {
    var plan := HotZones.Plan(u.zones, u.known, u.datacenter, u.density, effectiveMin, maxId);
    Config(u.history, plan, u.workers, u.bound, u.retries)
  }

  /** A run in which no worker fails and the consumer has drained every queue. */
  ghost predicate Completes(c: Config, events: seq<Event>) {
    && IsRun(c, Init(c), events)
    && Done(Run(c, Init(c), events))
    && forall k :: 0 <= k < |events| ==> !events[k].Fail?
  }

  /** The planned export refines a plain scan of the messages above `effectiveMin` up to `maxId`. */
  lemma PlannedExportIsPlainScan(u: Setup, effectiveMin: int, maxId: int, events: seq<Event>)
    requires Ascending(u.history) && HotZones.PositiveSizes(u.zones, u.known) && u.workers >= 1
    requires Completes(ConfigFor(u, effectiveMin, maxId), events)
    ensures var c := ConfigFor(u, effectiveMin, maxId);
            var scan := Between(u.history, effectiveMin, maxId);
            Exports(Run(c, Init(c), events)) == if scan == [] then EmptyExport else Exported(scan)
  {
    var c := ConfigFor(u, effectiveMin, maxId);
    if effectiveMin <= maxId {
      HotZones.PlanPartitions(u.zones, u.known, u.datacenter, u.density, effectiveMin, maxId);
      ExportIsPlainScan(c, events, effectiveMin, maxId);
    } else {
      ExportIsPlainScan(c, events, effectiveMin, effectiveMin);
      BetweenEmpty(u.history, effectiveMin, maxId);
      BetweenEmpty(u.history, effectiveMin, effectiveMin);
    }
  }

  /** Without a `min_id` the range starts at the id of the oldest message. */
  function EffectiveMin(h: seq<int>, minId: HotZones.Option<int>): int
    requires h != []
  {
    if minId.Some? then minId.value else h[0]
  }

  /** What a whole export yields.  Since a chunk leaves out its own start, an export without `min_id`
      drops the oldest message, and fails if there is no other; the history is exported whole exactly if
      a `min_id` below its oldest message is given. */
  lemma WholeHistoryIff(u: Setup, minId: HotZones.Option<int>, events: seq<Event>)
    requires Ascending(u.history) && HotZones.PositiveSizes(u.zones, u.known) && u.workers >= 1
    requires u.history != []
    requires Completes(ConfigFor(u, EffectiveMin(u.history, minId), u.history[|u.history| - 1]), events)
    ensures var h := u.history;
            var c := ConfigFor(u, EffectiveMin(h, minId), h[|h| - 1]);
            var result := Exports(Run(c, Init(c), events));
            && (result == Exported(h) <==> minId.Some? && minId.value < h[0])
            && (minId.None? ==> result == if |h| == 1 then EmptyExport else Exported(h[1..]))
  {
    var h := u.history;
    var lo, hi := EffectiveMin(h, minId), h[|h| - 1];
    PlannedExportIsPlainScan(u, lo, hi, events);
    BetweenMembers(h, lo, hi);
    if lo < h[0] {
      BetweenAll(h, lo, hi);
    } else {
      assert h[0] !in Between(h, lo, hi);
    }
    if minId.None? {
      BetweenAll(h[1..], h[0], hi);
    }
  }

  /** No queue ever holds more than its bound. */
  lemma {:induction false} QueuesStayBounded(c: Config, s: State, events: seq<Event>)
    requires IsRun(c, s, events) && c.bound > 0
    requires forall w :: 0 <= w < |s.workers| ==> |s.workers[w].queue| <= c.bound
    ensures forall w :: 0 <= w < |Run(c, s, events).workers| ==> |Run(c, s, events).workers[w].queue| <= c.bound
    decreases |events|
  {
    if events != [] {
      QueuesStayBounded(c, Step(c, s, events[0]), events[1..]);
    }
  }

  /** Queues are FIFO at every moment of every run, and a queue the consumer has left had delivered
      exactly its `message_count` messages. */
  lemma QueuesDeliverInOrder(c: Config, events: seq<Event>, lo: int, hi: int)
    requires Planned(c, lo, hi) && IsRun(c, Init(c), events)
    ensures var s := Run(c, Init(c), events);
            && s.turn <= |s.workers|
            && (forall w :: 0 <= w < |s.workers| ==> s.workers[w].received <= s.workers[w].sent)
            && (forall w :: 0 <= w < s.turn ==> s.workers[w].received == s.workers[w].sent)
  {
    RunFromStart(c, events, lo, hi);
  }

  // ----- Progress

  function TaskWork(h: seq<int>): HotZones.Chunk -> nat {
    (x: HotZones.Chunk) => 1 + 2 * |Between(h, x.start, x.end)|
  }
  function WorkerWork(x: WorkerState): nat { 2 * |x.pending| + |x.queue| + (if x.finished then 0 else 1) }

  function Work(c: Config, s: State): int {
    Sum(TaskWork(c.history), s.tasks) + Sum(WorkerWork, s.workers) + |s.workers| - s.turn
  }

  lemma StepWorks(c: Config, s: State, e: Event)
    requires Ascending(c.history) && Enabled(c, s, e)
    ensures Work(c, Step(c, s, e)) < Work(c, s)
  {
    SumUpdate(WorkerWork, s.workers, Acting(e, s), WorkerStep(c, s, e));
    if e.Grab? {
      EmitsExactly(c.history, s.tasks[0].start, s.tasks[0].end, c.retries, e.t);
      var emitted := Emitted(c.history, s.tasks[0].start, s.tasks[0].end, c.retries, e.t);
      var window := Between(c.history, s.tasks[0].start, s.tasks[0].end);
      assert |multiset(emitted)| == |emitted| && |multiset(window)| == |window|;
    }
  }

  /** Draining the queues one after another cannot deadlock, although later workers may all be blocked
      on full queues: whoever the consumer waits for can move. */
  lemma AlwaysMoves(c: Config, s: State)
    requires Disciplined(c, s) && !Done(s)
    ensures exists e :: Enabled(c, s, e) && !e.Fail?
  {
    var x := s.workers[s.turn];
    if x.queue != [] {
      assert Enabled(c, s, Receive);
    } else if x.finished {
      assert Enabled(c, s, NextQueue);
    } else if x.pending != [] {
      assert Enabled(c, s, Put(s.turn));
    } else if s.tasks == [] {
      assert Enabled(c, s, Quit(s.turn));
    } else {
      assert Enabled(c, s, Grab(s.turn, Timing(false, [])));
    }
  }

  lemma {:induction false} RunsAreShort(c: Config, s: State, events: seq<Event>)
    requires Ascending(c.history) && Disciplined(c, s) && IsRun(c, s, events)
    ensures |events| <= Work(c, s)
    decreases |events|
  {
    if events != [] {
      StepWorks(c, s, events[0]);
      StepDisciplined(c, s, events[0]);
      RunsAreShort(c, Step(c, s, events[0]), events[1..]);
    }
  }

  lemma {:induction false} PlanWork(h: seq<int>, tasks: seq<HotZones.Chunk>, lo: int, hi: int)
    requires Ascending(h) && HotZones.Partition(tasks, lo, hi)
    ensures Sum(TaskWork(h), tasks) == |tasks| + 2 * |Between(h, lo, hi)|
    decreases |tasks|
  {
    if tasks == [] {
      BetweenEmpty(h, lo, hi);
    } else {
      HotZones.PartitionOrdered(tasks, lo, hi);
      PlanWork(h, tasks[1..], tasks[0].end, hi);
      BetweenJoin(h, lo, tasks[0].end, hi);
    }
  }

  lemma {:induction false} IdleWork(n: nat)
    ensures Sum(WorkerWork, seq(n, (_: nat) => Idle())) == n
  {
    if n > 0 {
      IdleWork(n - 1);
      assert seq(n, (_: nat) => Idle())[1..] == seq(n - 1, (_: nat) => Idle());
    }
  }

  /** Every run of the sharded export ends: two steps a message, one a chunk, two a worker at most; and
      a run that cannot continue without a failure has drained every queue. */
  lemma EveryRunDrains(c: Config, events: seq<Event>, lo: int, hi: int)
    requires Planned(c, lo, hi) && IsRun(c, Init(c), events)
    ensures |events| <= 2 * |Between(c.history, lo, hi)| + |c.tasks| + 2 * c.workers
    ensures (forall e :: Enabled(c, Run(c, Init(c), events), e) ==> e.Fail?) ==> Done(Run(c, Init(c), events))
  {
    RunFromStart(c, events, lo, hi);
    RunsAreShort(c, Init(c), events);
    PlanWork(c.history, c.tasks, lo, hi);
    IdleWork(c.workers);
    if !Done(Run(c, Init(c), events)) {
      AlwaysMoves(c, Run(c, Init(c), events));
    }
  }

  // ----- The export object

  class ShardedExport {
    const config: Config
    var taskQueue: seq<HotZones.Chunk>
    var workers: seq<WorkerState>
    var turn: nat
    var collected: seq<int>
    var lost: seq<int>

    function View(): State
      reads this
    {
      State(taskQueue, workers, turn, collected, lost)
    }

    constructor (c: Config)
      ensures config == c && View() == Init(c)
    {
      config := c;
      taskQueue, turn, collected, lost := c.tasks, 0, [], [];
      workers := seq(c.workers, (_: nat) => Idle());
    }

    /** A worker takes the next chunk, or ends because there is none. */
    method TakeChunk(w: nat, t: Timing)
      requires Active(View(), w) && workers[w].pending == []
      modifies this
      ensures View() == Step(config, old(View()), if old(taskQueue) == [] then Quit(w) else Grab(w, t))
    {
      if taskQueue == [] {
        workers := workers[w := workers[w].(finished := true)];
      } else {
        var chunk := taskQueue[0];
        taskQueue := taskQueue[1..];
        var emitted := Emitted(config.history, chunk.start, chunk.end, config.retries, t);
        workers := workers[w := workers[w].(pending := emitted)];
      }
    }

    method PutMessage(w: nat)
      requires Enabled(config, View(), Event.Put(w))
      modifies this
      ensures View() == Step(config, old(View()), Event.Put(w))
    {
      var x := workers[w];
      var id := x.pending[0];
      workers := workers[w := x.(pending := x.pending[1..], queue := x.queue + [id], sent := x.sent + [id])];
    }

    method FailWorker(w: nat)
      requires Enabled(config, View(), Fail(w))
      modifies this
      ensures View() == Step(config, old(View()), Fail(w))
    {
      lost := lost + workers[w].pending;
      workers := workers[w := workers[w].(finished := true, failed := true, pending := [])];
    }

    /** One turn of the consumer loop: take a message, move to the next queue, or find nothing yet. */
    method Collect()
      requires turn < |workers|
      modifies this
      ensures old(Enabled(config, View(), Receive)) ==> View() == Step(config, old(View()), Receive)
      ensures old(Enabled(config, View(), NextQueue)) ==> View() == Step(config, old(View()), NextQueue)
      ensures old(!Enabled(config, View(), Receive) && !Enabled(config, View(), NextQueue)) ==> View() == old(View())
    {
      var x := workers[turn];
      if x.queue != [] {
        collected := collected + [x.queue[0]];
        workers := workers[turn := x.(queue := x.queue[1..], received := x.received + [x.queue[0]])];
      } else if x.finished {
        assert workers[turn := x] == workers;
        turn := turn + 1;
      }
    }
  }
}
