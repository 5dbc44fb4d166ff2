/** The export pipeline of src/export/pipeline.py: one fetcher, any number of processors, one
    reordering writer, two bounded queues, and the orchestrator that joins the queues and sends the
    sentinels.  One event is the code between two awaits; the schedule is arbitrary. */
module Pipeline {
  import opened Counting

  type Payload = int

  /** What `process_fn` makes of a message: a value to write, None, or an exception. */
  datatype Outcome = Value(payload: Payload) | Nothing | Failure

  datatype Job = Job(seqNo: nat) | Stop
  datatype Processor = Idle | Busy(seqNo: nat) | Holding(seqNo: nat) | Exited
  datatype Result = Result(seqNo: nat, outcome: Outcome) | WriterStop
  datatype Writer = Waiting | Flushing | Closed
  datatype Phase = AwaitFetch | JoinFetch | SendStops | Gather | JoinWrite | SendWriterStop | AwaitWriter | Finished

  /** `outcomes[k]` is what becomes of the message numbered k + 1, and `writerFails` holds the numbers
      for which `writer_fn` raises.  A bound that is not positive makes an unbounded queue. */
  datatype Config = Config(
    outcomes: seq<Outcome>,
    writerFails: set<nat>,
    workers: nat,
    fetchBound: int,
    writeBound: int)

  datatype State = State(
    fetched: nat,
    fetcherDone: bool,
    lastSeq: nat,
    fetchQ: seq<Job>,
    fetchUnfinished: int,
    processors: seq<Processor>,
    writeQ: seq<Result>,
    writeUnfinished: int,
    writer: Writer,
    buffer: map<nat, Outcome>,
    expected: nat,
    calls: seq<Payload>,
    processedCount: nat,
    errors: nat,
    stopsSent: nat,
    phase: Phase)

  datatype Event =
    | FetchPut | FetchEnd
    | Take(w: nat) | Process(w: nat) | Deliver(w: nat)
    | WriterTake | Flush | FlushEnd
    | Advance

  function Init(c: Config): State {
    State(0, false, 0, [], 0, seq(c.workers, (_: nat) => Idle), [], 0, Waiting, map[], 1, [], 0, 0, 0, AwaitFetch)
  }

  predicate Room<T>(q: seq<T>, bound: int) {
    bound <= 0 || |q| < bound
  }

  predicate Enabled(c: Config, s: State, e: Event) {
    match e
    case FetchPut => s.fetched < |c.outcomes| && !s.fetcherDone && Room(s.fetchQ, c.fetchBound)
    case FetchEnd => s.fetched == |c.outcomes| && !s.fetcherDone
    case Take(w) => w < |s.processors| && s.processors[w].Idle? && s.fetchQ != []
    case Process(w) => w < |s.processors| && s.processors[w].Busy?
    case Deliver(w) =>
      && w < |s.processors| && s.processors[w].Holding?
      && 1 <= s.processors[w].seqNo <= |c.outcomes| && Room(s.writeQ, c.writeBound)
    case WriterTake => s.writer.Waiting? && s.writeQ != []
    case Flush => s.writer.Flushing? && s.expected in s.buffer
    case FlushEnd => s.writer.Flushing? && s.expected !in s.buffer
    case Advance =>
      match s.phase
      case AwaitFetch => s.fetcherDone
      case JoinFetch => s.fetchUnfinished == 0
      case SendStops => s.stopsSent == c.workers || Room(s.fetchQ, c.fetchBound)
      case Gather => forall w :: 0 <= w < |s.processors| ==> s.processors[w].Exited?
      case JoinWrite => s.writeUnfinished == 0
      case SendWriterStop => Room(s.writeQ, c.writeBound)
      case AwaitWriter => s.writer.Closed?
      case Finished => false
  }

  function TakeStep(s: State, w: nat): State
    requires w < |s.processors| && s.fetchQ != []
  {
    match s.fetchQ[0]
    case Job(i) => s.(fetchQ := s.fetchQ[1..], processors := s.processors[w := Busy(i)])
    case Stop => s.(fetchQ := s.fetchQ[1..], processors := s.processors[w := Exited],
                    fetchUnfinished := s.fetchUnfinished - 1)
  }

  function DeliverStep(c: Config, s: State, w: nat): State
    requires Enabled(c, s, Deliver(w))
  {
    var i := s.processors[w].seqNo;
    var outcome := c.outcomes[i - 1];
    s.(writeQ := s.writeQ + [Result(i, outcome)], writeUnfinished := s.writeUnfinished + 1,
       errors := if outcome.Failure? then s.errors + 1 else s.errors,
       processors := s.processors[w := Idle], fetchUnfinished := s.fetchUnfinished - 1)
  }

  function WriterTakeStep(s: State): State
    requires s.writeQ != []
  {
    match s.writeQ[0]
    case Result(i, outcome) => s.(writeQ := s.writeQ[1..], buffer := s.buffer[i := outcome], writer := Flushing)
    case WriterStop => s.(writeQ := s.writeQ[1..], writer := Closed, writeUnfinished := s.writeUnfinished - 1)
  }

  function FlushStep(c: Config, s: State): State
    requires s.expected in s.buffer
  {
    var popped := s.(buffer := s.buffer - {s.expected}, expected := s.expected + 1);
    match s.buffer[s.expected]
    case Value(v) =>
      popped.(calls := s.calls + [v],
              processedCount := if s.expected in c.writerFails then s.processedCount else s.processedCount + 1)
    case Nothing => popped
    case Failure => popped
  }

  function AdvanceStep(c: Config, s: State): State
    requires !s.phase.Finished?
  {
    match s.phase
    case AwaitFetch => s.(phase := JoinFetch)
    case JoinFetch => s.(phase := SendStops)
    case SendStops =>
      if s.stopsSent == c.workers then s.(phase := Gather)
      else s.(fetchQ := s.fetchQ + [Stop], fetchUnfinished := s.fetchUnfinished + 1, stopsSent := s.stopsSent + 1)
    case Gather => s.(phase := JoinWrite)
    case JoinWrite => s.(phase := SendWriterStop)
    case SendWriterStop =>
      s.(writeQ := s.writeQ + [WriterStop], writeUnfinished := s.writeUnfinished + 1, phase := AwaitWriter)
    case AwaitWriter => s.(phase := Finished)
  }

  function Step(c: Config, s: State, e: Event): State
    requires Enabled(c, s, e)
  {
    match e
    case FetchPut =>
      s.(fetched := s.fetched + 1, fetchQ := s.fetchQ + [Job(s.fetched + 1)], fetchUnfinished := s.fetchUnfinished + 1)
    case FetchEnd => s.(fetcherDone := true, lastSeq := s.fetched)
    case Take(w) => TakeStep(s, w)
    case Process(w) => s.(processors := s.processors[w := Holding(s.processors[w].seqNo)])
    case Deliver(w) => DeliverStep(c, s, w)
    case WriterTake => WriterTakeStep(s)
    case Flush => FlushStep(c, s)
    case FlushEnd => s.(writer := Waiting, writeUnfinished := s.writeUnfinished - 1)
    case Advance => AdvanceStep(c, s)
  }

  ghost predicate IsRun(c: Config, s: State, events: seq<Event>)
    decreases |events|
  {
    events == [] || (Enabled(c, s, events[0]) && IsRun(c, Step(c, s, events[0]), events[1..]))
  }

  function Run(c: Config, s: State, events: seq<Event>): State
    requires IsRun(c, s, events)
    decreases |events|
  {
    if events == [] then s else Run(c, Step(c, s, events[0]), events[1..])
  }

  // ----- The sequential meaning

  /** The values a sequential map-and-filter over the messages would write, in order. */
  function Values(outcomes: seq<Outcome>): seq<Payload> {
    if outcomes == [] then []
    else
      var rest := Values(outcomes[..|outcomes| - 1]);
      match outcomes[|outcomes| - 1]
      case Value(v) => rest + [v]
      case Nothing => rest
      case Failure => rest
  }

  function Failures(outcomes: seq<Outcome>): nat {
    if outcomes == [] then 0
    else Failures(outcomes[..|outcomes| - 1]) + (if outcomes[|outcomes| - 1].Failure? then 1 else 0)
  }

  function Nothings(outcomes: seq<Outcome>): nat {
    if outcomes == [] then 0
    else Nothings(outcomes[..|outcomes| - 1]) + (if outcomes[|outcomes| - 1].Nothing? then 1 else 0)
  }

  /** How many of the values fail to be written (`failing`), or are written. */
  function Writes(outcomes: seq<Outcome>, writerFails: set<nat>, failing: bool): nat {
    if outcomes == [] then 0
    else
      Writes(outcomes[..|outcomes| - 1], writerFails, failing) +
      (if outcomes[|outcomes| - 1].Value? && (|outcomes| in writerFails) == failing then 1 else 0)
  }

  lemma {:induction false} EveryMessageCounted(outcomes: seq<Outcome>, writerFails: set<nat>)
    ensures Writes(outcomes, writerFails, false) + Writes(outcomes, writerFails, true)
          + Failures(outcomes) + Nothings(outcomes) == |outcomes|
  {
    if outcomes != [] {
      EveryMessageCounted(outcomes[..|outcomes| - 1], writerFails);
    }
  }

  // ----- Where a message is

  function JobIs(i: nat): Job -> nat { (x: Job) => if x == Job(i) then 1 else 0 }
  function ProcessorHas(i: nat): Processor -> nat {
    (x: Processor) => if x == Busy(i) || x == Holding(i) then 1 else 0
  }
  function ResultIs(i: nat): Result -> nat { (x: Result) => if x.Result? && x.seqNo == i then 1 else 0 }

  function Places(s: State, i: nat): nat {
    Sum(JobIs(i), s.fetchQ) + Sum(ProcessorHas(i), s.processors) + Sum(ResultIs(i), s.writeQ)
    + (if i in s.buffer then 1 else 0) + (if 1 <= i < s.expected then 1 else 0)
  }

  /** A fetched message is in exactly one place: queued, held by one processor, queued for the writer,
      buffered, or flushed; and nothing else is anywhere. */
  ghost predicate Located(c: Config, s: State) {
    && s.fetched <= |c.outcomes|
    && 1 <= s.expected
    && forall i: nat :: Places(s, i) == if 1 <= i <= s.fetched then 1 else 0
  }

  /** Results travel with the outcome of their own message. */
  ghost predicate Accurate(c: Config, s: State) {
    && (forall k :: 0 <= k < |s.writeQ| && s.writeQ[k].Result? ==>
          1 <= s.writeQ[k].seqNo <= |c.outcomes| && s.writeQ[k].outcome == c.outcomes[s.writeQ[k].seqNo - 1])
    && (forall i :: i in s.buffer ==> 1 <= i <= |c.outcomes| && s.buffer[i] == c.outcomes[i - 1])
  }

  /** The writer has done exactly what the sequential program does on the flushed messages. */
  ghost predicate Ordered(c: Config, s: State) {
    && 1 <= s.expected <= |c.outcomes| + 1
    && s.calls == Values(c.outcomes[..s.expected - 1])
    && s.processedCount == Writes(c.outcomes[..s.expected - 1], c.writerFails, false)
    && (!s.writer.Flushing? ==> s.expected !in s.buffer)
  }

  function FailingJob(c: Config): Job -> nat {
    (x: Job) => if x.Job? && 1 <= x.seqNo <= |c.outcomes| && c.outcomes[x.seqNo - 1].Failure? then 1 else 0
  }
  function FailingProcessor(c: Config): Processor -> nat {
    (x: Processor) =>
      if (x.Busy? || x.Holding?) && 1 <= x.seqNo <= |c.outcomes| && c.outcomes[x.seqNo - 1].Failure? then 1 else 0
  }

  /** Every failure among the fetched messages is either counted or still ahead of the writer queue. */
  ghost predicate ErrorsCounted(c: Config, s: State) {
    && s.fetched <= |c.outcomes|
    && s.errors + Sum(FailingJob(c), s.fetchQ) + Sum(FailingProcessor(c), s.processors)
       == Failures(c.outcomes[..s.fetched])
  }

  function IsJob(x: Job): nat { if x.Job? then 1 else 0 }
  function IsStop(x: Job): nat { if x.Stop? then 1 else 0 }
  function IsWorking(x: Processor): nat { if x.Busy? || x.Holding? then 1 else 0 }
  function IsExited(x: Processor): nat { if x.Exited? then 1 else 0 }
  function IsWriterStop(x: Result): nat { if x.WriterStop? then 1 else 0 }

  function Rank(p: Phase): nat {
    match p
    case AwaitFetch => 0 case JoinFetch => 1 case SendStops => 2 case Gather => 3
    case JoinWrite => 4 case SendWriterStop => 5 case AwaitWriter => 6 case Finished => 7
  }

  /** The two unfinished-task counters are exact, so `task_done` never outruns `put`, and each stop is
      queued or has ended one processor. */
  ghost predicate Tallied(c: Config, s: State) {
    && s.fetchUnfinished == |s.fetchQ| + Sum(IsWorking, s.processors)
    && s.writeUnfinished == |s.writeQ| + (if s.writer.Flushing? then 1 else 0)
    && |s.processors| == c.workers
    && Sum(IsStop, s.fetchQ) + Sum(IsExited, s.processors) == s.stopsSent <= c.workers
    && (s.fetcherDone ==> s.fetched == s.lastSeq == |c.outcomes|)
  }

  /** What each phase of the shutdown sequence guarantees.  In particular a processor stop is put only
      when no message is queued or held, and the writer stop is the last item ever put. */
  ghost predicate Phased(c: Config, s: State) {
    && (Rank(s.phase) < 2 ==> s.stopsSent == 0)
    && (1 <= Rank(s.phase) ==> s.fetcherDone)
    && (2 <= Rank(s.phase) ==> Sum(IsJob, s.fetchQ) == 0 && Sum(IsWorking, s.processors) == 0)
    && (3 <= Rank(s.phase) ==> s.stopsSent == c.workers)
    && (4 <= Rank(s.phase) ==> s.fetchQ == [] && Sum(IsExited, s.processors) == c.workers)
    && (Rank(s.phase) < 6 ==> Sum(IsWriterStop, s.writeQ) == 0 && !s.writer.Closed?)
    && (Rank(s.phase) == 5 ==> s.writeQ == [] && s.writer.Waiting?)
    && (Rank(s.phase) == 6 ==> (s.writeQ == [WriterStop] && s.writer.Waiting?) || (s.writeQ == [] && s.writer.Closed?))
    && (Rank(s.phase) == 7 ==> s.writeQ == [] && s.writer.Closed?)
  }

  ghost predicate Inv(c: Config, s: State) {
    Located(c, s) && Accurate(c, s) && Ordered(c, s) && ErrorsCounted(c, s) && Tallied(c, s) && Phased(c, s)
  }

  // ----- One step

  lemma QueuePlaces(c: Config, s: State, e: Event, i: nat)
    requires Enabled(c, s, e) && (e.FetchPut? || e.Advance?)
    ensures Places(Step(c, s, e), i) == Places(s, i) + (if e.FetchPut? && i == s.fetched + 1 then 1 else 0)
  {
    SumAppend(JobIs(i), s.fetchQ, Job(s.fetched + 1));
    SumAppend(JobIs(i), s.fetchQ, Stop);
    SumAppend(ResultIs(i), s.writeQ, WriterStop);
  }

  lemma DeliverPlaces(c: Config, s: State, w: nat, i: nat)
    requires Enabled(c, s, Deliver(w))
    ensures Places(Step(c, s, Deliver(w)), i) == Places(s, i)
  {
    var k := s.processors[w].seqNo;
    SumUpdate(ProcessorHas(i), s.processors, w, Idle);
    SumAppend(ResultIs(i), s.writeQ, Result(k, c.outcomes[k - 1]));
  }

  lemma ProcessorPlaces(c: Config, s: State, e: Event, i: nat)
    requires Enabled(c, s, e) && (e.Take? || e.Process? || e.Deliver?)
    ensures Places(Step(c, s, e), i) == Places(s, i)
  {
    if e.Deliver? {
      DeliverPlaces(c, s, e.w, i);
    } else {
      SumUpdate(ProcessorHas(i), s.processors, e.w, Step(c, s, e).processors[e.w]);
    }
  }

  lemma WriterPlaces(c: Config, s: State, e: Event, i: nat)
    requires Enabled(c, s, e) && Located(c, s) && (e.WriterTake? || e.Flush? || e.FlushEnd?)
    ensures Places(Step(c, s, e), i) == Places(s, i)
  {
    if e.WriterTake? && s.writeQ[0].Result? {
      assert Places(s, s.writeQ[0].seqNo) <= 1;
    } else if e.Flush? {
      assert Places(s, s.expected) <= 1;
    }
  }

  lemma StepPlaces(c: Config, s: State, e: Event, i: nat)
    requires Enabled(c, s, e) && Located(c, s)
    ensures Places(Step(c, s, e), i) == Places(s, i) + (if e.FetchPut? && i == s.fetched + 1 then 1 else 0)
  {
    if e.FetchPut? || e.Advance? {
      QueuePlaces(c, s, e, i);
    } else if e.Take? || e.Process? || e.Deliver? {
      ProcessorPlaces(c, s, e, i);
    } else if !e.FetchEnd? {
      WriterPlaces(c, s, e, i);
    }
  }

  lemma StepLocated(c: Config, s: State, e: Event)
    requires Enabled(c, s, e) && Located(c, s)
    ensures Located(c, Step(c, s, e))
  {
    forall i: nat
      ensures Places(Step(c, s, e), i) == if 1 <= i <= Step(c, s, e).fetched then 1 else 0
    {
      StepPlaces(c, s, e, i);
    }
  }

  lemma QueueAccurate(c: Config, s: State, e: Event)
    requires Enabled(c, s, e) && Accurate(c, s) && (e.Deliver? || e.Advance?)
    ensures Accurate(c, Step(c, s, e))
  {
  }

  lemma WriterAccurate(c: Config, s: State, e: Event)
    requires Enabled(c, s, e) && Accurate(c, s) && (e.WriterTake? || e.Flush? || e.FlushEnd?)
    ensures Accurate(c, Step(c, s, e))
  {
  }

  lemma StepAccurate(c: Config, s: State, e: Event)
    requires Enabled(c, s, e) && Accurate(c, s)
    ensures Accurate(c, Step(c, s, e))
  {
    if e.Deliver? || e.Advance? {
      QueueAccurate(c, s, e);
    } else if e.WriterTake? || e.Flush? || e.FlushEnd? {
      WriterAccurate(c, s, e);
    } else {
      assert Step(c, s, e).writeQ == s.writeQ && Step(c, s, e).buffer == s.buffer;
    }
  }

  lemma FlushOrdered(c: Config, s: State)
    requires Enabled(c, s, Flush) && Accurate(c, s) && Ordered(c, s)
    ensures Ordered(c, Step(c, s, Flush))
  {
    var flushed := c.outcomes[..s.expected];
    assert flushed[..|flushed| - 1] == c.outcomes[..s.expected - 1];
  }

  lemma StepOrdered(c: Config, s: State, e: Event)
    requires Enabled(c, s, e) && Accurate(c, s) && Ordered(c, s)
    ensures Ordered(c, Step(c, s, e))
  {
    if e.Flush? {
      FlushOrdered(c, s);
    }
  }

  lemma ProcessorErrors(c: Config, s: State, e: Event)
    requires Enabled(c, s, e) && ErrorsCounted(c, s) && (e.Take? || e.Process? || e.Deliver?)
    ensures ErrorsCounted(c, Step(c, s, e))
  {
    SumUpdate(FailingProcessor(c), s.processors, e.w, Step(c, s, e).processors[e.w]);
  }

  lemma FetchErrors(c: Config, s: State)
    requires Enabled(c, s, FetchPut) && ErrorsCounted(c, s)
    ensures ErrorsCounted(c, Step(c, s, FetchPut))
  {
    SumAppend(FailingJob(c), s.fetchQ, Job(s.fetched + 1));
    var seen := c.outcomes[..s.fetched + 1];
    assert seen[..|seen| - 1] == c.outcomes[..s.fetched];
  }

  lemma StepErrors(c: Config, s: State, e: Event)
    requires Enabled(c, s, e) && ErrorsCounted(c, s)
    ensures ErrorsCounted(c, Step(c, s, e))
  {
    if e.Take? || e.Process? || e.Deliver? {
      ProcessorErrors(c, s, e);
    } else if e.FetchPut? {
      FetchErrors(c, s);
    } else {
      SumAppend(FailingJob(c), s.fetchQ, Stop);
    }
  }

  lemma StepProcessorSums(s: State, w: nat, p: Processor)
    requires w < |s.processors|
    ensures Sum(IsWorking, s.processors[w := p]) + IsWorking(s.processors[w])
         == Sum(IsWorking, s.processors) + IsWorking(p)
    ensures Sum(IsExited, s.processors[w := p]) + IsExited(s.processors[w]) == Sum(IsExited, s.processors) + IsExited(p)
  {
    SumUpdate(IsWorking, s.processors, w, p);
    SumUpdate(IsExited, s.processors, w, p);
  }

  lemma ProcessorTallied(c: Config, s: State, e: Event)
    requires Enabled(c, s, e) && Tallied(c, s) && (e.Take? || e.Process? || e.Deliver?)
    ensures Tallied(c, Step(c, s, e))
  {
    StepProcessorSums(s, e.w, Step(c, s, e).processors[e.w]);
  }

  lemma QueueTallied(c: Config, s: State, e: Event)
    requires Enabled(c, s, e) && Tallied(c, s) && Located(c, s) && (e.FetchPut? || e.FetchEnd? || e.Advance?)
    ensures Tallied(c, Step(c, s, e))
  {
    SumAppend(IsStop, s.fetchQ, Job(s.fetched + 1));
    SumAppend(IsStop, s.fetchQ, Stop);
  }

  lemma StepTallied(c: Config, s: State, e: Event)
    requires Enabled(c, s, e) && Tallied(c, s)
    requires Located(c, s)
    ensures Tallied(c, Step(c, s, e))
  {
    if e.Take? || e.Process? || e.Deliver? {
      ProcessorTallied(c, s, e);
    } else if e.FetchPut? || e.FetchEnd? || e.Advance? {
      QueueTallied(c, s, e);
    }
  }

  lemma {:induction false} SumOfOnes(ps: seq<Processor>)
    ensures Sum(IsExited, ps) <= |ps|
    ensures Sum(IsExited, ps) == |ps| <==> forall w :: 0 <= w < |ps| ==> ps[w].Exited?
  {
    if ps != [] {
      var rest := ps[1..];
      SumOfOnes(rest);
      assert forall w :: 0 <= w < |rest| ==> rest[w] == ps[w + 1];
      assert forall w :: 1 <= w < |ps| ==> ps[w] == rest[w - 1];
    }
  }

  lemma {:induction false} JobsAndStops(q: seq<Job>)
    ensures |q| == Sum(IsJob, q) + Sum(IsStop, q)
  {
    if q != [] {
      JobsAndStops(q[1..]);
    }
  }

  lemma ProcessorPhased(c: Config, s: State, e: Event)
    requires Enabled(c, s, e) && Phased(c, s) && (e.Process? || e.Deliver?)
    ensures Phased(c, Step(c, s, e))
  {
    SumAtLeast(IsWorking, s.processors, e.w);
    StepProcessorSums(s, e.w, Step(c, s, e).processors[e.w]);
    if e.Deliver? {
      var k := s.processors[e.w].seqNo;
      SumAppend(IsWriterStop, s.writeQ, Result(k, c.outcomes[k - 1]));
    }
  }

  lemma TakePhased(c: Config, s: State, w: nat)
    requires Enabled(c, s, Take(w)) && Phased(c, s)
    ensures Phased(c, Step(c, s, Take(w)))
  {
    StepProcessorSums(s, w, TakeStep(s, w).processors[w]);
  }

  lemma AdvancePhased(c: Config, s: State)
    requires Enabled(c, s, Advance) && Tallied(c, s) && Phased(c, s)
    ensures Phased(c, Step(c, s, Advance))
  {
    SumAppend(IsJob, s.fetchQ, Stop);
    SumOfOnes(s.processors);
    JobsAndStops(s.fetchQ);
  }

  lemma StepPhased(c: Config, s: State, e: Event)
    requires Enabled(c, s, e) && Tallied(c, s) && Phased(c, s)
    ensures Phased(c, Step(c, s, e))
  {
    if e.Process? || e.Deliver? {
      ProcessorPhased(c, s, e);
    } else if e.Take? {
      TakePhased(c, s, e.w);
    } else if e.Advance? {
      AdvancePhased(c, s);
    }
  }

  lemma InitInv(c: Config)
    ensures Inv(c, Init(c))
  {
    var s := Init(c);
    SumZero(IsWorking, s.processors);
    SumZero(IsExited, s.processors);
    SumZero(FailingProcessor(c), s.processors);
    forall i: nat
      ensures Places(s, i) == 0
    {
      SumZero(ProcessorHas(i), s.processors);
    }
  }

  lemma StepInv(c: Config, s: State, e: Event)
    requires Inv(c, s) && Enabled(c, s, e)
    ensures Inv(c, Step(c, s, e))
  {
    StepLocated(c, s, e);
    StepAccurate(c, s, e);
    StepOrdered(c, s, e);
    StepErrors(c, s, e);
    StepTallied(c, s, e);
    StepPhased(c, s, e);
  }

  lemma {:induction false} RunInv(c: Config, s: State, events: seq<Event>)
    requires Inv(c, s) && IsRun(c, s, events)
    ensures Inv(c, Run(c, s, events))
    decreases |events|
  {
    if events != [] {
      StepInv(c, s, events[0]);
      RunInv(c, Step(c, s, events[0]), events[1..]);
    }
  }

  // ----- The promises

  /** At every moment of every schedule, also one that is aborted, the calls to `writer_fn` are the
      values of a prefix of the fetched messages, in fetch order and each once. */
  lemma CallsArePrefix(c: Config, events: seq<Event>)
    requires IsRun(c, Init(c), events)
    ensures var s := Run(c, Init(c), events);
            && 1 <= s.expected <= s.fetched + 1 <= |c.outcomes| + 1
            && s.calls == Values(c.outcomes[..s.expected - 1])
  {
    InitInv(c);
    RunInv(c, Init(c), events);
    var s := Run(c, Init(c), events);
    if s.expected > 1 {
      assert Places(s, s.expected - 1) > 0;
    }
  }

  /** When the run returns, whatever the schedule was, it has written what the sequential program
      writes and every message is accounted for. */
  lemma FinishedRunIsSequential(c: Config, events: seq<Event>)
    requires IsRun(c, Init(c), events)
    requires Run(c, Init(c), events).phase.Finished?
    ensures var s := Run(c, Init(c), events);
            && s.calls == Values(c.outcomes)
            && s.buffer == map[]
            && s.lastSeq == |c.outcomes| && s.expected == s.lastSeq + 1
            && s.errors == Failures(c.outcomes)
            && s.processedCount == Writes(c.outcomes, c.writerFails, false)
            && s.processedCount + s.errors + Nothings(c.outcomes) + Writes(c.outcomes, c.writerFails, true) == s.lastSeq
  {
    InitInv(c);
    RunInv(c, Init(c), events);
    FinalState(c, Run(c, Init(c), events));
    EveryMessageCounted(c.outcomes, c.writerFails);
  }

  /** No `task_done` outruns its `put`; a processor stop is never queued beside a message or while a
      processor holds one; and the writer stop is the last item of all. */
  lemma SentinelsComeLast(c: Config, events: seq<Event>)
    requires IsRun(c, Init(c), events)
    ensures var s := Run(c, Init(c), events);
            && s.fetchUnfinished >= 0 && s.writeUnfinished >= 0
            && (Stop in s.fetchQ ==>
                  (forall k :: 0 <= k < |s.fetchQ| ==> s.fetchQ[k].Stop?)
                  && (forall w :: 0 <= w < |s.processors| ==> s.processors[w].Idle? || s.processors[w].Exited?))
            && (WriterStop in s.writeQ ==>
                  s.writeQ == [WriterStop] && s.fetchQ == []
                  && (forall w :: 0 <= w < |s.processors| ==> s.processors[w].Exited?))
  {
    InitInv(c);
    RunInv(c, Init(c), events);
    var s := Run(c, Init(c), events);
    SumOfOnes(s.processors);
    if Stop in s.fetchQ {
      var k :| 0 <= k < |s.fetchQ| && s.fetchQ[k] == Stop;
      SumAtLeast(IsStop, s.fetchQ, k);
      assert Rank(s.phase) >= 2;
      forall j | 0 <= j < |s.fetchQ| ensures s.fetchQ[j].Stop? {
        SumAtLeast(IsJob, s.fetchQ, j);
      }
      forall w | 0 <= w < |s.processors| ensures s.processors[w].Idle? || s.processors[w].Exited? {
        SumAtLeast(IsWorking, s.processors, w);
      }
    }
    if WriterStop in s.writeQ {
      var k :| 0 <= k < |s.writeQ| && s.writeQ[k] == WriterStop;
      SumAtLeast(IsWriterStop, s.writeQ, k);
      assert Rank(s.phase) == 6;
    }
  }

  lemma FinalState(c: Config, s: State)
    requires Inv(c, s) && s.phase.Finished?
    ensures s.expected == |c.outcomes| + 1 && s.buffer == map[]
    ensures c.outcomes[..s.expected - 1] == c.outcomes && c.outcomes[..s.fetched] == c.outcomes
    ensures s.errors == Failures(c.outcomes)
  {
    SumOfOnes(s.processors);
    forall i: nat
      ensures Sum(ProcessorHas(i), s.processors) == 0
    {
      SumZero(ProcessorHas(i), s.processors);
    }
    SumZero(FailingProcessor(c), s.processors);
    assert Places(s, s.expected) == if s.expected in s.buffer then 1 else 0;
    forall i: nat
      ensures i !in s.buffer
    {
      assert Places(s, i) == (if i in s.buffer then 1 else 0) + (if 1 <= i < s.expected then 1 else 0);
    }
    assert s.buffer.Keys == {};
  }

  /** Neither queue ever holds more than its bound. */
  lemma {:induction false} QueuesStayBounded(c: Config, s: State, events: seq<Event>)
    requires IsRun(c, s, events)
    requires c.fetchBound > 0 ==> |s.fetchQ| <= c.fetchBound
    requires c.writeBound > 0 ==> |s.writeQ| <= c.writeBound
    ensures c.fetchBound > 0 ==> |Run(c, s, events).fetchQ| <= c.fetchBound
    ensures c.writeBound > 0 ==> |Run(c, s, events).writeQ| <= c.writeBound
    decreases |events|
  {
    if events != [] {
      BoundedStep(c, s, events[0]);
      QueuesStayBounded(c, Step(c, s, events[0]), events[1..]);
    }
  }

  lemma BoundedStep(c: Config, s: State, e: Event)
    requires Enabled(c, s, e)
    requires c.fetchBound > 0 ==> |s.fetchQ| <= c.fetchBound
    requires c.writeBound > 0 ==> |s.writeQ| <= c.writeBound
    ensures c.fetchBound > 0 ==> |Step(c, s, e).fetchQ| <= c.fetchBound
    ensures c.writeBound > 0 ==> |Step(c, s, e).writeQ| <= c.writeBound
  {
  }

  // ----- Progress

  function ProcessorWork(x: Processor): nat {
    match x
    case Busy(_) => 5
    case Holding(_) => 4
    case Idle => 0
    case Exited => 0
  }

  function PhaseWork(p: Phase): nat {
    match p
    case AwaitFetch => 11 case JoinFetch => 10 case SendStops => 9 case Gather => 8
    case JoinWrite => 7 case SendWriterStop => 6 case AwaitWriter => 1 case Finished => 0
  }

  function Work(c: Config, s: State): int {
    7 * (|c.outcomes| - s.fetched) + (if s.fetcherDone then 0 else 1)
    + 7 * (c.workers - s.stopsSent) + 6 * |s.fetchQ|
    + Sum(ProcessorWork, s.processors)
    + 3 * |s.writeQ| + |s.buffer| + (if s.writer.Flushing? then 1 else 0) + PhaseWork(s.phase)
  }

  lemma ProcessorWorks(c: Config, s: State, e: Event)
    requires Enabled(c, s, e) && (e.Take? || e.Process? || e.Deliver?)
    ensures Work(c, Step(c, s, e)) < Work(c, s)
  {
    SumUpdate(ProcessorWork, s.processors, e.w, Step(c, s, e).processors[e.w]);
  }

  lemma WriterTakeWorks(c: Config, s: State)
    requires Enabled(c, s, WriterTake)
    ensures Work(c, Step(c, s, WriterTake)) < Work(c, s)
  {
    if s.writeQ[0].Result? {
      assert s.buffer[s.writeQ[0].seqNo := s.writeQ[0].outcome].Keys == s.buffer.Keys + {s.writeQ[0].seqNo};
    }
  }

  lemma FlushWorks(c: Config, s: State)
    requires Enabled(c, s, Flush)
    ensures Work(c, Step(c, s, Flush)) < Work(c, s)
  {
    assert (s.buffer - {s.expected}).Keys == s.buffer.Keys - {s.expected};
  }

  lemma StepWorks(c: Config, s: State, e: Event)
    requires Tallied(c, s) && Enabled(c, s, e)
    ensures Work(c, Step(c, s, e)) < Work(c, s)
  {
    if e.Take? || e.Process? || e.Deliver? {
      ProcessorWorks(c, s, e);
    } else if e.WriterTake? {
      WriterTakeWorks(c, s);
    } else if e.Flush? {
      FlushWorks(c, s);
    }
  }

  lemma WorkLeft(c: Config, s: State)
    requires Located(c, s) && Tallied(c, s)
    ensures Work(c, s) >= 0
  {
  }

  lemma WriterMoves(c: Config, s: State)
    requires !s.writer.Closed? && (s.writer.Flushing? || s.writeQ != [])
    ensures exists e :: Enabled(c, s, e)
  {
    if s.writer.Waiting? {
      assert Enabled(c, s, WriterTake);
    } else if s.expected in s.buffer {
      assert Enabled(c, s, Flush);
    } else {
      assert Enabled(c, s, FlushEnd);
    }
  }

  lemma ProcessorMoves(c: Config, s: State, w: nat)
    requires Inv(c, s) && Rank(s.phase) < 6
    requires w < |s.processors| && !s.processors[w].Exited?
    requires s.processors[w].Idle? ==> s.fetchQ != []
    ensures exists e :: Enabled(c, s, e)
  {
    match s.processors[w]
    case Idle => assert Enabled(c, s, Take(w));
    case Busy(_) => assert Enabled(c, s, Process(w));
    case Holding(i) =>
      SumAtLeast(ProcessorHas(i), s.processors, w);
      assert Places(s, i) >= 1;
      if Room(s.writeQ, c.writeBound) {
        assert Enabled(c, s, Deliver(w));
      } else {
        WriterMoves(c, s);
      }
  }

  /** What a run needs in order to return: a processor, or nothing to process. */
  predicate Staffed(c: Config) {
    c.workers >= 1 || c.outcomes == []
  }

  lemma FetchStageMoves(c: Config, s: State)
    requires Inv(c, s) && Staffed(c) && Rank(s.phase) < 2
    ensures exists e :: Enabled(c, s, e)
  {
    if s.fetchQ != [] {
      JobsAndStops(s.fetchQ);
      assert s.fetchQ[0].Job?;
      assert Places(s, s.fetchQ[0].seqNo) >= 1;
      SumAtLeast(IsExited, s.processors, 0);
      ProcessorMoves(c, s, 0);
    } else if Sum(IsWorking, s.processors) > 0 {
      var w := SumPositive(IsWorking, s.processors);
      SumAtLeast(IsExited, s.processors, w);
      ProcessorMoves(c, s, w);
    } else if s.phase.JoinFetch? || s.fetcherDone {
      assert Enabled(c, s, Advance);
    } else if s.fetched == |c.outcomes| {
      assert Enabled(c, s, FetchEnd);
    } else {
      assert Enabled(c, s, FetchPut);
    }
  }

  lemma StopStageMoves(c: Config, s: State)
    requires Inv(c, s) && 2 <= Rank(s.phase) < 4
    ensures exists e :: Enabled(c, s, e)
  {
    SumOfOnes(s.processors);
    JobsAndStops(s.fetchQ);
    if s.fetchQ != [] {
      var w :| 0 <= w < |s.processors| && !s.processors[w].Exited?;
      ProcessorMoves(c, s, w);
    } else {
      assert Enabled(c, s, Advance);
    }
  }

  /** No deadlock: a reachable state that has not finished can move. */
  lemma AlwaysMoves(c: Config, s: State)
    requires Inv(c, s) && Staffed(c) && !s.phase.Finished?
    ensures exists e :: Enabled(c, s, e)
  {
    if Rank(s.phase) < 2 {
      FetchStageMoves(c, s);
    } else if Rank(s.phase) < 4 {
      StopStageMoves(c, s);
    } else if s.phase.JoinWrite? && s.writeUnfinished != 0 {
      WriterMoves(c, s);
    } else if s.phase.AwaitWriter? && !s.writer.Closed? {
      WriterMoves(c, s);
    } else {
      assert Enabled(c, s, Advance);
    }
  }

  lemma {:induction false} RunsAreShort(c: Config, s: State, events: seq<Event>)
    requires Inv(c, s) && IsRun(c, s, events)
    ensures |events| <= Work(c, s)
    decreases |events|
  {
    WorkLeft(c, s);
    if events != [] {
      StepInv(c, s, events[0]);
      StepWorks(c, s, events[0]);
      RunsAreShort(c, Step(c, s, events[0]), events[1..]);
    }
  }

  /** Total correctness for every schedule: a run has at most 7 steps per message, 7 per processor and
      12 more, and one that cannot be continued has returned. */
  lemma EveryRunFinishes(c: Config, events: seq<Event>)
    requires Staffed(c) && IsRun(c, Init(c), events)
    ensures |events| <= 7 * |c.outcomes| + 7 * c.workers + 12
    ensures (forall e :: !Enabled(c, Run(c, Init(c), events), e)) ==> Run(c, Init(c), events).phase.Finished?
  {
    InitInv(c);
    SumZero(ProcessorWork, Init(c).processors);
    RunsAreShort(c, Init(c), events);
    RunInv(c, Init(c), events);
    var s := Run(c, Init(c), events);
    if !s.phase.Finished? {
      AlwaysMoves(c, s);
    }
  }

  /** Conversely, a pipeline without a processor never returns once there is a message. */
  lemma NoProcessorNeverFinishes(c: Config, events: seq<Event>)
    requires !Staffed(c) && IsRun(c, Init(c), events)
    ensures !Run(c, Init(c), events).phase.Finished?
  {
    InitInv(c);
    RunInv(c, Init(c), events);
    var s := Run(c, Init(c), events);
    if s.phase.Finished? {
      NothingWritten(c, Init(c), events);
      FinalState(c, s);
      assert false;
    }
  }

  lemma {:induction false} NothingWritten(c: Config, s: State, events: seq<Event>)
    requires IsRun(c, s, events) && s.processors == [] && s.expected == 1 && s.buffer == map[]
    requires forall k :: 0 <= k < |s.writeQ| ==> s.writeQ[k].WriterStop?
    ensures Run(c, s, events).expected == 1
    decreases |events|
  {
    if events != [] {
      NothingWritten(c, Step(c, s, events[0]), events[1..]);
    }
  }

  // ----- The pipeline object

  class AsyncPipeline {
    const config: Config
    var fetched: nat
    var fetcherDone: bool
    var lastSeq: nat
    var fetchQ: seq<Job>
    var fetchUnfinished: int
    var processors: seq<Processor>
    var writeQ: seq<Result>
    var writeUnfinished: int
    var writer: Writer
    var buffer: map<nat, Outcome>
    var expected: nat
    var calls: seq<Payload>
    var processedCount: nat
    var errors: nat
    var stopsSent: nat
    var phase: Phase

    function View(): State
      reads this
    {
      State(fetched, fetcherDone, lastSeq, fetchQ, fetchUnfinished, processors, writeQ, writeUnfinished, writer,
            buffer, expected, calls, processedCount, errors, stopsSent, phase)
    }

    constructor (c: Config)
      ensures config == c && View() == Init(c)
    {
      config := c;
      fetched, fetcherDone, lastSeq, fetchQ, fetchUnfinished := 0, false, 0, [], 0;
      processors := seq(c.workers, (_: nat) => Idle);
      writeQ, writeUnfinished, writer, buffer, expected := [], 0, Waiting, map[], 1;
      calls, processedCount, errors, stopsSent, phase := [], 0, 0, 0, AwaitFetch;
    }

    method PutMessage()
      requires Enabled(config, View(), FetchPut)
      modifies this
      ensures View() == Step(config, old(View()), FetchPut)
    {
      fetched := fetched + 1;
      fetchQ := fetchQ + [Job(fetched)];
      fetchUnfinished := fetchUnfinished + 1;
    }

    method EndFetch()
      requires Enabled(config, View(), FetchEnd)
      modifies this
      ensures View() == Step(config, old(View()), FetchEnd)
    {
      lastSeq := fetched;
      fetcherDone := true;
    }

    method GetJob(w: nat)
      requires Enabled(config, View(), Take(w))
      modifies this
      ensures View() == Step(config, old(View()), Take(w))
    {
      var job := fetchQ[0];
      fetchQ := fetchQ[1..];
      if job.Stop? {
        fetchUnfinished := fetchUnfinished - 1;
        processors := processors[w := Exited];
      } else {
        processors := processors[w := Busy(job.seqNo)];
      }
    }

    method EndProcess(w: nat)
      requires Enabled(config, View(), Process(w))
      modifies this
      ensures View() == Step(config, old(View()), Process(w))
    {
      processors := processors[w := Holding(processors[w].seqNo)];
    }

    method PutResult(w: nat)
      requires Enabled(config, View(), Deliver(w))
      modifies this
      ensures View() == Step(config, old(View()), Deliver(w))
    {
      var i := processors[w].seqNo;
      writeQ := writeQ + [Result(i, config.outcomes[i - 1])];
      writeUnfinished := writeUnfinished + 1;
      if config.outcomes[i - 1].Failure? {
        errors := errors + 1;
      }
      fetchUnfinished := fetchUnfinished - 1;
      processors := processors[w := Idle];
    }

    method GetResult()
      requires Enabled(config, View(), Event.WriterTake)
      modifies this
      ensures View() == Step(config, old(View()), Event.WriterTake)
    {
      var item := writeQ[0];
      writeQ := writeQ[1..];
      if item.WriterStop? {
        writeUnfinished := writeUnfinished - 1;
        writer := Closed;
      } else {
        buffer := buffer[item.seqNo := item.outcome];
        writer := Flushing;
      }
    }

    method FlushNext()
      requires Enabled(config, View(), Flush)
      modifies this
      ensures View() == Step(config, old(View()), Flush)
    {
      var outcome := buffer[expected];
      buffer := buffer - {expected};
      if outcome.Value? {
        calls := calls + [outcome.payload];
        if expected !in config.writerFails {
          processedCount := processedCount + 1;
        }
      }
      expected := expected + 1;
    }

    method EndFlush()
      requires Enabled(config, View(), FlushEnd)
      modifies this
      ensures View() == Step(config, old(View()), FlushEnd)
    {
      writeUnfinished := writeUnfinished - 1;
      writer := Waiting;
    }

    method Orchestrate()
      requires Enabled(config, View(), Advance)
      modifies this
      ensures View() == Step(config, old(View()), Advance)
    {
      match phase
      case AwaitFetch => phase := JoinFetch;
      case JoinFetch => phase := SendStops;
      case SendStops =>
        if stopsSent == config.workers {
          phase := Gather;
        } else {
          fetchQ := fetchQ + [Stop];
          fetchUnfinished := fetchUnfinished + 1;
          stopsSent := stopsSent + 1;
        }
      case Gather => phase := JoinWrite;
      case JoinWrite => phase := SendWriterStop;
      case SendWriterStop =>
        writeQ := writeQ + [WriterStop];
        writeUnfinished := writeUnfinished + 1;
        phase := AwaitWriter;
      case AwaitWriter => phase := Finished;
    }
  }
}
