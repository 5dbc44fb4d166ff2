/** The prefetching batch processor of src/export/prefetch_processor.py: a producer that groups messages
    into batches, a bounded queue closed by a None sentinel, a consumer, and `stop`.  One event is the
    code between two awaits; the schedule is arbitrary. */
module Prefetch {

  /** `skip` is the verdict of the skip condition. */
  datatype Message = Message(id: int, skip: bool)

  datatype Item = Batch(messages: seq<Message>) | Sentinel

  /** `Created` is a task that has not run yet, `Closing` the put of the sentinel, whatever led to it. */
  datatype Producer = Created | Reading | Putting | PuttingLast | Closing | Ended

  /** How far the first call of `stop` has come; a later call returns at once. */
  datatype Stop = NotCalled | Awaiting | Raised | Returned

  datatype Config = Config(input: seq<Message>, batchSize: int, bound: int)

  /** `parked` says that the producer found the queue full at its present put and sleeps there.  It
      stays set between the moment the consumer makes room and the moment the producer runs again. */
  datatype State = State(
    position: nat,
    current: seq<Message>,
    producer: Producer,
    parked: bool,
    failed: bool,
    cancelled: bool,
    stop: Stop,
    queue: seq<Item>,
    delivered: seq<seq<Message>>,
    gotNone: bool,
    dropped: seq<Item>)

  /** `Raise` is an exception of the message iterator; `Cancel` is `stop` reaching a producer that is
      not done, and `Drain` the rest of `stop`, which comes at once if the producer is done. */
  datatype Event =
    | Begin | Read | PutBatch | EndInput | PutLast | PutSentinel
    | Raise | Receive | Cancel | Drain

  function Init(): State {
    State(0, [], Created, false, false, false, NotCalled, [], [], false, [])
  }

  predicate Room(c: Config, s: State) {
    c.bound <= 0 || |s.queue| < c.bound
  }

  predicate Enabled(c: Config, s: State, e: Event) {
    match e
    case Begin => s.producer.Created?
    case Read => s.producer.Reading? && s.position < |c.input|
    case PutBatch => s.producer.Putting? && Room(c, s)
    case EndInput => s.producer.Reading? && s.position == |c.input|
    case PutLast => s.producer.PuttingLast? && Room(c, s)
    case PutSentinel => s.producer.Closing? && Room(c, s)
    case Raise => s.producer.Reading?
    case Receive => s.queue != []
    case Cancel => s.stop.NotCalled? && Suspended(s)
    case Drain => s.producer.Ended? && (s.stop.NotCalled? || s.stop.Awaiting?)
  }

  /** The producer sleeps at an await.  A put that finds room is none: it runs on. */
  predicate Suspended(s: State) {
    s.producer.Created? || s.producer.Reading? || (s.parked && !s.producer.Ended?)
  }

  /** The handler of an iterator error is at work. */
  predicate HandlingError(s: State) {
    s.producer.Closing? && s.failed
  }

  /** The producer reaches its next put. */
  function AtPut(c: Config, s: State, put: Producer): State {
    s.(producer := put, parked := !Room(c, s))
  }

  function Append(c: Config, s: State): State
    requires s.position < |c.input|
  {
    var m := c.input[s.position];
    var n := s.(position := s.position + 1);
    if m.skip then n
    else
      var longer := n.(current := s.current + [m]);
      if |longer.current| >= c.batchSize then AtPut(c, longer, Putting) else longer
  }

  function Step(c: Config, s: State, e: Event): State
    requires Enabled(c, s, e)
  {
    match e
    case Begin => s.(producer := Reading)
    case Read => Append(c, s)
    case PutBatch => s.(queue := s.queue + [Batch(s.current)], current := [], producer := Reading, parked := false)
    case EndInput => AtPut(c, s, if s.current != [] then PuttingLast else Closing)
    case PutLast => AtPut(c, s.(queue := s.queue + [Batch(s.current)], current := []), Closing)
    case PutSentinel => s.(queue := s.queue + [Sentinel], producer := Ended)
    case Raise => AtPut(c, s.(failed := true), Closing)
    case Receive =>
      if s.queue[0].Batch? then s.(queue := s.queue[1..], delivered := s.delivered + [s.queue[0].messages])
      else s.(queue := s.queue[1..], gotNone := true)
    case Cancel => Cancelled(c, s.(cancelled := true, stop := Awaiting))
    case Drain => s.(dropped := s.dropped + s.queue, queue := [], stop := Returned)
  }

  /** What a cancellation does.  A task that never ran just ends.  The handler of an iterator error
      swallows the cancellation and raises that error again, which `stop` does not catch.  Everywhere
      else the producer goes on to put its sentinel. */
  function Cancelled(c: Config, s: State): State {
    if s.producer.Created? then s.(producer := Ended)
    else if HandlingError(s) then s.(producer := Ended, stop := Raised)
    else AtPut(c, s, Closing)
  }

  ghost predicate IsRun(c: Config, s: State, events: seq<Event>)
    decreases |events|
  {
    events == [] || (Enabled(c, s, events[0]) && IsRun(c, Step(c, s, events[0]), events[1..]))
  }

  function Run(c: Config, s: State, events: seq<Event>): State
    requires IsRun(c, s, events)
    decreases |events|
  {
    if events == [] then s else Run(c, Step(c, s, events[0]), events[1..])
  }

  // ----- The sequential meaning

  function Kept(ms: seq<Message>): seq<Message> {
    if ms == [] then []
    else Kept(ms[..|ms| - 1]) + (if ms[|ms| - 1].skip then [] else [ms[|ms| - 1]])
  }

  /** A batch size below one acts like one. */
  function Size(c: Config): (k: nat)
    ensures k >= 1
  {
    if c.batchSize < 1 then 1 else c.batchSize
  }

  function Batches(ms: seq<Message>, k: nat): seq<seq<Message>>
    requires k >= 1
  {
    if ms == [] then [] else if |ms| <= k then [ms] else [ms[..k]] + Batches(ms[k..], k)
  }

  function Flatten(bs: seq<seq<Message>>): seq<Message> {
    if bs == [] then [] else bs[0] + Flatten(bs[1..])
  }

  function BatchesIn(q: seq<Item>): seq<seq<Message>> {
    if q == [] then []
    else (if q[0].Batch? then [q[0].messages] else []) + BatchesIn(q[1..])
  }

  lemma {:induction false} FlattenConcat(a: seq<seq<Message>>, b: seq<seq<Message>>)
    ensures Flatten(a + b) == Flatten(a) + Flatten(b)
  {
    if a == [] {
      assert a + b == b;
    } else {
      assert (a + b)[1..] == a[1..] + b;
      FlattenConcat(a[1..], b);
    }
  }

  lemma {:induction false} BatchesInConcat(a: seq<Item>, b: seq<Item>)
    ensures BatchesIn(a + b) == BatchesIn(a) + BatchesIn(b)
  {
    if a == [] {
      assert a + b == b;
    } else {
      assert (a + b)[1..] == a[1..] + b;
      BatchesInConcat(a[1..], b);
    }
  }

  lemma {:induction false} KeptPrefix(ms: seq<Message>, n: nat)
    requires n <= |ms|
    ensures Kept(ms[..n]) <= Kept(ms)
  {
    if n < |ms| {
      KeptPrefix(ms[..|ms| - 1], n);
      assert ms[..|ms| - 1][..n] == ms[..n];
    } else {
      assert ms[..n] == ms;
    }
  }

  lemma KeptNext(ms: seq<Message>, i: nat)
    requires i < |ms|
    ensures Kept(ms[..i + 1]) == Kept(ms[..i]) + (if ms[i].skip then [] else [ms[i]])
  {
    var seen := ms[..i + 1];
    assert seen[..|seen| - 1] == ms[..i];
  }

  // ----- What every run keeps

  /** All batches ever put: taken by the consumer, still queued, or dropped by `stop`. */
  function Produced(s: State): seq<seq<Message>> {
    s.delivered + BatchesIn(s.queue) + BatchesIn(s.dropped)
  }

  /** Nothing is lost, duplicated or reordered up to the producer's position. */
  ghost predicate Faithful(c: Config, s: State) {
    && s.position <= |c.input|
    && Flatten(Produced(s)) + s.current == Kept(c.input[..s.position])
  }

  ghost predicate Finishing(s: State) {
    s.producer.Closing? || s.producer.Ended?
  }

  /** Batches are full, except that the last one may be shorter if `last` allows it; none is empty. */
  ghost predicate Full(batches: seq<seq<Message>>, k: nat, last: bool) {
    && (forall i :: 0 <= i < |batches| ==> 1 <= |batches[i]| <= k)
    && (forall i :: 0 <= i < |batches| && (i < |batches| - 1 || !last) ==> |batches[i]| == k)
  }

  ghost predicate CurrentFits(c: Config, s: State) {
    && (s.producer.Created? || s.producer.Reading? ==> |s.current| < Size(c))
    && (s.producer.Putting? ==> |s.current| == Size(c))
    && (s.producer.PuttingLast? ==> 1 <= |s.current| < Size(c))
  }

  ghost predicate Sized(c: Config, s: State) {
    Full(Produced(s), Size(c), Finishing(s)) && CurrentFits(c, s)
  }

  /** What each stage of the producer says about the queue and its end. */
  ghost predicate Closed(c: Config, s: State) {
    && (s.producer.Created? ==> s.queue == [] && s.current == [])
    && (forall k :: 0 <= k < |s.queue| && s.queue[k].Sentinel? ==> k == |s.queue| - 1 && s.producer.Ended?)
    && (s.gotNone ==> s.queue == [] && s.producer.Ended?)
    && (s.producer.PuttingLast? ==> s.position == |c.input|)
    && (Finishing(s) && !s.failed && !s.cancelled ==> s.position == |c.input| && s.current == [])
    && (s.failed || s.cancelled ==> Finishing(s))
  }

  /** What each outcome of `stop` says about the rest. */
  ghost predicate Stopping(c: Config, s: State) {
    && (s.producer.Putting? || s.producer.PuttingLast? || s.producer.Closing? ==> s.parked || Room(c, s))
    && (c.bound > 0 ==> |s.queue| <= c.bound)
    && (s.cancelled ==> !s.stop.NotCalled?)
    && (s.stop.Awaiting? ==> s.cancelled)
    && (s.stop.Raised? ==> s.producer.Ended? && s.failed && !s.gotNone && Sentinel !in s.queue)
    && (s.stop.Returned? ==> s.producer.Ended? && s.queue == [])
    && (s.dropped != [] ==> s.stop.Returned? && !s.gotNone)
  }

  ghost predicate Inv(c: Config, s: State) {
    Faithful(c, s) && Sized(c, s) && Closed(c, s) && Stopping(c, s)
  }

  lemma PutProduced(c: Config, s: State, item: Item)
    requires s.dropped == []
    ensures Produced(s.(queue := s.queue + [item])) == Produced(s) + (if item.Batch? then [item.messages] else [])
  {
    BatchesInConcat(s.queue, [item]);
    assert BatchesIn([item]) == if item.Batch? then [item.messages] else [];
  }

  lemma ReceiveProduced(c: Config, s: State)
    requires s.queue != []
    ensures Produced(Step(c, s, Receive)) == Produced(s)
  {
    if s.queue[0].Batch? {
      assert s.delivered + BatchesIn(s.queue) == (s.delivered + [s.queue[0].messages]) + BatchesIn(s.queue[1..]);
    }
  }

  lemma DrainProduced(c: Config, s: State)
    requires Stopping(c, s) && Enabled(c, s, Drain)
    ensures Produced(Step(c, s, Drain)) == Produced(s)
  {
    BatchesInConcat(s.dropped, s.queue);
  }

  lemma PutsProduce(c: Config, s: State, e: Event)
    requires s.dropped == [] && Enabled(c, s, e) && (e.PutBatch? || e.PutLast? || e.PutSentinel?)
    ensures Produced(Step(c, s, e)) == Produced(s) + (if e.PutSentinel? then [] else [s.current])
  {
    PutProduced(c, s, if e.PutSentinel? then Sentinel else Batch(s.current));
  }

  lemma OthersProduceNothing(c: Config, s: State, e: Event)
    requires Enabled(c, s, e) && (e.Begin? || e.Read? || e.EndInput? || e.Raise? || e.Cancel?)
    ensures Produced(Step(c, s, e)) == Produced(s)
  {
    var n := Step(c, s, e);
    assert n.delivered == s.delivered && n.queue == s.queue && n.dropped == s.dropped;
  }

  /** How an event changes the batches put so far. */
  lemma StepProduced(c: Config, s: State, e: Event)
    requires Stopping(c, s) && Enabled(c, s, e)
    ensures Produced(Step(c, s, e)) == Produced(s) + (if e.PutBatch? || e.PutLast? then [s.current] else [])
  {
    if e.PutBatch? || e.PutLast? || e.PutSentinel? {
      PutsProduce(c, s, e);
    } else if e.Receive? {
      ReceiveProduced(c, s);
    } else if e.Drain? {
      DrainProduced(c, s);
    } else {
      OthersProduceNothing(c, s, e);
    }
  }

  lemma KeptExtends(ms: seq<Message>, i: nat, batched: seq<Message>, current: seq<Message>)
    requires i < |ms| && batched + current == Kept(ms[..i])
    ensures batched + (current + (if ms[i].skip then [] else [ms[i]])) == Kept(ms[..i + 1])
  {
    KeptNext(ms, i);
    var more := if ms[i].skip then [] else [ms[i]];
    assert (batched + current) + more == batched + (current + more);
  }

  lemma ReadShape(c: Config, s: State)
    requires Enabled(c, s, Read)
    ensures var n := Step(c, s, Read);
            && n.position == s.position + 1
            && n.current == s.current + (if c.input[s.position].skip then [] else [c.input[s.position]])
            && n.delivered == s.delivered && n.queue == s.queue && n.dropped == s.dropped
  {
    assert s.current + [] == s.current;
  }

  lemma ReadFaithful(c: Config, s: State)
    requires Faithful(c, s) && Enabled(c, s, Read)
    ensures Faithful(c, Step(c, s, Read))
  {
    ReadShape(c, s);
    KeptExtends(c.input, s.position, Flatten(Produced(s)), s.current);
  }

  lemma PutFaithful(c: Config, s: State, e: Event)
    requires Faithful(c, s) && Stopping(c, s) && Enabled(c, s, e) && (e.PutBatch? || e.PutLast?)
    ensures Faithful(c, Step(c, s, e))
  {
    StepProduced(c, s, e);
    var done := Flatten(Produced(s));
    FlattenConcat(Produced(s), [s.current]);
    assert Flatten([s.current]) == s.current;
    assert done + s.current + [] == done + s.current;
  }

  lemma StepFaithful(c: Config, s: State, e: Event)
    requires Faithful(c, s) && Stopping(c, s) && Enabled(c, s, e)
    ensures Faithful(c, Step(c, s, e))
  {
    if e.Read? {
      ReadFaithful(c, s);
    } else if e.PutBatch? || e.PutLast? {
      PutFaithful(c, s, e);
    } else {
      StepProduced(c, s, e);
      assert Produced(s) + [] == Produced(s);
    }
  }

  lemma FullAppend(batches: seq<seq<Message>>, k: nat, batch: seq<Message>, last: bool)
    requires Full(batches, k, false) && 1 <= |batch| <= k && (last || |batch| == k)
    ensures Full(batches + [batch], k, last)
  {
  }

  lemma StepFits(c: Config, s: State, e: Event)
    requires CurrentFits(c, s) && Closed(c, s) && Enabled(c, s, e)
    ensures CurrentFits(c, Step(c, s, e))
    ensures Finishing(s) ==> Finishing(Step(c, s, e))
    ensures e.PutBatch? || e.PutLast? ==>
              !Finishing(s) && 1 <= |s.current| <= Size(c) && (e.PutLast? || |s.current| == Size(c))
    ensures e.PutLast? ==> Finishing(Step(c, s, e))
  {
  }

  lemma StepSized(c: Config, s: State, e: Event)
    requires Sized(c, s) && Closed(c, s) && Stopping(c, s) && Enabled(c, s, e)
    ensures Sized(c, Step(c, s, e))
  {
    var batches, last := Produced(s), Finishing(Step(c, s, e));
    StepProduced(c, s, e);
    StepFits(c, s, e);
    if e.PutBatch? || e.PutLast? {
      FullAppend(batches, Size(c), s.current, last);
    } else {
      assert batches + [] == batches;
      assert Full(batches, Size(c), last);
    }
  }

  lemma StepClosed(c: Config, s: State, e: Event)
    requires Closed(c, s) && Enabled(c, s, e)
    ensures Closed(c, Step(c, s, e))
  {
  }

  lemma StepStopping(c: Config, s: State, e: Event)
    requires Closed(c, s) && Stopping(c, s) && Enabled(c, s, e)
    ensures Stopping(c, Step(c, s, e))
  {
  }

  lemma {:induction false} RunInv(c: Config, s: State, events: seq<Event>)
    requires Inv(c, s) && IsRun(c, s, events)
    ensures Inv(c, Run(c, s, events))
    decreases |events|
  {
    if events != [] {
      StepFaithful(c, s, events[0]);
      StepSized(c, s, events[0]);
      StepClosed(c, s, events[0]);
      StepStopping(c, s, events[0]);
      RunInv(c, Step(c, s, events[0]), events[1..]);
    }
  }

  lemma InitInv(c: Config)
    ensures Inv(c, Init())
  {
    assert Produced(Init()) == [] && c.input[..0] == [];
    assert Faithful(c, Init());
  }

  // ----- The promises

  /** A list of full batches, the last one possibly shorter, is the batching of its messages. */
  lemma {:induction false} BatchingIsUnique(bs: seq<seq<Message>>, k: nat)
    requires k >= 1
    requires forall i :: 0 <= i < |bs| ==> 1 <= |bs[i]| <= k
    requires forall i :: 0 <= i < |bs| - 1 ==> |bs[i]| == k
    ensures bs == Batches(Flatten(bs), k)
  {
    if bs == [] {
    } else if |bs| == 1 {
      assert Flatten(bs) == bs[0];
    } else {
      BatchingIsUnique(bs[1..], k);
      var rest := Flatten(bs[1..]);
      assert rest == bs[1] + Flatten(bs[1..][1..]);
      assert Flatten(bs)[..k] == bs[0] && Flatten(bs)[k..] == rest;
    }
  }

  /** In every run, also one that fails or is stopped, what has been delivered is a prefix of the
      messages to keep, in batches that are full except for the very last. */
  lemma DeliveredIsPrefix(c: Config, events: seq<Event>)
    requires IsRun(c, Init(), events)
    ensures var s := Run(c, Init(), events);
            && Flatten(s.delivered) <= Kept(c.input)
            && (forall i :: 0 <= i < |s.delivered| ==> 1 <= |s.delivered[i]| <= Size(c))
            && (forall i :: 0 <= i < |s.delivered| - 1 ==> |s.delivered[i]| == Size(c))
  {
    InitInv(c);
    RunInv(c, Init(), events);
    var s := Run(c, Init(), events);
    PrefixOfProduced(c, s);
  }

  lemma PrefixOfProduced(c: Config, s: State)
    requires Inv(c, s)
    ensures Flatten(s.delivered) <= Kept(c.input)
    ensures forall i :: 0 <= i < |s.delivered| ==> 1 <= |s.delivered[i]| <= Size(c)
    ensures forall i :: 0 <= i < |s.delivered| - 1 ==> |s.delivered[i]| == Size(c)
  {
    var produced := Produced(s);
    assert produced == s.delivered + (BatchesIn(s.queue) + BatchesIn(s.dropped));
    assert s.delivered <= produced;
    FlattenPrefix(s.delivered, produced);
    KeptPrefix(c.input, s.position);
    assert Flatten(produced) <= Kept(c.input[..s.position]);
    assert forall i :: 0 <= i < |s.delivered| ==> s.delivered[i] == produced[i];
  }

  lemma FlattenPrefix(part: seq<seq<Message>>, whole: seq<seq<Message>>)
    requires part <= whole
    ensures Flatten(part) <= Flatten(whole)
  {
    assert whole == part + whole[|part|..];
    FlattenConcat(part, whole[|part|..]);
  }

  /** When the consumer gets None from a producer that neither failed nor was stopped, it has received
      exactly the batching of all messages to keep. */
  lemma NoneMeansComplete(c: Config, events: seq<Event>)
    requires IsRun(c, Init(), events)
    requires var s := Run(c, Init(), events);
             s.gotNone && !s.failed && !s.cancelled
    ensures Run(c, Init(), events).delivered == Batches(Kept(c.input), Size(c))
  {
    InitInv(c);
    RunInv(c, Init(), events);
    var s := Run(c, Init(), events);
    assert Produced(s) == s.delivered;
    assert c.input[..s.position] == c.input;
    assert Flatten(s.delivered) + [] == Flatten(s.delivered);
    BatchingIsUnique(s.delivered, Size(c));
  }

  // ----- Progress

  function Stage(p: Producer): nat {
    match p
    case Created => 7
    case Reading => 6
    case Putting => 8
    case PuttingLast => 5
    case Closing => 2
    case Ended => 0
  }

  function StopWork(s: Stop): nat {
    match s
    case NotCalled => 3
    case Awaiting => 1
    case Raised => 0
    case Returned => 0
  }

  function Work(c: Config, s: State): int {
    4 * (|c.input| - s.position) + Stage(s.producer) + |s.queue| + StopWork(s.stop)
  }

  lemma ReadWorks(c: Config, s: State)
    requires Enabled(c, s, Read)
    ensures Work(c, Step(c, s, Read)) < Work(c, s)
  {
  }

  lemma StepWorks(c: Config, s: State, e: Event)
    requires Enabled(c, s, e)
    ensures Work(c, Step(c, s, e)) < Work(c, s)
  {
    if e.Read? {
      ReadWorks(c, s);
    } else if e.Receive? {
      assert |s.queue[1..]| == |s.queue| - 1;
    }
  }

  lemma {:induction false} RunsAreShort(c: Config, s: State, events: seq<Event>)
    requires s.position <= |c.input| && IsRun(c, s, events)
    ensures |events| <= Work(c, s)
    decreases |events|
  {
    if events != [] {
      StepWorks(c, s, events[0]);
      RunsAreShort(c, Step(c, s, events[0]), events[1..]);
    }
  }

  /** Every run ends: n messages, a failure and a `stop` included, take at most 4n + 10 events. */
  lemma EveryRunEnds(c: Config, events: seq<Event>)
    requires IsRun(c, Init(), events)
    ensures |events| <= 4 * |c.input| + 10
  {
    RunsAreShort(c, Init(), events);
  }

  lemma ProducerMoves(c: Config, s: State)
    requires Inv(c, s) && s.queue == [] && !s.producer.Ended?
    ensures exists e :: Enabled(c, s, e) && !e.Raise? && !e.Cancel? && !e.Drain?
  {
    match s.producer
    case Created => assert Enabled(c, s, Begin);
    case Reading =>
      if s.position < |c.input| {
        assert Enabled(c, s, Read);
      } else {
        assert Enabled(c, s, EndInput);
      }
    case Putting => assert Enabled(c, s, PutBatch);
    case PuttingLast => assert Enabled(c, s, PutLast);
    case Closing => assert Enabled(c, s, PutSentinel);
  }

  /** Until it has been given None, or `stop` is called, a consumer that keeps asking is never left
      waiting for ever. */
  lemma ConsumerIsServed(c: Config, events: seq<Event>)
    requires IsRun(c, Init(), events)
    requires var s := Run(c, Init(), events);
             !s.gotNone && s.stop.NotCalled?
    ensures exists e :: Enabled(c, Run(c, Init(), events), e) && !e.Raise? && !e.Cancel? && !e.Drain?
  {
    var s := Run(c, Init(), events);
    if s.queue != [] {
      assert Enabled(c, s, Receive);
    } else {
      InitInv(c);
      RunInv(c, Init(), events);
      SentinelPending(c, Init(), events);
      ProducerMoves(c, s);
    }
  }

  /** A producer that ended undisturbed by `stop` has left its sentinel. */
  ghost predicate SentinelLeft(s: State) {
    s.producer.Ended? && s.stop.NotCalled? ==> s.gotNone || Sentinel in s.queue
  }

  lemma StepSentinelLeft(c: Config, s: State, e: Event)
    requires Enabled(c, s, e) && SentinelLeft(s)
    ensures SentinelLeft(Step(c, s, e))
  {
    if e.PutSentinel? {
      var n := Step(c, s, e);
      assert n.queue[|n.queue| - 1] == Sentinel;
    } else if e.Receive? && Sentinel in s.queue {
      assert s.queue == [s.queue[0]] + s.queue[1..];
    }
  }

  lemma {:induction false} SentinelPending(c: Config, s: State, events: seq<Event>)
    requires IsRun(c, s, events) && SentinelLeft(s)
    ensures SentinelLeft(Run(c, s, events))
    decreases |events|
  {
    if events != [] {
      StepSentinelLeft(c, s, events[0]);
      SentinelPending(c, Step(c, s, events[0]), events[1..]);
    }
  }

  // ----- What becomes of `stop`

  ghost predicate NothingTaken(events: seq<Event>) {
    forall k :: 0 <= k < |events| ==> !events[k].Receive?
  }

  ghost predicate OnlyConsumerMoves(c: Config, s: State) {
    forall e :: Enabled(c, s, e) ==> e.Receive?
  }

  lemma CancelledHandler(c: Config, s: State, after: seq<Event>)
    requires Inv(c, s) && Enabled(c, s, Cancel) && HandlingError(s)
    requires IsRun(c, Step(c, s, Cancel), after) && NothingTaken(after)
    ensures after == [] && Step(c, s, Cancel).stop.Raised? && OnlyConsumerMoves(c, Step(c, s, Cancel))
  {
    if after != [] {
      assert false;
    }
  }

  lemma CancelledWithoutRoom(c: Config, s: State, after: seq<Event>)
    requires Inv(c, s) && Enabled(c, s, Cancel) && !HandlingError(s) && !Room(c, s)
    requires IsRun(c, Step(c, s, Cancel), after) && NothingTaken(after)
    ensures after == [] && Step(c, s, Cancel).stop.Awaiting? && OnlyConsumerMoves(c, Step(c, s, Cancel))
  {
    if after != [] {
      assert false;
    }
  }

  lemma EndedStopReturns(c: Config, s: State, after: seq<Event>)
    requires s.producer.Ended? && s.stop.Awaiting?
    requires IsRun(c, s, after) && NothingTaken(after)
    ensures |after| <= 1
    ensures if after == [] then !OnlyConsumerMoves(c, s) else Run(c, s, after).stop.Returned?
  {
    if after == [] {
      assert Enabled(c, s, Drain);
    } else if |after| > 1 {
      assert false;
    }
  }

  lemma CancelledWithRoom(c: Config, s: State, after: seq<Event>)
    requires Inv(c, s) && Enabled(c, s, Cancel) && !HandlingError(s) && Room(c, s)
    requires IsRun(c, Step(c, s, Cancel), after) && NothingTaken(after)
    ensures |after| <= 2
    ensures var n := Run(c, Step(c, s, Cancel), after);
            n.stop.Returned? || (n.stop.Awaiting? && !OnlyConsumerMoves(c, n))
  {
    var n := Step(c, s, Cancel);
    if n.producer.Ended? {
      EndedStopReturns(c, n, after);
    } else if after == [] {
      assert Enabled(c, n, PutSentinel);
    } else {
      assert forall k :: 0 <= k < |after| - 1 ==> after[1..][k] == after[k + 1];
      EndedStopReturns(c, Step(c, n, PutSentinel), after[1..]);
    }
  }

  /** `stop` called while the producer is not done, with nobody taking from the queue any more.  After
      two events at most only a consumer could still move, and then `stop` has returned exactly if the
      queue had a free slot at the cancellation and no iterator error was being handled; it has raised
      exactly if one was being handled; and otherwise it hangs. */
  lemma StopOutcomeIff(c: Config, before: seq<Event>, after: seq<Event>)
    requires IsRun(c, Init(), before)
    requires Enabled(c, Run(c, Init(), before), Cancel)
    requires IsRun(c, Step(c, Run(c, Init(), before), Cancel), after) && NothingTaken(after)
    ensures |after| <= 2
    ensures var s := Run(c, Init(), before);
            var n := Run(c, Step(c, s, Cancel), after);
            OnlyConsumerMoves(c, n) ==>
              && (n.stop.Returned? <==> Room(c, s) && !HandlingError(s))
              && (n.stop.Raised? <==> HandlingError(s))
              && (n.stop.Awaiting? <==> !Room(c, s) && !HandlingError(s))
    ensures var s := Run(c, Init(), before);
            var n := Run(c, Step(c, s, Cancel), after);
            (HandlingError(s) ==> n.stop.Raised?) && (!Room(c, s) && !HandlingError(s) ==> n.stop.Awaiting?)
  {
    InitInv(c);
    RunInv(c, Init(), before);
    var s := Run(c, Init(), before);
    if HandlingError(s) {
      CancelledHandler(c, s, after);
    } else if Room(c, s) {
      CancelledWithRoom(c, s, after);
    } else {
      CancelledWithoutRoom(c, s, after);
    }
  }

  lemma {:induction false} RunExtends(c: Config, s: State, events: seq<Event>, e: Event)
    requires IsRun(c, s, events) && Enabled(c, Run(c, s, events), e)
    ensures IsRun(c, s, events + [e]) && Run(c, s, events + [e]) == Step(c, Run(c, s, events), e)
    decreases |events|
  {
    if events != [] {
      assert (events + [e])[1..] == events[1..] + [e];
      RunExtends(c, Step(c, s, events[0]), events[1..], e);
    }
  }

  /** A free slot does not keep `stop` from raising: in whatever run the handler of an iterator error came
      to wait for a full queue, a consumer that takes one batch and calls `stop` before the handler runs
      again still meets it in its put. */
  lemma RaisesDespiteRoom(c: Config, before: seq<Event>)
    requires c.bound >= 1 && IsRun(c, Init(), before)
    requires var s := Run(c, Init(), before);
             HandlingError(s) && !Room(c, s) && s.stop.NotCalled?
    ensures IsRun(c, Init(), before + [Receive])
    ensures var n := Run(c, Init(), before + [Receive]);
            Room(c, n) && Enabled(c, n, Cancel) && Step(c, n, Cancel).stop.Raised?
  {
    InitInv(c);
    RunInv(c, Init(), before);
    RunExtends(c, Init(), before, Receive);
  }

  lemma {:induction false} KeptGrows(ms: seq<Message>, i: nat, j: nat)
    requires i <= j <= |ms|
    ensures |Kept(ms[..i])| <= |Kept(ms[..j])|
  {
    if i < j {
      KeptGrows(ms, i, j - 1);
      KeptNext(ms, j - 1);
    }
  }

  /** The producer has read `p` messages with nobody taking: full batches are queued. */
  ghost predicate Filled(c: Config, s: State, p: nat) {
    && p <= |c.input| && s.position == p
    && s.producer.Reading? && s.stop.NotCalled? && |s.current| < Size(c)
    && |s.queue| * Size(c) + |s.current| == |Kept(c.input[..p])|
  }

  lemma TimesMonotone(a: nat, b: nat, k: nat)
    requires a <= b
    ensures a * k <= b * k
  {
  }

  lemma TimesNext(a: nat, k: nat)
    ensures (a + 1) * k == a * k + k
  {
  }

  lemma SlotLeft(queued: nat, k: nat, bound: nat)
    requires k >= 1 && queued * k + k <= bound * k
    ensures queued < bound
  {
    if queued >= bound {
      TimesMonotone(bound, queued, k);
    }
  }

  lemma FillNext(c: Config, events: seq<Event>, p: nat) returns (longer: seq<Event>)
    requires c.bound >= 1 && p < |c.input| && |Kept(c.input[..p + 1])| <= c.bound * Size(c)
    requires IsRun(c, Init(), events) && Filled(c, Run(c, Init(), events), p)
    ensures IsRun(c, Init(), longer) && Filled(c, Run(c, Init(), longer), p + 1)
  {
    var s := Run(c, Init(), events);
    KeptNext(c.input, p);
    RunExtends(c, Init(), events, Read);
    longer := events + [Read];
    var n := Run(c, Init(), longer);
    if n.producer.Putting? {
      SlotLeft(|s.queue|, Size(c), c.bound);
      assert (|s.queue| + 1) * Size(c) == |s.queue| * Size(c) + Size(c);
      RunExtends(c, Init(), longer, PutBatch);
      longer := longer + [PutBatch];
    }
  }

  lemma {:induction false} FillQueue(c: Config, p: nat) returns (events: seq<Event>)
    requires c.bound >= 1 && p <= |c.input| && |Kept(c.input[..p])| <= c.bound * Size(c)
    ensures IsRun(c, Init(), events) && Filled(c, Run(c, Init(), events), p)
  {
    if p == 0 {
      RunExtends(c, Init(), [], Begin);
      events := [] + [Begin];
      assert c.input[..0] == [];
    } else {
      KeptGrows(c.input, p - 1, p);
      var fewer := FillQueue(c, p - 1);
      events := FillNext(c, fewer, p - 1);
    }
  }

  /** Some prefix of the input keeps exactly `n` messages. */
  lemma {:induction false} PrefixKeeping(ms: seq<Message>, n: nat) returns (p: nat)
    requires n <= |Kept(ms)|
    ensures p <= |ms| && |Kept(ms[..p])| == n
  {
    if n == |Kept(ms)| {
      p := |ms|;
      assert ms[..p] == ms;
    } else {
      p := PrefixKeeping(ms[..|ms| - 1], n);
      assert ms[..|ms| - 1][..p] == ms[..p];
    }
  }

  /** A producer that met an iterator error has put full batches only. */
  ghost predicate FailedFull(c: Config, s: State) {
    s.failed ==> Full(Produced(s), Size(c), false)
  }

  lemma StepFailedFull(c: Config, s: State, e: Event)
    requires Inv(c, s) && FailedFull(c, s) && Enabled(c, s, e)
    ensures FailedFull(c, Step(c, s, e))
  {
    StepProduced(c, s, e);
    assert Produced(s) + [] == Produced(s);
  }

  lemma {:induction false} RunFailedFull(c: Config, s: State, events: seq<Event>)
    requires Inv(c, s) && FailedFull(c, s) && IsRun(c, s, events)
    ensures FailedFull(c, Run(c, s, events))
    decreases |events|
  {
    if events != [] {
      StepFailedFull(c, s, events[0]);
      RunInv(c, s, [events[0]]);
      assert Run(c, s, [events[0]]) == Step(c, s, events[0]);
      RunFailedFull(c, Step(c, s, events[0]), events[1..]);
    }
  }

  lemma {:induction false} FullFlatten(batches: seq<seq<Message>>, k: nat)
    requires Full(batches, k, false)
    ensures |Flatten(batches)| == |batches| * k
  {
    if batches != [] {
      assert Full(batches[1..], k, false);
      FullFlatten(batches[1..], k);
      assert |batches| * k == (|batches| - 1) * k + k;
    }
  }

  lemma {:induction false} AllBatches(q: seq<Item>)
    requires forall i :: 0 <= i < |q| ==> q[i].Batch?
    ensures |BatchesIn(q)| == |q|
  {
    if q != [] {
      AllBatches(q[1..]);
    }
  }

  lemma HandlerQueue(c: Config, s: State)
    requires Inv(c, s) && HandlingError(s)
    ensures |s.queue| <= |Produced(s)|
  {
    AllBatches(s.queue);
  }

  lemma ProducedWereKept(c: Config, s: State)
    requires Faithful(c, s)
    ensures |Flatten(Produced(s))| <= |Kept(c.input)|
  {
    KeptPrefix(c.input, s.position);
    assert |Flatten(Produced(s)) + s.current| == |Kept(c.input[..s.position])|;
  }

  lemma WaitingNeedsFullQueue(c: Config, events: seq<Event>)
    requires c.bound >= 1 && IsRun(c, Init(), events)
    requires HandlingError(Run(c, Init(), events)) && !Room(c, Run(c, Init(), events))
    ensures c.bound * Size(c) <= |Kept(c.input)|
  {
    var s := Run(c, Init(), events);
    InitInv(c);
    RunInv(c, Init(), events);
    RunFailedFull(c, Init(), events);
    HandlerQueue(c, s);
    FullFlatten(Produced(s), Size(c));
    ProducedWereKept(c, s);
    TimesMonotone(c.bound, |Produced(s)|, Size(c));
  }

  /** With a bounded queue, some run leads the handler of an iterator error to a full queue if and only if
      the messages to keep fill that queue. */
  lemma HandlerWaitsIff(c: Config)
    requires c.bound >= 1
    ensures (exists events :: IsRun(c, Init(), events) && HandlingError(Run(c, Init(), events))
                              && !Room(c, Run(c, Init(), events)) && Run(c, Init(), events).stop.NotCalled?)
       <==> c.bound * Size(c) <= |Kept(c.input)|
  {
    if c.bound * Size(c) <= |Kept(c.input)| {
      var p := PrefixKeeping(c.input, c.bound * Size(c));
      var events := FillQueue(c, p);
      var s := Run(c, Init(), events);
      FilledToTheBrim(|s.queue|, |s.current|, Size(c), c.bound);
      RunExtends(c, Init(), events, Raise);
      assert IsRun(c, Init(), events + [Raise]);
    }
    forall events | IsRun(c, Init(), events) && HandlingError(Run(c, Init(), events))
                    && !Room(c, Run(c, Init(), events))
      ensures c.bound * Size(c) <= |Kept(c.input)|
    {
      WaitingNeedsFullQueue(c, events);
    }
  }

  lemma FilledToTheBrim(queued: nat, current: nat, k: nat, bound: nat)
    requires current < k && queued * k + current == bound * k
    ensures queued == bound
  {
    if queued < bound {
      TimesNext(queued, k);
      TimesMonotone(queued + 1, bound, k);
    } else if queued > bound {
      TimesNext(bound, k);
      TimesMonotone(bound + 1, queued, k);
    }
  }

  ghost predicate NeverStarted(s: State) {
    s.producer.Ended? && s.cancelled && s.position == 0 && s.queue == [] && s.delivered == [] && !s.gotNone
    && !s.stop.NotCalled? && !s.stop.Raised?
  }

  lemma {:induction false} NeverStartedForGood(c: Config, s: State, events: seq<Event>)
    requires NeverStarted(s) && IsRun(c, s, events)
    ensures NeverStarted(Run(c, s, events))
    decreases |events|
  {
    if events != [] {
      NeverStartedForGood(c, Step(c, s, events[0]), events[1..]);
    }
  }

  /** A `stop` before the producer task has run for the first time ends it without a trace: whatever
      follows, nothing is read, no batch and no sentinel is ever queued, and the consumer gets nothing. */
  lemma StopBeforeStart(c: Config, events: seq<Event>)
    requires IsRun(c, Step(c, Init(), Cancel), events)
    ensures var s := Run(c, Step(c, Init(), Cancel), events);
            s.position == 0 && s.queue == [] && s.delivered == [] && !s.gotNone && !s.stop.Raised?
  {
    NeverStartedForGood(c, Step(c, Init(), Cancel), events);
  }

  /** A consumer that goes on taking frees a hanging `stop`: in every run, while `stop` awaits the
      producer, it or the consumer or the drain can move, so the run can only end with `stop` over. */
  lemma ConsumerFreesStop(c: Config, events: seq<Event>)
    requires IsRun(c, Init(), events)
    requires Run(c, Init(), events).stop.Awaiting?
    ensures exists e :: Enabled(c, Run(c, Init(), events), e)
  {
    InitInv(c);
    RunInv(c, Init(), events);
    var s := Run(c, Init(), events);
    if s.producer.Ended? {
      assert Enabled(c, s, Drain);
    } else if Room(c, s) {
      assert Enabled(c, s, PutSentinel);
    } else {
      assert Enabled(c, s, Receive);
    }
  }

  /** However `stop` ends, a consumer that has not been given None by then never is.  After it has
      returned nothing can move any more, so whoever asks again waits for ever; after it has raised the
      queue is never drained and never closed, and only what is left in it can still be taken. */
  lemma StopStarvesConsumer(c: Config, events: seq<Event>)
    requires IsRun(c, Init(), events)
    ensures var s := Run(c, Init(), events);
            && (s.stop.Returned? ==> forall e :: !Enabled(c, s, e))
            && (s.stop.Raised? ==> !s.gotNone && Sentinel !in s.queue && s.dropped == [] && OnlyConsumerMoves(c, s))
  {
    InitInv(c);
    RunInv(c, Init(), events);
  }

  // ----- The processor object

  class PrefetchBatchProcessor {
    const config: Config
    var position: nat
    var currentBatch: seq<Message>
    var producer: Producer
    var parked: bool
    var failed: bool
    var cancelled: bool
    var stop: Stop
    var queue: seq<Item>
    var delivered: seq<seq<Message>>
    var gotNone: bool
    var dropped: seq<Item>

    function View(): State
      reads this
    {
      State(position, currentBatch, producer, parked, failed, cancelled, stop, queue, delivered, gotNone, dropped)
    }

    constructor (c: Config)
      ensures config == c && View() == Init()
    {
      config := c;
      position, currentBatch, producer, parked, failed, cancelled := 0, [], Created, false, false, false;
      stop := NotCalled;
      queue, delivered, gotNone, dropped := [], [], false, [];
    }

    method Start()
      requires Enabled(config, View(), Begin)
      modifies this
      ensures View() == Step(config, old(View()), Begin)
    {
      producer := Reading;
    }

    /** The producer goes to its next put and sleeps there if the queue is full. */
    method GoToPut(put: Producer)
      modifies this`producer, this`parked
      ensures View() == AtPut(config, old(View()), put)
    {
      producer := put;
      parked := config.bound > 0 && |queue| >= config.bound;
    }

    /** The producer's loop up to its next await: the next message, or the end of the input. */
    method ReadOn()
      requires producer.Reading? && position <= |config.input|
      modifies this
      ensures View() == Step(config, old(View()), if old(position) < |config.input| then Read else EndInput)
    {
      if position == |config.input| {
        GoToPut(if currentBatch != [] then PuttingLast else Closing);
        return;
      }
      var message := config.input[position];
      position := position + 1;
      if message.skip {
        return;
      }
      currentBatch := currentBatch + [message];
      if |currentBatch| >= config.batchSize {
        GoToPut(Putting);
      }
    }

    method PutCurrent()
      requires (producer.Putting? || producer.PuttingLast?) && Room(config, View())
      modifies this
      ensures View() == Step(config, old(View()), if old(producer).Putting? then PutBatch else PutLast)
    {
      queue := queue + [Batch(currentBatch)];
      currentBatch := [];
      if producer.Putting? {
        producer := Reading;
        parked := false;
      } else {
        GoToPut(Closing);
      }
    }

    method PutNone()
      requires Enabled(config, View(), PutSentinel)
      modifies this
      ensures View() == Step(config, old(View()), PutSentinel)
    {
      queue := queue + [Sentinel];
      producer := Ended;
    }

    method IteratorRaises()
      requires Enabled(config, View(), Raise)
      modifies this
      ensures View() == Step(config, old(View()), Raise)
    {
      failed := true;
      GoToPut(Closing);
    }

    method GetNextBatch() returns (batch: Item)
      requires Enabled(config, View(), Receive)
      modifies this
      ensures View() == Step(config, old(View()), Receive) && batch == old(queue)[0]
    {
      batch := queue[0];
      queue := queue[1..];
      if batch.Sentinel? {
        gotNone := true;
      } else {
        delivered := delivered + [batch.messages];
      }
    }

    /** `stop` cancels a producer that is not done; what follows depends on where that producer slept. */
    method CancelProducer()
      requires Enabled(config, View(), Cancel)
      modifies this
      ensures View() == Step(config, old(View()), Cancel)
    {
      cancelled := true;
      stop := Awaiting;
      if producer.Created? {
        producer := Ended;
      } else if producer.Closing? && failed {
        producer := Ended;
        stop := Raised;
      } else {
        GoToPut(Closing);
      }
    }

    /** The rest of `stop`, once the producer is done. */
    method DrainQueue()
      requires Enabled(config, View(), Drain)
      modifies this
      ensures View() == Step(config, old(View()), Drain)
    {
      while queue != []
        invariant dropped + queue == old(dropped + queue)
        invariant View() == old(View()).(dropped := dropped, queue := queue)
        decreases |queue|
      {
        dropped := dropped + [queue[0]];
        queue := queue[1..];
      }
      assert dropped + [] == dropped;
      stop := Returned;
    }
  }
}
