/** The background media download queue of src/media/download_queue.py: enqueuers, one bounded queue,
    workers with retries and back-off, and the global pause after Telegram server errors, in runs
    without cancellation.  One event is the code between two awaits; the schedule is arbitrary. */
module DownloadQueue {
  import opened Counting

  const MAX_ATTEMPTS: nat := 3

  datatype Status = Pending | InProgress | Completed | Failed

  datatype Task = Task(status: Status, attempts: nat, serverErrors: nat)

  /** `Checking` is the top of the worker loop, `Waiting` the timed wait for a task, and `BackOff` the
      retry sleep together with the put that ends it. */
  datatype Worker = Checking | Waiting | Processing(task: nat) | BackOff(task: nat)

  datatype Config = Config(workers: nat, maxQueue: int, threshold: int)

  /** Tasks are numbered in the order of their `enqueue` calls. */
  datatype State = State(
    tasks: seq<Task>,
    enqueuing: set<nat>,
    queue: seq<nat>,
    workers: seq<Worker>,
    paused: bool,
    timers: nat,
    consecutive: int,
    totalQueued: nat,
    totalCompleted: nat,
    totalFailed: nat,
    telegramErrors: nat)

  datatype Attempt = Success | TimeOut | ServerError | OtherError

  datatype Event =
    | Enqueue
    | PutNew(t: nat)
    | Check(w: nat)
    | Poll(w: nat)
    | Get(w: nat)
    | End(w: nat, attempt: Attempt)
    | Requeue(w: nat)
    | Unpause

  function Init(c: Config): State {
    State([], {}, [], seq(c.workers, (_: nat) => Checking), false, 0, 0, 0, 0, 0, 0)
  }

  predicate Room(c: Config, s: State) {
    c.maxQueue <= 0 || |s.queue| < c.maxQueue
  }

  predicate Enabled(c: Config, s: State, e: Event) {
    match e
    case Enqueue => true
    case PutNew(t) => t in s.enqueuing && Room(c, s)
    case Check(w) => w < |s.workers| && s.workers[w].Checking? && !s.paused
    case Poll(w) => w < |s.workers| && s.workers[w].Waiting?
    case Get(w) => w < |s.workers| && s.workers[w].Waiting? && s.queue != [] && s.queue[0] < |s.tasks|
    case End(w, _) => w < |s.workers| && s.workers[w].Processing? && s.workers[w].task < |s.tasks|
    case Requeue(w) => w < |s.workers| && s.workers[w].BackOff? && Room(c, s)
    case Unpause => s.timers > 0
  }

  function Max(a: int, b: int): int { if a < b then b else a }

  /** The retry decision, with its three successive conditions. */
  predicate ShouldRetry(attempts: nat, server: bool, serverErrors: nat, consecutive: int, threshold: int) {
    && attempts < MAX_ATTEMPTS
    && !(server && serverErrors >= 1)
    && !(server && consecutive >= threshold * 2)
  }

  /** `_handle_telegram_error`: count, and pause once the threshold is reached. */
  function HandleServerError(c: Config, s: State): State {
    var n := s.(consecutive := s.consecutive + 1, telegramErrors := s.telegramErrors + 1);
    if n.consecutive >= c.threshold && !s.paused then n.(paused := true, timers := s.timers + 1) else n
  }

  function Settle(s: State, w: nat, task: Task): State
    requires w < |s.workers| && s.workers[w].Processing? && s.workers[w].task < |s.tasks|
  {
    s.(tasks := s.tasks[s.workers[w].task := task],
       workers := s.workers[w := if task.status.Pending? then BackOff(s.workers[w].task) else Checking])
  }

  /** A task whose attempt failed: back to pending, or failed for good. */
  function Decided(x: Task, server: bool, consecutive: int, threshold: int): Task {
    x.(status := if ShouldRetry(x.attempts, server, x.serverErrors, consecutive, threshold) then Pending else Failed)
  }

  function Refused(x: Task, server: bool, consecutive: int, threshold: int): nat {
    if ShouldRetry(x.attempts, server, x.serverErrors, consecutive, threshold) then 0 else 1
  }

  function EndStep(c: Config, s: State, w: nat, attempt: Attempt): State
    requires Enabled(c, s, End(w, attempt))
  {
    var task := s.tasks[s.workers[w].task];
    match attempt
    case Success =>
      Settle(s, w, task.(status := Completed)).(consecutive := 0, totalCompleted := s.totalCompleted + 1)
    case TimeOut =>
      Settle(s, w, task.(status := Failed)).(totalFailed := s.totalFailed + 1)
    case ServerError =>
      var n := HandleServerError(c, s);
      var hit := task.(serverErrors := task.serverErrors + 1);
      Settle(n, w, Decided(hit, true, n.consecutive, c.threshold))
        .(totalFailed := n.totalFailed + Refused(hit, true, n.consecutive, c.threshold))
    case OtherError =>
      Settle(s, w, Decided(task, false, s.consecutive, c.threshold))
        .(totalFailed := s.totalFailed + Refused(task, false, s.consecutive, c.threshold))
  }

  function Step(c: Config, s: State, e: Event): State
    requires Enabled(c, s, e)
  {
    match e
    case Enqueue =>
      s.(tasks := s.tasks + [Task(Pending, 0, 0)],
         enqueuing := s.enqueuing + {|s.tasks|},
         totalQueued := s.totalQueued + 1)
    case PutNew(t) => s.(enqueuing := s.enqueuing - {t}, queue := s.queue + [t])
    case Check(w) => s.(workers := s.workers[w := Waiting])
    case Poll(w) => s.(workers := s.workers[w := Checking])
    case Get(w) =>
      var t := s.queue[0];
      s.(queue := s.queue[1..], workers := s.workers[w := Processing(t)],
         tasks := s.tasks[t := s.tasks[t].(status := InProgress, attempts := s.tasks[t].attempts + 1)])
    case End(w, attempt) => EndStep(c, s, w, attempt)
    case Requeue(w) => s.(queue := s.queue + [s.workers[w].task], workers := s.workers[w := Checking])
    case Unpause => s.(timers := s.timers - 1, paused := false, consecutive := Max(0, s.consecutive - 2))
  }

  ghost predicate IsRun(c: Config, s: State, events: seq<Event>)
    decreases |events|
  {
    events == [] || (Enabled(c, s, events[0]) && IsRun(c, Step(c, s, events[0]), events[1..]))
  }

  function Run(c: Config, s: State, events: seq<Event>): State
    requires IsRun(c, s, events)
    decreases |events|
  {
    if events == [] then s else Run(c, Step(c, s, events[0]), events[1..])
  }

  // ----- Where a task is

  predicate Terminal(x: Task) { x.status.Completed? || x.status.Failed? }

  function QueuedAs(t: nat): nat -> nat { (x: nat) => if x == t then 1 else 0 }
  function HeldBy(t: nat): Worker -> nat {
    (x: Worker) => if x == Processing(t) || x == BackOff(t) then 1 else 0
  }

  function Places(s: State, t: nat): nat {
    (if t in s.enqueuing then 1 else 0) + Sum(QueuedAs(t), s.queue) + Sum(HeldBy(t), s.workers)
    + (if t < |s.tasks| && Terminal(s.tasks[t]) then 1 else 0)
  }

  /** Each task is in exactly one place: being enqueued, queued, with one worker, or terminal. */
  ghost predicate Placed(s: State) {
    forall t: nat :: Places(s, t) == if t < |s.tasks| then 1 else 0
  }

  predicate Fresh(x: Task) { x == Task(Pending, 0, 0) }
  predicate Retriable(x: Task) { x.status.Pending? && x.attempts < MAX_ATTEMPTS && x.serverErrors == 0 }
  predicate Attempted(x: Task) { x.status.InProgress? && 1 <= x.attempts <= MAX_ATTEMPTS && x.serverErrors == 0 }
  predicate Sound(x: Task) {
    x.attempts <= MAX_ATTEMPTS && x.serverErrors <= 1 && (x.serverErrors > 0 ==> x.status.Failed?)
  }

  /** A task's record agrees with its place. */
  ghost predicate Recorded(s: State) {
    && (forall t :: t in s.enqueuing ==> t < |s.tasks| && Fresh(s.tasks[t]))
    && (forall k :: 0 <= k < |s.queue| ==> s.queue[k] < |s.tasks| && Retriable(s.tasks[s.queue[k]]))
    && (forall w :: 0 <= w < |s.workers| && s.workers[w].Processing? ==>
          s.workers[w].task < |s.tasks| && Attempted(s.tasks[s.workers[w].task]))
    && (forall w :: 0 <= w < |s.workers| && s.workers[w].BackOff? ==>
          s.workers[w].task < |s.tasks| && Retriable(s.tasks[s.workers[w].task]))
    && (forall t :: 0 <= t < |s.tasks| ==> Sound(s.tasks[t]))
  }

  function IsCompleted(x: Task): nat { if x.status.Completed? then 1 else 0 }
  function IsFailed(x: Task): nat { if x.status.Failed? then 1 else 0 }
  function IsLive(x: Task): nat { if Terminal(x) then 0 else 1 }
  function IsBusy(x: Worker): nat { if x.Processing? || x.BackOff? then 1 else 0 }

  function Live(s: State): nat { Sum(IsLive, s.tasks) }

  /** The statistics are exact, and a pause always has its timer. */
  ghost predicate Tallied(c: Config, s: State) {
    && |s.workers| == c.workers
    && s.totalQueued == |s.tasks|
    && s.totalCompleted == Sum(IsCompleted, s.tasks)
    && s.totalFailed == Sum(IsFailed, s.tasks)
    && Live(s) == |s.enqueuing| + |s.queue| + Sum(IsBusy, s.workers)
    && s.timers == (if s.paused then 1 else 0)
  }

  ghost predicate Inv(c: Config, s: State) {
    Placed(s) && Recorded(s) && Tallied(c, s)
  }

  /** The retry decision comes down to this: the third condition never matters. */
  lemma RetriesIff(attempts: nat, server: bool, serverErrors: nat, consecutive: int, threshold: int)
    requires server ==> serverErrors >= 1
    ensures ShouldRetry(attempts, server, serverErrors, consecutive, threshold) <==> attempts < MAX_ATTEMPTS && !server
  {
  }

  // ----- One step

  lemma WorkerAlone(s: State, w: nat, t: nat)
    requires Placed(s) && w < |s.workers|
    requires s.workers[w] == Processing(t) || s.workers[w] == BackOff(t)
    ensures t < |s.tasks| && !Terminal(s.tasks[t]) && t !in s.enqueuing
    ensures forall k :: 0 <= k < |s.queue| ==> s.queue[k] != t
    ensures forall v :: 0 <= v < |s.workers| && v != w ==> s.workers[v] != Processing(t) && s.workers[v] != BackOff(t)
  {
    SumAtLeast(HeldBy(t), s.workers, w);
    assert Places(s, t) == 1;
    forall k | 0 <= k < |s.queue|
      ensures s.queue[k] != t
    {
      SumAtLeast(QueuedAs(t), s.queue, k);
    }
    forall v | 0 <= v < |s.workers| && v != w
      ensures s.workers[v] != Processing(t) && s.workers[v] != BackOff(t)
    {
      if v < w {
        SumAtLeastTwo(HeldBy(t), s.workers, v, w);
      } else {
        SumAtLeastTwo(HeldBy(t), s.workers, w, v);
      }
    }
  }

  lemma HeadAlone(s: State)
    requires Placed(s) && s.queue != []
    ensures var t := s.queue[0];
            && t < |s.tasks| && !Terminal(s.tasks[t]) && t !in s.enqueuing
            && (forall k :: 1 <= k < |s.queue| ==> s.queue[k] != t)
            && (forall v :: 0 <= v < |s.workers| ==> s.workers[v] != Processing(t) && s.workers[v] != BackOff(t))
  {
    var t := s.queue[0];
    SumAtLeast(QueuedAs(t), s.queue, 0);
    assert Places(s, t) == 1;
    forall k | 1 <= k < |s.queue|
      ensures s.queue[k] != t
    {
      SumAtLeastTwo(QueuedAs(t), s.queue, 0, k);
    }
    forall v | 0 <= v < |s.workers|
      ensures s.workers[v] != Processing(t) && s.workers[v] != BackOff(t)
    {
      SumAtLeast(HeldBy(t), s.workers, v);
    }
  }

  /** What ending an attempt leaves of the task, and which total it counts in. */
  lemma EndShape(c: Config, s: State, w: nat, attempt: Attempt)
    requires Recorded(s) && Tallied(c, s) && Enabled(c, s, End(w, attempt))
    ensures var t := s.workers[w].task;
            var n := EndStep(c, s, w, attempt);
            && |n.tasks| == |s.tasks|
            && n == s.(tasks := s.tasks[t := n.tasks[t]], workers := s.workers[w := n.workers[w]], paused := n.paused,
                       timers := n.timers, consecutive := n.consecutive, totalCompleted := n.totalCompleted,
                       totalFailed := n.totalFailed, telegramErrors := n.telegramErrors)
            && n.tasks[t].attempts == s.tasks[t].attempts
            && Sound(n.tasks[t])
            && n.timers == (if n.paused then 1 else 0) && n.timers <= s.timers + 1
            && n.totalCompleted == s.totalCompleted + IsCompleted(n.tasks[t])
            && n.totalFailed == s.totalFailed + IsFailed(n.tasks[t])
            && (if Terminal(n.tasks[t]) then n.workers[w] == Checking
                else Retriable(n.tasks[t]) && n.workers[w] == BackOff(t) && n.timers == s.timers)
  {
  }

  lemma GetPlaces(c: Config, s: State, w: nat, t: nat)
    requires Inv(c, s) && Enabled(c, s, Get(w))
    ensures Places(Step(c, s, Get(w)), t) == Places(s, t)
  {
    HeadAlone(s);
    SumUpdate(HeldBy(t), s.workers, w, Processing(s.queue[0]));
  }

  lemma EndPlaces(c: Config, s: State, w: nat, attempt: Attempt, t: nat)
    requires Inv(c, s) && Enabled(c, s, End(w, attempt))
    ensures Places(EndStep(c, s, w, attempt), t) == Places(s, t)
  {
    EndShape(c, s, w, attempt);
    SumUpdate(HeldBy(t), s.workers, w, EndStep(c, s, w, attempt).workers[w]);
  }

  lemma LoopPlaces(c: Config, s: State, e: Event, t: nat)
    requires Enabled(c, s, e) && (e.Check? || e.Poll? || e.Requeue?)
    ensures Places(Step(c, s, e), t) == Places(s, t)
  {
    SumUpdate(HeldBy(t), s.workers, e.w, Step(c, s, e).workers[e.w]);
    if e.Requeue? {
      SumAppend(QueuedAs(t), s.queue, s.workers[e.w].task);
    }
  }

  lemma StepPlaces(c: Config, s: State, e: Event, t: nat)
    requires Inv(c, s) && Enabled(c, s, e)
    ensures Places(Step(c, s, e), t) == Places(s, t) + (if e.Enqueue? && t == |s.tasks| then 1 else 0)
  {
    match e
    case Enqueue => assert |s.tasks| !in s.enqueuing;
    case PutNew(u) => SumAppend(QueuedAs(t), s.queue, u);
    case Get(w) => GetPlaces(c, s, w, t);
    case End(w, attempt) => EndPlaces(c, s, w, attempt, t);
    case Check(_) => LoopPlaces(c, s, e, t);
    case Poll(_) => LoopPlaces(c, s, e, t);
    case Requeue(_) => LoopPlaces(c, s, e, t);
    case Unpause =>
  }

  lemma EndRecorded(c: Config, s: State, w: nat, attempt: Attempt)
    requires Inv(c, s) && Enabled(c, s, End(w, attempt))
    ensures Recorded(EndStep(c, s, w, attempt))
  {
    EndShape(c, s, w, attempt);
    WorkerAlone(s, w, s.workers[w].task);
  }

  lemma GetRecorded(c: Config, s: State, w: nat)
    requires Inv(c, s) && Enabled(c, s, Get(w))
    ensures Recorded(Step(c, s, Get(w)))
  {
    HeadAlone(s);
  }

  lemma EnqueueRecorded(c: Config, s: State)
    requires Recorded(s)
    ensures Recorded(Step(c, s, Enqueue))
  {
  }

  lemma PutRecorded(c: Config, s: State, e: Event)
    requires Recorded(s) && Enabled(c, s, e) && (e.PutNew? || e.Requeue?)
    ensures Recorded(Step(c, s, e))
  {
  }

  lemma LoopRecorded(c: Config, s: State, e: Event)
    requires Recorded(s) && Enabled(c, s, e) && (e.Check? || e.Poll? || e.Unpause?)
    ensures Recorded(Step(c, s, e))
  {
  }

  lemma StepRecorded(c: Config, s: State, e: Event)
    requires Inv(c, s) && Enabled(c, s, e)
    ensures Recorded(Step(c, s, e))
  {
    match e
    case Enqueue => EnqueueRecorded(c, s);
    case PutNew(_) => PutRecorded(c, s, e);
    case Requeue(_) => PutRecorded(c, s, e);
    case Get(w) => GetRecorded(c, s, w);
    case End(w, attempt) => EndRecorded(c, s, w, attempt);
    case Check(_) => LoopRecorded(c, s, e);
    case Poll(_) => LoopRecorded(c, s, e);
    case Unpause => LoopRecorded(c, s, e);
  }

  lemma WorkerChange(s: State, w: nat, x: Worker)
    requires w < |s.workers|
    ensures Sum(IsBusy, s.workers[w := x]) + IsBusy(s.workers[w]) == Sum(IsBusy, s.workers) + IsBusy(x)
  {
    SumUpdate(IsBusy, s.workers, w, x);
  }

  lemma TaskChange(tasks: seq<Task>, t: nat, x: Task)
    requires t < |tasks|
    ensures Sum(IsCompleted, tasks[t := x]) + IsCompleted(tasks[t]) == Sum(IsCompleted, tasks) + IsCompleted(x)
    ensures Sum(IsFailed, tasks[t := x]) + IsFailed(tasks[t]) == Sum(IsFailed, tasks) + IsFailed(x)
    ensures Sum(IsLive, tasks[t := x]) + IsLive(tasks[t]) == Sum(IsLive, tasks) + IsLive(x)
  {
    SumUpdate(IsCompleted, tasks, t, x);
    SumUpdate(IsFailed, tasks, t, x);
    SumUpdate(IsLive, tasks, t, x);
  }

  lemma EnqueueTallied(c: Config, s: State)
    requires Inv(c, s)
    ensures Tallied(c, Step(c, s, Enqueue))
  {
    SumAppend(IsCompleted, s.tasks, Task(Pending, 0, 0));
    SumAppend(IsFailed, s.tasks, Task(Pending, 0, 0));
    SumAppend(IsLive, s.tasks, Task(Pending, 0, 0));
    assert |s.tasks| !in s.enqueuing;
  }

  lemma GetTallied(c: Config, s: State, w: nat)
    requires Inv(c, s) && Enabled(c, s, Get(w))
    ensures Tallied(c, Step(c, s, Get(w)))
  {
    WorkerChange(s, w, Processing(s.queue[0]));
    TaskChange(s.tasks, s.queue[0], Step(c, s, Get(w)).tasks[s.queue[0]]);
  }

  lemma EndTallied(c: Config, s: State, w: nat, attempt: Attempt)
    requires Inv(c, s) && Enabled(c, s, End(w, attempt))
    ensures Tallied(c, EndStep(c, s, w, attempt))
  {
    EndShape(c, s, w, attempt);
    var n := EndStep(c, s, w, attempt);
    WorkerChange(s, w, n.workers[w]);
    TaskChange(s.tasks, s.workers[w].task, n.tasks[s.workers[w].task]);
  }

  lemma LoopTallied(c: Config, s: State, e: Event)
    requires Inv(c, s) && Enabled(c, s, e) && (e.Check? || e.Poll? || e.Requeue?)
    ensures Tallied(c, Step(c, s, e))
  {
    WorkerChange(s, e.w, Step(c, s, e).workers[e.w]);
  }

  lemma StepTallied(c: Config, s: State, e: Event)
    requires Inv(c, s) && Enabled(c, s, e)
    ensures Tallied(c, Step(c, s, e))
  {
    match e
    case Enqueue => EnqueueTallied(c, s);
    case PutNew(u) =>
    case Check(_) => LoopTallied(c, s, e);
    case Poll(_) => LoopTallied(c, s, e);
    case Get(w) => GetTallied(c, s, w);
    case End(w, attempt) => EndTallied(c, s, w, attempt);
    case Requeue(_) => LoopTallied(c, s, e);
    case Unpause =>
  }

  lemma StepPlaced(c: Config, s: State, e: Event)
    requires Inv(c, s) && Enabled(c, s, e)
    ensures Placed(Step(c, s, e))
  {
    var n := Step(c, s, e);
    if e.End? {
      EndShape(c, s, e.w, e.attempt);
    }
    assert |n.tasks| == |s.tasks| + if e.Enqueue? then 1 else 0;
    forall t: nat
      ensures Places(n, t) == if t < |n.tasks| then 1 else 0
    {
      StepPlaces(c, s, e, t);
    }
  }

  lemma StepInv(c: Config, s: State, e: Event)
    requires Inv(c, s) && Enabled(c, s, e)
    ensures Inv(c, Step(c, s, e))
  {
    StepRecorded(c, s, e);
    StepTallied(c, s, e);
    StepPlaced(c, s, e);
  }

  lemma InitInv(c: Config)
    ensures Inv(c, Init(c))
  {
    SumZero(IsBusy, Init(c).workers);
    forall t: nat
      ensures Places(Init(c), t) == 0
    {
      SumZero(HeldBy(t), Init(c).workers);
    }
  }

  lemma {:induction false} RunInv(c: Config, s: State, events: seq<Event>)
    requires Inv(c, s) && IsRun(c, s, events)
    ensures Inv(c, Run(c, s, events))
    decreases |events|
  {
    if events != [] {
      StepInv(c, s, events[0]);
      RunInv(c, Step(c, s, events[0]), events[1..]);
    }
  }

  // ----- Safety of every run

  lemma {:induction false} LiveOrCounted(tasks: seq<Task>)
    ensures |tasks| == Sum(IsCompleted, tasks) + Sum(IsFailed, tasks) + Sum(IsLive, tasks)
  {
    if tasks != [] {
      LiveOrCounted(tasks[1..]);
    }
  }

  /** Conservation: every task is in exactly one place, the totals add up, no task is attempted more
      than three times, and one that met a Telegram server error has failed and is nowhere queued. */
  lemma TasksConserved(c: Config, events: seq<Event>)
    requires IsRun(c, Init(c), events)
    ensures var s := Run(c, Init(c), events);
            && (forall t: nat :: t < |s.tasks| ==> Places(s, t) == 1)
            && s.totalQueued == s.totalCompleted + s.totalFailed + Live(s)
            && (forall t :: 0 <= t < |s.tasks| ==> s.tasks[t].attempts <= 3)
            && (forall t :: 0 <= t < |s.tasks| && s.tasks[t].serverErrors > 0 ==>
                  s.tasks[t].status.Failed? && t !in s.queue && t !in s.enqueuing
                  && BackOff(t) !in s.workers && Processing(t) !in s.workers)
  {
    InitInv(c);
    RunInv(c, Init(c), events);
    var s := Run(c, Init(c), events);
    LiveOrCounted(s.tasks);
    forall t | 0 <= t < |s.tasks| && s.tasks[t].serverErrors > 0
      ensures t !in s.queue && t !in s.enqueuing && BackOff(t) !in s.workers && Processing(t) !in s.workers
    {
      assert Sound(s.tasks[t]);
    }
  }

  lemma StepAbsorbs(c: Config, s: State, e: Event, t: nat)
    requires Inv(c, s) && Enabled(c, s, e)
    requires t < |s.tasks| && Terminal(s.tasks[t])
    ensures t < |Step(c, s, e).tasks| && Step(c, s, e).tasks[t] == s.tasks[t]
  {
    if e.End? {
      EndShape(c, s, e.w, e.attempt);
      WorkerAlone(s, e.w, s.workers[e.w].task);
    } else if e.Get? {
      HeadAlone(s);
    }
  }

  /** Terminal states are absorbing: nothing about a settled task ever changes again. */
  lemma {:induction false} TerminalAbsorbs(c: Config, s: State, events: seq<Event>, t: nat)
    requires Inv(c, s) && IsRun(c, s, events)
    requires t < |s.tasks| && Terminal(s.tasks[t])
    ensures t < |Run(c, s, events).tasks| && Run(c, s, events).tasks[t] == s.tasks[t]
    decreases |events|
  {
    if events != [] {
      StepAbsorbs(c, s, events[0], t);
      StepInv(c, s, events[0]);
      TerminalAbsorbs(c, Step(c, s, events[0]), events[1..], t);
    }
  }

  function ServerErrors(events: seq<Event>): nat {
    if events == [] then 0
    else (if events[0].End? && events[0].attempt.ServerError? then 1 else 0) + ServerErrors(events[1..])
  }

  function TaskErrors(x: Task): nat { x.serverErrors }

  /** Telegram errors are counted once globally and once on the task they struck. */
  lemma {:induction false} ServerErrorsCounted(c: Config, s: State, events: seq<Event>)
    requires IsRun(c, s, events) && s.telegramErrors == Sum(TaskErrors, s.tasks)
    ensures Run(c, s, events).telegramErrors == s.telegramErrors + ServerErrors(events)
    ensures Run(c, s, events).telegramErrors == Sum(TaskErrors, Run(c, s, events).tasks)
    decreases |events|
  {
    if events != [] {
      var n := Step(c, s, events[0]);
      TaskErrorsStep(c, s, events[0]);
      ServerErrorsCounted(c, n, events[1..]);
    }
  }

  lemma TaskErrorsStep(c: Config, s: State, e: Event)
    requires Enabled(c, s, e)
    ensures Sum(TaskErrors, Step(c, s, e).tasks) - Sum(TaskErrors, s.tasks)
         == Step(c, s, e).telegramErrors - s.telegramErrors
         == if e.End? && e.attempt.ServerError? then 1 else 0
  {
    if e.End? {
      var t := s.workers[e.w].task;
      SumUpdate(TaskErrors, s.tasks, t, EndStep(c, s, e.w, e.attempt).tasks[t]);
    } else if e.Get? {
      SumUpdate(TaskErrors, s.tasks, s.queue[0], Step(c, s, e).tasks[s.queue[0]]);
    } else if e.Enqueue? {
      SumAppend(TaskErrors, s.tasks, Task(Pending, 0, 0));
    }
  }

  // ----- What each outcome of an attempt does

  /** The end of an attempt: a success completes the task; a timeout or a Telegram server error fails it
      for good, on whatever attempt; any other error sends it to back-off on its first two attempts and
      fails it on the third. */
  lemma AttemptOutcome(c: Config, s: State, w: nat, attempt: Attempt)
    requires Enabled(c, s, End(w, attempt))
    ensures var t := s.workers[w].task;
            var n := Step(c, s, End(w, attempt));
            var retried := attempt == OtherError && s.tasks[t].attempts < 3;
            && |n.tasks| == |s.tasks| && |n.workers| == |s.workers| && n.queue == s.queue
            && n.tasks[t].attempts == s.tasks[t].attempts
            && n.tasks[t].status == (if attempt == Success then Completed else if retried then Pending else Failed)
            && n.workers[w] == (if retried then BackOff(t) else Checking)
            && n.totalCompleted == s.totalCompleted + (if attempt == Success then 1 else 0)
            && n.totalFailed == s.totalFailed + (if attempt == Success || retried then 0 else 1)
            && (forall u :: 0 <= u < |s.tasks| && u != t ==> n.tasks[u] == s.tasks[u])
            && (forall v :: 0 <= v < |s.workers| && v != w ==> n.workers[v] == s.workers[v])
  {
  }

  function Ends(events: seq<Event>, attempt: Attempt): nat {
    if events == [] then 0
    else (if events[0].End? && events[0].attempt == attempt then 1 else 0) + Ends(events[1..], attempt)
  }

  /** The errors of a run that struck a task on its third attempt. */
  function ThirdErrors(c: Config, s: State, events: seq<Event>): nat
    requires IsRun(c, s, events)
    decreases |events|
  {
    if events == [] then 0
    else
      (if events[0].End? && events[0].attempt == OtherError && s.tasks[s.workers[events[0].w].task].attempts >= 3
         then 1 else 0)
      + ThirdErrors(c, Step(c, s, events[0]), events[1..])
  }

  /** Over every run the totals follow from the events: completed tasks are the successes, and failed ones
      the timeouts, the Telegram server errors and the other errors on a third attempt. */
  lemma {:induction false} OutcomesCounted(c: Config, s: State, events: seq<Event>)
    requires IsRun(c, s, events)
    ensures Run(c, s, events).totalCompleted == s.totalCompleted + Ends(events, Success)
    ensures Run(c, s, events).totalFailed
         == s.totalFailed + Ends(events, TimeOut) + Ends(events, ServerError) + ThirdErrors(c, s, events)
    decreases |events|
  {
    if events != [] {
      if events[0].End? {
        AttemptOutcome(c, s, events[0].w, events[0].attempt);
      }
      OutcomesCounted(c, Step(c, s, events[0]), events[1..]);
    }
  }

  /** How often a run takes a task from the queue. */
  function Starts(c: Config, s: State, events: seq<Event>, t: nat): nat
    requires IsRun(c, s, events)
    decreases |events|
  {
    if events == [] then 0
    else (if events[0].Get? && s.queue[0] == t then 1 else 0) + Starts(c, Step(c, s, events[0]), events[1..], t)
  }

  /** A task's attempts are the times it was taken from the queue. */
  lemma {:induction false} AttemptsCounted(c: Config, s: State, events: seq<Event>, t: nat)
    requires IsRun(c, s, events) && t < |s.tasks|
    ensures t < |Run(c, s, events).tasks|
    ensures Run(c, s, events).tasks[t].attempts == s.tasks[t].attempts + Starts(c, s, events, t)
    decreases |events|
  {
    if events != [] {
      if events[0].End? {
        AttemptOutcome(c, s, events[0].w, events[0].attempt);
      }
      AttemptsCounted(c, Step(c, s, events[0]), events[1..], t);
    }
  }

  // ----- The global pause

  /** What one event does to the pause: the running count of server errors rises by one with each, is
      cleared by a success and lowered by two, not below zero, when a pause ends; downloads pause exactly
      when an error brings that count to the threshold, and only the timer ends a pause. */
  lemma PausesIff(c: Config, s: State, e: Event)
    requires Inv(c, s) && Enabled(c, s, e)
    ensures var n := Step(c, s, e);
            && n.consecutive == (if e.End? && e.attempt == ServerError then s.consecutive + 1
                                 else if e.End? && e.attempt == Success then 0
                                 else if e.Unpause? then (if s.consecutive <= 2 then 0 else s.consecutive - 2)
                                 else s.consecutive)
            && (n.paused <==> if s.paused then !e.Unpause?
                              else e.End? && e.attempt == ServerError && n.consecutive >= c.threshold)
  {
  }

  /** From the start, as long as nothing succeeds and no pause has ended: downloads are paused if and only
      if there was a server error and as many as the threshold. */
  lemma {:induction false} PausedAtThreshold(c: Config, s: State, events: seq<Event>)
    requires Inv(c, s) && IsRun(c, s, events)
    requires forall k :: 0 <= k < |events| ==> !events[k].Unpause? && !(events[k].End? && events[k].attempt == Success)
    ensures var n := Run(c, s, events);
            && n.consecutive == s.consecutive + ServerErrors(events)
            && (n.paused <==> s.paused || (ServerErrors(events) >= 1 && n.consecutive >= c.threshold))
    decreases |events|
  {
    if events != [] {
      PausesIff(c, s, events[0]);
      StepInv(c, s, events[0]);
      var rest := events[1..];
      assert forall k :: 0 <= k < |rest| ==> rest[k] == events[k + 1];
      PausedAtThreshold(c, Step(c, s, events[0]), rest);
    }
  }

  /** During a pause a worker that has come to the top of its loop stays there: no download starts but
      those of workers already waiting for a task. */
  lemma {:induction false} PauseHoldsWorkers(c: Config, s: State, events: seq<Event>, w: nat)
    requires Inv(c, s) && IsRun(c, s, events) && s.paused
    requires forall k :: 0 <= k < |events| ==> !events[k].Unpause?
    requires w < |s.workers| && s.workers[w].Checking?
    ensures w < |Run(c, s, events).workers| && Run(c, s, events).workers[w].Checking?
    decreases |events|
  {
    if events != [] {
      PausesIff(c, s, events[0]);
      StepInv(c, s, events[0]);
      if events[0].End? {
        AttemptOutcome(c, s, events[0].w, events[0].attempt);
      }
      var rest := events[1..];
      assert forall k :: 0 <= k < |rest| ==> rest[k] == events[k + 1];
      PauseHoldsWorkers(c, Step(c, s, events[0]), rest, w);
    }
  }

  // ----- The order of the queue

  /** The task an event puts on the queue, new or to be retried. */
  function Put(s: State, e: Event): seq<nat> {
    match e
    case PutNew(t) => [t]
    case Requeue(w) => if w < |s.workers| && s.workers[w].BackOff? then [s.workers[w].task] else []
    case _ => []
  }

  function Puts(c: Config, s: State, events: seq<Event>): seq<nat>
    requires IsRun(c, s, events)
    decreases |events|
  {
    if events == [] then [] else Put(s, events[0]) + Puts(c, Step(c, s, events[0]), events[1..])
  }

  function GetCount(events: seq<Event>): nat {
    if events == [] then 0 else (if events[0].Get? then 1 else 0) + GetCount(events[1..])
  }

  lemma QueueStep(c: Config, s: State, e: Event)
    requires Enabled(c, s, e)
    ensures e.Get? ==> s.queue != [] && Put(s, e) == []
    ensures Step(c, s, e).queue == if e.Get? then s.queue[1..] else s.queue + Put(s, e)
  {
    if e.End? {
      AttemptOutcome(c, s, e.w, e.attempt);
    }
    assert s.queue + [] == s.queue;
  }

  lemma LineGrows(line: seq<nat>, added: seq<nat>, later: seq<nat>)
    ensures line + added + later == line + (added + later)
  {
  }

  lemma LineShrinks(line: seq<nat>, later: seq<nat>, taken: nat)
    requires line != [] && taken <= |line[1..] + later|
    ensures taken + 1 <= |line + later|
    ensures (line[1..] + later)[taken..] == (line + later)[taken + 1..]
  {
    assert line + later == [line[0]] + (line[1..] + later);
  }

  /** First in, first out, retries included: over any run the queue is what it was, with everything put
      since behind it, less as many from its front as were taken. */
  lemma {:induction false} QueueIsFifo(c: Config, s: State, events: seq<Event>)
    requires IsRun(c, s, events)
    ensures GetCount(events) <= |s.queue + Puts(c, s, events)|
    ensures Run(c, s, events).queue == (s.queue + Puts(c, s, events))[GetCount(events)..]
    decreases |events|
  {
    if events == [] {
      assert s.queue + [] == s.queue;
    } else {
      var n := Step(c, s, events[0]);
      var later := Puts(c, n, events[1..]);
      QueueStep(c, s, events[0]);
      QueueIsFifo(c, n, events[1..]);
      LineGrows(s.queue, Put(s, events[0]), later);
      if events[0].Get? {
        LineShrinks(s.queue, later, GetCount(events[1..]));
        assert Put(s, events[0]) + later == later;
      }
    }
  }

  /** The queue never holds more than its bound. */
  lemma {:induction false} QueueStaysBounded(c: Config, s: State, events: seq<Event>)
    requires IsRun(c, s, events) && c.maxQueue > 0 && |s.queue| <= c.maxQueue
    ensures |Run(c, s, events).queue| <= c.maxQueue
    decreases |events|
  {
    if events != [] {
      if events[0].End? {
        AttemptOutcome(c, s, events[0].w, events[0].attempt);
      }
      QueueStaysBounded(c, Step(c, s, events[0]), events[1..]);
    }
  }

  // ----- Termination and the one deadlock

  /** An event that brings tasks forward; the others are a new task and an idle worker's timed wait. */
  predicate Works(e: Event) { !e.Enqueue? && !e.Poll? }

  function TaskWork(x: Task): nat {
    if Terminal(x) || x.attempts > MAX_ATTEMPTS then 0 else 6 * (MAX_ATTEMPTS - x.attempts)
  }

  function WorkerWork(x: Worker): nat {
    match x
    case Processing(_) => 4
    case BackOff(_) => 3
    case Checking => 2
    case Waiting => 1
  }

  function Work(s: State): nat {
    Sum(TaskWork, s.tasks) + |s.enqueuing| + Sum(WorkerWork, s.workers) + s.timers
  }

  lemma EndWorks(c: Config, s: State, w: nat, attempt: Attempt)
    requires Inv(c, s) && Enabled(c, s, End(w, attempt))
    ensures Work(EndStep(c, s, w, attempt)) < Work(s)
  {
    EndShape(c, s, w, attempt);
    var n := EndStep(c, s, w, attempt);
    SumUpdate(WorkerWork, s.workers, w, n.workers[w]);
    SumUpdate(TaskWork, s.tasks, s.workers[w].task, n.tasks[s.workers[w].task]);
  }

  lemma GetWorks(c: Config, s: State, w: nat)
    requires Inv(c, s) && Enabled(c, s, Get(w))
    ensures Work(Step(c, s, Get(w))) < Work(s)
  {
    SumUpdate(WorkerWork, s.workers, w, Processing(s.queue[0]));
    SumUpdate(TaskWork, s.tasks, s.queue[0], Step(c, s, Get(w)).tasks[s.queue[0]]);
  }

  lemma StepWorks(c: Config, s: State, e: Event)
    requires Inv(c, s) && Enabled(c, s, e) && !e.Enqueue?
    ensures if e.Poll? then Work(Step(c, s, e)) == Work(s) + 1 else Work(Step(c, s, e)) < Work(s)
  {
    match e
    case PutNew(u) =>
    case Check(w) => SumUpdate(WorkerWork, s.workers, w, Waiting);
    case Poll(w) => SumUpdate(WorkerWork, s.workers, w, Checking);
    case Get(w) => GetWorks(c, s, w);
    case End(w, attempt) => EndWorks(c, s, w, attempt);
    case Requeue(w) => SumUpdate(WorkerWork, s.workers, w, Checking);
    case Unpause =>
  }

  function Polls(events: seq<Event>): nat {
    if events == [] then 0 else (if events[0].Poll? then 1 else 0) + Polls(events[1..])
  }

  /** Without new tasks, only idle waiting can go on for ever: the work events of a run are bounded by
      the remaining attempts of the live tasks and by the idle waits in between. */
  lemma {:induction false} WorkIsBounded(c: Config, s: State, events: seq<Event>)
    requires Inv(c, s) && IsRun(c, s, events)
    requires forall k :: 0 <= k < |events| ==> !events[k].Enqueue?
    ensures |events| <= Work(s) + 2 * Polls(events)
    decreases |events|
  {
    if events != [] {
      StepWorks(c, s, events[0]);
      StepInv(c, s, events[0]);
      var rest := events[1..];
      assert forall k :: 0 <= k < |rest| ==> rest[k] == events[k + 1];
      WorkIsBounded(c, Step(c, s, events[0]), rest);
    }
  }

  ghost predicate Stuck(c: Config, s: State) {
    forall e :: Enabled(c, s, e) ==> !Works(e)
  }

  ghost predicate AllBackingOff(s: State) {
    forall w :: 0 <= w < |s.workers| ==> s.workers[w].BackOff?
  }

  /** With live tasks and a worker, the system is stuck exactly when every worker is waiting to put a
      retry back, the queue is full, and no pause is left to run out. */
  lemma StuckIff(c: Config, s: State)
    requires Inv(c, s) && c.workers >= 1 && Live(s) > 0
    ensures Stuck(c, s) <==> AllBackingOff(s) && !Room(c, s) && !s.paused
  {
    if !AllBackingOff(s) {
      var w :| 0 <= w < |s.workers| && !s.workers[w].BackOff?;
      FreeWorkerMoves(c, s, w);
    } else if Room(c, s) {
      assert Enabled(c, s, Requeue(0)) && Works(Requeue(0));
    } else if s.paused {
      assert Enabled(c, s, Unpause) && Works(Unpause);
    }
  }

  lemma FreeWorkerMoves(c: Config, s: State, w: nat)
    requires Inv(c, s) && Live(s) > 0
    requires w < |s.workers| && !s.workers[w].BackOff?
    ensures !Stuck(c, s)
  {
    match s.workers[w]
    case Processing(_) => assert Enabled(c, s, End(w, Success)) && Works(End(w, Success));
    case Checking =>
      if s.paused {
        assert Enabled(c, s, Unpause) && Works(Unpause);
      } else {
        assert Enabled(c, s, Check(w)) && Works(Check(w));
      }
    case Waiting =>
      if s.queue != [] {
        assert Enabled(c, s, Get(w)) && Works(Get(w));
      } else if s.enqueuing != {} {
        var t :| t in s.enqueuing;
        assert Enabled(c, s, PutNew(t)) && Works(PutNew(t));
      } else {
        var v := SumPositive(IsBusy, s.workers);
        BusyMoves(c, s, v);
      }
  }

  lemma BusyMoves(c: Config, s: State, v: nat)
    requires Inv(c, s) && s.queue == []
    requires v < |s.workers| && IsBusy(s.workers[v]) > 0
    ensures !Stuck(c, s)
  {
    if s.workers[v].BackOff? {
      assert Enabled(c, s, Requeue(v)) && Works(Requeue(v));
    } else {
      assert Enabled(c, s, End(v, Success)) && Works(End(v, Success));
    }
  }

  lemma {:induction false} BackingOffAreBusy(workers: seq<Worker>)
    requires forall w :: 0 <= w < |workers| ==> workers[w].BackOff?
    ensures Sum(IsBusy, workers) == |workers|
  {
    if workers != [] {
      BackingOffAreBusy(workers[1..]);
    }
  }

  /** Fewer live tasks than queue slots and workers together rule the deadlock out. */
  lemma FewTasksNeverStick(c: Config, s: State)
    requires Inv(c, s) && c.workers >= 1 && Live(s) > 0
    requires c.maxQueue <= 0 || Live(s) < c.maxQueue + c.workers
    ensures !Stuck(c, s)
  {
    StuckIff(c, s);
    if AllBackingOff(s) {
      BackingOffAreBusy(s.workers);
    }
  }

  /** If the queue is unbounded or live tasks never exceed its capacity, putting a retry back never
      blocks. */
  lemma RequeueNeverBlocks(c: Config, s: State, w: nat)
    requires Inv(c, s) && w < |s.workers| && s.workers[w].BackOff?
    requires c.maxQueue <= 0 || Live(s) <= c.maxQueue
    ensures Enabled(c, s, Requeue(w))
  {
    SumAtLeast(IsBusy, s.workers, w);
  }

  /** A run of work events from a reachable state that can go no further has settled every task, if the
      live tasks were fewer than the queue slots and workers together (or the queue is unbounded). */
  lemma {:induction false} DrainsCompletely(c: Config, s: State, events: seq<Event>)
    requires Inv(c, s) && c.workers >= 1 && IsRun(c, s, events)
    requires forall k :: 0 <= k < |events| ==> Works(events[k])
    requires c.maxQueue <= 0 || Live(s) < c.maxQueue + c.workers
    ensures |events| <= Work(s)
    ensures var n := Run(c, s, events);
            Stuck(c, n) ==> n.totalCompleted + n.totalFailed == n.totalQueued
    decreases |events|
  {
    if events == [] {
      LiveOrCounted(s.tasks);
      if Live(s) > 0 {
        FewTasksNeverStick(c, s);
      }
    } else {
      StepWorks(c, s, events[0]);
      StepInv(c, s, events[0]);
      LiveShrinks(c, s, events[0]);
      var rest := events[1..];
      assert forall k :: 0 <= k < |rest| ==> rest[k] == events[k + 1];
      DrainsCompletely(c, Step(c, s, events[0]), rest);
    }
  }

  lemma LiveShrinks(c: Config, s: State, e: Event)
    requires Inv(c, s) && Enabled(c, s, e) && !e.Enqueue?
    ensures Live(Step(c, s, e)) <= Live(s)
  {
    if e.End? {
      EndShape(c, s, e.w, e.attempt);
      TaskChange(s.tasks, s.workers[e.w].task, EndStep(c, s, e.w, e.attempt).tasks[s.workers[e.w].task]);
    } else if e.Get? {
      TaskChange(s.tasks, s.queue[0], Step(c, s, e).tasks[s.queue[0]]);
    }
  }

  // ----- When the deadlock can happen

  lemma {:induction false} RunExtends(c: Config, s: State, events: seq<Event>, e: Event)
    requires IsRun(c, s, events) && Enabled(c, Run(c, s, events), e)
    ensures IsRun(c, s, events + [e]) && Run(c, s, events + [e]) == Step(c, Run(c, s, events), e)
    decreases |events|
  {
    if events != [] {
      assert (events + [e])[1..] == events[1..] + [e];
      RunExtends(c, Step(c, s, events[0]), events[1..], e);
    }
  }

  /** All `n` tasks are live, the first `k` workers back off, the others have yet to look for a task,
      and `q` tasks are queued. */
  ghost predicate Jammed(c: Config, s: State, n: nat, k: nat, q: nat) {
    && |s.tasks| == n == s.totalQueued && s.totalCompleted == 0 == s.totalFailed
    && |s.workers| == c.workers && k <= c.workers && |s.queue| == q && !s.paused
    && (forall w :: 0 <= w < k ==> s.workers[w].BackOff?)
    && (forall w :: k <= w < c.workers ==> s.workers[w].Checking?)
  }

  /** One more task goes through the empty queue to an idle worker and fails there once. */
  lemma JamWorker(c: Config, events: seq<Event>, k: nat) returns (longer: seq<Event>)
    requires c.maxQueue >= 1 && k < c.workers
    requires IsRun(c, Init(c), events) && Jammed(c, Run(c, Init(c), events), k, k, 0)
    ensures IsRun(c, Init(c), longer) && Jammed(c, Run(c, Init(c), longer), k + 1, k + 1, 0)
  {
    RunExtends(c, Init(c), events, Enqueue);
    longer := events + [Enqueue];
    RunExtends(c, Init(c), longer, PutNew(k));
    longer := longer + [PutNew(k)];
    RunExtends(c, Init(c), longer, Check(k));
    longer := longer + [Check(k)];
    RunExtends(c, Init(c), longer, Get(k));
    longer := longer + [Get(k)];
    RunExtends(c, Init(c), longer, End(k, OtherError));
    longer := longer + [End(k, OtherError)];
  }

  lemma {:induction false} JamWorkers(c: Config, k: nat) returns (events: seq<Event>)
    requires c.maxQueue >= 1 && k <= c.workers
    ensures IsRun(c, Init(c), events) && Jammed(c, Run(c, Init(c), events), k, k, 0)
  {
    if k == 0 {
      events := [];
    } else {
      var fewer := JamWorkers(c, k - 1);
      events := JamWorker(c, fewer, k - 1);
    }
  }

  /** With all workers jammed, further tasks fill the queue, and the rest wait to be put. */
  lemma {:induction false} JamQueue(c: Config, extra: nat) returns (events: seq<Event>)
    requires c.maxQueue >= 1
    ensures IsRun(c, Init(c), events)
    ensures var queued := if extra <= c.maxQueue then extra else c.maxQueue;
            Jammed(c, Run(c, Init(c), events), c.workers + extra, c.workers, queued)
  {
    if extra == 0 {
      events := JamWorkers(c, c.workers);
    } else {
      events := JamQueue(c, extra - 1);
      RunExtends(c, Init(c), events, Enqueue);
      events := events + [Enqueue];
      if extra <= c.maxQueue {
        var t := c.workers + extra - 1;
        RunExtends(c, Init(c), events, PutNew(t));
        events := events + [PutNew(t)];
      }
    }
  }

  ghost predicate Deadlocked(c: Config, s: State, n: nat) {
    s.totalQueued == n && Live(s) > 0 && Stuck(c, s)
  }

  lemma DeadlockedOnlyIf(c: Config, events: seq<Event>, n: nat)
    requires c.workers >= 1 && IsRun(c, Init(c), events)
    requires Deadlocked(c, Run(c, Init(c), events), n)
    ensures 0 < c.maxQueue <= n - c.workers
  {
    var s := Run(c, Init(c), events);
    InitInv(c);
    RunInv(c, Init(c), events);
    LiveOrCounted(s.tasks);
    if c.maxQueue <= 0 || Live(s) < c.maxQueue + c.workers {
      FewTasksNeverStick(c, s);
    }
  }

  lemma JammedIsDeadlocked(c: Config, events: seq<Event>, n: nat)
    requires c.workers >= 1 && 0 < c.maxQueue <= n - c.workers && IsRun(c, Init(c), events)
    requires Jammed(c, Run(c, Init(c), events), n, c.workers, c.maxQueue)
    ensures Deadlocked(c, Run(c, Init(c), events), n)
  {
    var s := Run(c, Init(c), events);
    InitInv(c);
    RunInv(c, Init(c), events);
    LiveOrCounted(s.tasks);
    StuckIff(c, s);
  }

  /** With at least one worker, `n` enqueued tasks can end in the deadlock exactly when the queue is
      bounded and holds at most `n` less the number of workers: for every smaller `n` no schedule and no
      failures lead there, for every other some do. */
  lemma DeadlockReachableIff(c: Config, n: nat)
    requires c.workers >= 1
    ensures (exists events :: IsRun(c, Init(c), events) && Deadlocked(c, Run(c, Init(c), events), n))
       <==> 0 < c.maxQueue <= n - c.workers
  {
    if 0 < c.maxQueue <= n - c.workers {
      var events := JamQueue(c, n - c.workers);
      JammedIsDeadlocked(c, events, n);
    } else {
      forall events | IsRun(c, Init(c), events)
        ensures !Deadlocked(c, Run(c, Init(c), events), n)
      {
        if Deadlocked(c, Run(c, Init(c), events), n) {
          DeadlockedOnlyIf(c, events, n);
        }
      }
    }
  }

  // ----- The queue object

  class MediaDownloadQueue {
    const config: Config
    var tasks: seq<Task>
    var enqueuing: set<nat>
    var queue: seq<nat>
    var workers: seq<Worker>
    var paused: bool
    var timers: nat
    var consecutive: int
    var totalQueued: nat
    var totalCompleted: nat
    var totalFailed: nat
    var telegramErrors: nat

    function View(): State
      reads this
    {
      State(tasks, enqueuing, queue, workers, paused, timers, consecutive, totalQueued, totalCompleted, totalFailed,
            telegramErrors)
    }

    constructor (c: Config)
      ensures config == c && View() == Init(c)
    {
      config := c;
      tasks, enqueuing, queue := [], {}, [];
      workers := seq(c.workers, (_: nat) => Checking);
      paused, timers, consecutive := false, 0, 0;
      totalQueued, totalCompleted, totalFailed, telegramErrors := 0, 0, 0, 0;
    }

    method AddTask() returns (t: nat)
      modifies this
      ensures View() == Step(config, old(View()), Enqueue) && t == |old(tasks)|
    {
      t := |tasks|;
      tasks := tasks + [Task(Pending, 0, 0)];
      totalQueued := totalQueued + 1;
      enqueuing := enqueuing + {t};
    }

    method PutTask(t: nat)
      requires Enabled(config, View(), PutNew(t))
      modifies this
      ensures View() == Step(config, old(View()), PutNew(t))
    {
      enqueuing := enqueuing - {t};
      queue := queue + [t];
    }

    method CheckPause(w: nat)
      requires w < |workers| && workers[w].Checking?
      modifies this
      ensures View() == if old(paused) then old(View()) else Step(config, old(View()), Check(w))
    {
      if paused {
        return;
      }
      workers := workers[w := Waiting];
    }

    /** The timed wait: it yields the next task, or nothing when the queue stays empty. */
    method WaitForTask(w: nat)
      requires w < |workers| && workers[w].Waiting?
      requires forall k :: 0 <= k < |queue| ==> queue[k] < |tasks|
      modifies this
      ensures View() == Step(config, old(View()), if old(queue) == [] then Poll(w) else Get(w))
    {
      if queue == [] {
        workers := workers[w := Checking];
        return;
      }
      var t := queue[0];
      queue := queue[1..];
      workers := workers[w := Processing(t)];
      tasks := tasks[t := tasks[t].(status := InProgress, attempts := tasks[t].attempts + 1)];
    }

    method EndAttempt(w: nat, attempt: Attempt)
      requires Enabled(config, View(), End(w, attempt))
      modifies this
      ensures View() == Step(config, old(View()), End(w, attempt))
    {
      var t := workers[w].task;
      var task := tasks[t];
      match attempt
      case Success =>
        tasks := tasks[t := task.(status := Completed)];
        consecutive := 0;
        totalCompleted := totalCompleted + 1;
        workers := workers[w := Checking];
      case TimeOut => Fail(w, t, task);
      case ServerError =>
        task := task.(serverErrors := task.serverErrors + 1);
        NoteServerError();
        RetryOrFail(w, t, task, true);
      case OtherError => RetryOrFail(w, t, task, false);
    }

    method NoteServerError()
      modifies this`paused, this`timers, this`consecutive, this`telegramErrors
      ensures View() == HandleServerError(config, old(View()))
    {
      consecutive := consecutive + 1;
      telegramErrors := telegramErrors + 1;
      if consecutive >= config.threshold && !paused {
        paused := true;
        timers := timers + 1;
      }
    }

    method Fail(w: nat, t: nat, task: Task)
      requires w < |workers| && workers[w] == Processing(t) && t < |tasks|
      modifies this`tasks, this`workers, this`totalFailed
      ensures View() == Settle(old(View()), w, task.(status := Failed)).(totalFailed := old(totalFailed) + 1)
    {
      tasks := tasks[t := task.(status := Failed)];
      totalFailed := totalFailed + 1;
      workers := workers[w := Checking];
    }

    method RetryOrFail(w: nat, t: nat, task: Task, server: bool)
      requires w < |workers| && workers[w] == Processing(t) && t < |tasks|
      modifies this`tasks, this`workers, this`totalFailed
      ensures View() == Settle(old(View()), w, Decided(task, server, old(consecutive), config.threshold))
                          .(totalFailed := old(totalFailed) + Refused(task, server, old(consecutive), config.threshold))
    {
      var retry := task.attempts < MAX_ATTEMPTS;
      if server && task.serverErrors >= 1 {
        retry := false;
      }
      if server && consecutive >= config.threshold * 2 {
        retry := false;
      }
      if retry {
        tasks := tasks[t := task.(status := Pending)];
        workers := workers[w := BackOff(t)];
      } else {
        Fail(w, t, task);
      }
    }

    method PutBack(w: nat)
      requires Enabled(config, View(), Requeue(w))
      modifies this
      ensures View() == Step(config, old(View()), Requeue(w))
    {
      queue := queue + [workers[w].task];
      workers := workers[w := Checking];
    }

    method EndPause()
      requires Enabled(config, View(), Unpause)
      modifies this
      ensures View() == Step(config, old(View()), Unpause)
    {
      timers := timers - 1;
      paused := false;
      consecutive := Max(0, consecutive - 2);
    }
  }
}
