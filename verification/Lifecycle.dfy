/**
 The life of a task from Rust to Ruby and back, as one transition system.

 A Rust task sends a submit command over the bridge; the bridge thread runs the
 bridge commands in order and pushes Execute and Shutdown commands; the
 processing thread pops those and runs three fibers for each task: the
 supervisor (`run_with_cancellation`), the worker and the cancellation watcher.
 Fibers share one thread: `current` says which fiber runs, and only a fiber that
 yields, blocks or ends gives the thread back to the event loop. The bridge
 thread and the Rust tasks may step between any two fiber steps.
 */
module Lifecycle {
  import opened Options
  import opened ResultChannel

  // ---------------------------------------------------------------- one task

  datatype Status = Completed | Stopped | Failed

  /** Where the worker fiber stands in its block of lib/prosody/processor.rb. */
  datatype WorkerPc =
    | Unspawned
    | InBlock(stopRaised: bool)
    | CallSuccess(value: Returned)
    | LogSuccess
    | CallCancelled
    | LogCancelled
    | Capture(error: Raised)
    | CallError(error: Raised)
    | LogError
    | Ensure(status: Status)
    | Finished(status: Status)

  /** `Gone(popped)`: the watcher ended, having taken a token signal or not. */
  datatype WatcherPc = NoWatcher | Fresh | Waiting | Stopping | Gone(popped: bool)

  /** `Abandoned`: the loop popped the task and raised before the supervisor started. */
  datatype SupervisorPc =
    | Idle | Queued | Dispatched | Abandoned(spanFinished: bool)
    | Started | WorkerSpawned | Joining | Cleanup | FinishingSpan | Done

  datatype Submission = Submitting | Accepted | Refused
  datatype Cancellation = NotAsked | Asked | Pushed
  datatype SchedulerError = SubmitFailed | CancelFailed | BridgeClosed
  datatype HandlerError = Scheduler(error: SchedulerError) | Bridge | Processing(reason: ProcessingError)
  datatype RustPc = Awaiting | Resolved(value: HandlerResult) | Forgotten
  datatype HandlerResult = HandlerOk(json: string) | HandlerErr(error: HandlerError)

  /**
   One task. `fuel` bounds the further yields of its user code and log calls;
   `reports`, `runs`, `stops` and `spans` record what has happened: the callback
   calls, the runs of the handler function, the Stops raised in the worker and
   the times its dispatch span was finished.
   */
  datatype Task = Task(
    fuel: nat,
    submission: Submission,
    cancellation: Cancellation,
    rust: RustPc,
    channel: Channel,
    supervisor: SupervisorPc,
    worker: WorkerPc,
    watcher: WatcherPc,
    token: nat,
    reports: seq<Report>,
    runs: nat,
    stops: nat,
    spans: nat)

  function NewTask(fuel: nat): Task {
    Task(fuel, Submitting, NotAsked, Awaiting, FRESH, Idle, Unspawned, NoWatcher, 0, [], 0, 0, 0)
  }

  const TASK_CANCELLED := Failure(Raised(None, Some("Task cancelled"), None, "Task cancelled"))

  datatype FiberKind = SupervisorFiber | WorkerFiber | WatcherFiber

  datatype WorkerMove =
    | Yield
    | Return(value: Returned)
    | Raise(error: Raised)
    | Abort
    | Reraise
    | Proceed

  datatype Move = Supervise | Watch | Work(move: WorkerMove)

  /** The points at which user code, Sentry or a logger may yield the fiber. */
  predicate AtYieldPoint(w: WorkerPc) {
    w.InBlock? || w.LogSuccess? || w.LogCancelled? || w.Capture? || w.LogError?
  }

  /** The report that the worker makes at a callback call. */
  function ReportAt(w: WorkerPc): Option<Report> {
    match w
    case CallSuccess(value) => Some(Success(value))
    case CallCancelled => Some(TASK_CANCELLED)
    case CallError(error) => Some(Failure(error))
    case _ => None
  }

  /** Where the worker goes on after the callback answered `sent`. */
  function AfterCall(w: WorkerPc, sent: bool): WorkerPc {
    if !sent then Ensure(Completed)
    else match w
      case CallSuccess(_) => LogSuccess
      case CallCancelled => LogCancelled
      case _ => LogError
  }

  /** Where a raised `Async::Stop` takes the worker. Rescue bodies do not rescue it again. */
  function OnStop(w: WorkerPc): WorkerPc {
    match w
    case InBlock(_) => InBlock(true)
    case CallSuccess(_) | LogSuccess => CallCancelled
    case CallCancelled | LogCancelled | Capture(_) | CallError(_) | LogError => Ensure(Stopped)
    case Ensure(_) => Finished(Stopped)
    case Unspawned | Finished(_) => w
  }

  /** The worker's own next point; callback calls and the token push have effects as well. */
  function NextPc(w: WorkerPc, m: WorkerMove): Option<WorkerPc> {
    match w
    case InBlock(stopRaised) =>
      (match m
       case Return(value) => Some(CallSuccess(value))
       case Raise(error) => Some(Capture(error))
       case Abort => Some(Ensure(Failed))
       case Reraise => if stopRaised then Some(CallCancelled) else None
       case _ => None)
    case LogSuccess =>
      (match m
       case Proceed => Some(Ensure(Completed))
       case Raise(error) => Some(Capture(error))
       case Abort => Some(Ensure(Failed))
       case _ => None)
    case LogCancelled | LogError =>
      (match m
       case Proceed => Some(Ensure(Completed))
       case Raise(_) | Abort => Some(Ensure(Failed))
       case _ => None)
    case Capture(error) =>
      (match m
       case Proceed => Some(CallError(error))
       case Raise(_) | Abort => Some(Ensure(Failed))
       case _ => None)
    case _ => None
  }

  /** `held` is the fiber of this task that runs, or `None` when the event loop picks one. */
  function WorkerStep(k: Task, held: Option<FiberKind>, m: WorkerMove): Option<(Task, Option<FiberKind>)> {
    var w := k.worker;
    if AtYieldPoint(w) then
      if held.Some? && held.value != WorkerFiber then None
      else if m == Yield then
        if k.fuel == 0 then None else Some((k.(fuel := k.fuel - 1), None))
      else
        match NextPc(w, m)
        case Some(w') => Some((k.(worker := w'), Some(WorkerFiber)))
        case None => None
    else if held != Some(WorkerFiber) || m != Proceed then None
    else if w.Ensure? then
      Some((k.(worker := Finished(w.status), token := k.token + 1), None))
    else match ReportAt(w)
      case Some(report) =>
        var (channel, sent) := AfterReport(k.channel, report);
        Some((k.(channel := channel, reports := k.reports + [report], worker := AfterCall(w, sent)), held))
      case None => None
  }

  function SupervisorStep(k: Task, held: Option<FiberKind>): Option<(Task, Option<FiberKind>)> {
    match k.supervisor
    case Started =>
      if held == Some(SupervisorFiber)
      then Some((k.(worker := InBlock(false), runs := k.runs + 1, supervisor := WorkerSpawned), Some(WorkerFiber)))
      else None
    case WorkerSpawned =>
      if held == None then Some((k.(watcher := Fresh, supervisor := Joining), Some(WatcherFiber))) else None
    case Joining =>
      if held == None && k.worker.Finished? then Some((k.(supervisor := Cleanup), Some(SupervisorFiber))) else None
    case Cleanup =>
      if held == Some(SupervisorFiber)
      then Some((k.(watcher := if k.watcher.Gone? then k.watcher else Gone(false), supervisor := FinishingSpan), None))
      else None
    case FinishingSpan =>
      if held == None then Some((k.(spans := k.spans + 1, supervisor := Done), None)) else None
    case _ => None
  }

  function WatcherStep(k: Task, held: Option<FiberKind>): Option<(Task, Option<FiberKind>)> {
    match k.watcher
    case Fresh =>
      if held != Some(WatcherFiber) then None
      else if k.token > 0 then Some((k.(watcher := Stopping, token := k.token - 1), held))
      else Some((k.(watcher := Waiting), None))
    case Waiting =>
      if held == None && k.token > 0
      then Some((k.(watcher := Stopping, token := k.token - 1), Some(WatcherFiber)))
      else None
    case Stopping =>
      if held != Some(WatcherFiber) then None
      else if k.worker.Finished? then Some((k.(watcher := Gone(true)), None))
      else Some((k.(watcher := Gone(true), worker := OnStop(k.worker), stops := k.stops + 1), Some(WorkerFiber)))
    case _ => None
  }

  function LocalStep(k: Task, held: Option<FiberKind>, m: Move): Option<(Task, Option<FiberKind>)> {
    match m
    case Supervise => SupervisorStep(k, held)
    case Watch => WatcherStep(k, held)
    case Work(move) => WorkerStep(k, held, move)
  }

  /** What the awaiting Rust future returns once the channel has resolved. */
  function HandlerResultOf(received: Received): HandlerResult {
    match received
    case Ok(json) => HandlerOk(json)
    case Err(error) => HandlerErr(Processing(error))
  }

  // -------------------------------------------------------------- the system

  datatype BridgeCommand = Submit(task: nat) | Cancel(task: nat) | StopProcessor
  datatype Command = Execute(task: nat) | Shutdown

  /**
   `Broke` is the orderly exit and `Aborted` the one in which `barrier.wait` re-raised
   a failed task. In `Crashed` the loop's own code raised, a popped task at hand or not.
   */
  datatype LoopPc =
    | Popping | Dispatching(task: nat) | ShuttingDown | Draining
    | Broke | Aborted | Crashed(popped: Option<nat>)

  datatype Current = EventLoop | Running(task: nat, fiber: FiberKind)

  /** `stopLost`: the stop request set the flag and then raised, so no Shutdown was queued. */
  datatype State = State(
    channel: seq<BridgeCommand>,
    isShutdown: bool,
    stopLost: bool,
    queue: seq<Command>,
    loop: LoopPc,
    current: Current,
    tasks: seq<Task>)

  const INITIAL := State([], false, false, [], Popping, EventLoop, [])

  datatype Action =
    | Schedule(fuel: nat)
    | DropScheduler
    | RequestCancel(task: nat)
    | Receive(task: nat)
    | DropFuture(task: nat)
    | Collect(task: nat)
    | RunBridgeCommand
    | StopRaises
    | PopCommand
    | Dispatch
    | LogRaises
    | EnqueueRaises
    | AwaitTasks
    | Break
    | BarrierRaises
    | Fiber(task: nat, move: Move)

  function HeldBy(c: Current, t: nat): Option<FiberKind> {
    if c.Running? && c.task == t then Some(c.fiber) else None
  }

  function CurrentOf(t: nat, held: Option<FiberKind>): Current {
    match held
    case Some(fiber) => Running(t, fiber)
    case None => EventLoop
  }

  predicate LoopEnded(s: State) { s.loop == Broke || s.loop == Aborted || s.loop.Crashed? }

  predicate HasStarted(k: Task) {
    k.supervisor != Idle && k.supervisor != Queued && k.supervisor != Dispatched && !k.supervisor.Abandoned?
  }

  /** The reactor, and its thread with it, outlives the loop until the last started task is over. */
  predicate ThreadAlive(s: State) {
    !LoopEnded(s) || exists t :: 0 <= t < |s.tasks| && HasStarted(s.tasks[t]) && s.tasks[t].supervisor != Done
  }

  predicate TaskFailed(k: Task) { k.supervisor == Done && k.worker == Finished(Failed) }

  predicate SupervisorOver(k: Task) { k.supervisor == Idle || k.supervisor == Done }

  /** The actions of the processing thread; all others belong to Rust and the bridge thread. */
  predicate OnProcessingThread(a: Action) {
    a.PopCommand? || a.Dispatch? || a.AwaitTasks? || a.Break? || a.BarrierRaises? || a.Fiber? || LoopRaises(a)
  }

  /** A log call of the loop, or `barrier.async` itself, raises. */
  predicate LoopRaises(a: Action) { a.LogRaises? || a.EnqueueRaises? }

  predicate Enabled(s: State, a: Action) {
    match a
    case Schedule(_) | DropScheduler => true
    case RequestCancel(t) =>
      && t < |s.tasks| && s.tasks[t].submission == Accepted
      && s.tasks[t].cancellation == NotAsked && s.tasks[t].rust == Awaiting
    case Receive(t) =>
      && t < |s.tasks| && s.tasks[t].rust == Awaiting && s.tasks[t].cancellation != Asked
      && (s.tasks[t].submission == Refused
          || (s.tasks[t].submission == Accepted && Resolution(s.tasks[t].channel).Some?))
    case DropFuture(t) => t < |s.tasks| && s.tasks[t].rust == Awaiting
    case Collect(t) => t < |s.tasks| && (s.tasks[t].supervisor == Done || s.tasks[t].supervisor.Abandoned?)
    case RunBridgeCommand => s.channel != [] && (s.channel[0].StopProcessor? || s.channel[0].task < |s.tasks|)
    case StopRaises => s.channel != [] && s.channel[0].StopProcessor? && !s.isShutdown && ThreadAlive(s)
    case PopCommand =>
      && s.current == EventLoop && s.loop == Popping && s.queue != []
      && (s.queue[0].Shutdown? || s.queue[0].task < |s.tasks|)
    case Dispatch | EnqueueRaises => s.current == EventLoop && s.loop.Dispatching? && s.loop.task < |s.tasks|
    case LogRaises =>
      && s.current == EventLoop
      && (s.loop == ShuttingDown || (s.loop.Dispatching? && s.loop.task < |s.tasks|))
    case AwaitTasks => s.current == EventLoop && s.loop == ShuttingDown
    case Break =>
      && s.current == EventLoop && s.loop == Draining
      && forall t :: 0 <= t < |s.tasks| ==> SupervisorOver(s.tasks[t]) && !TaskFailed(s.tasks[t])
    case BarrierRaises =>
      && s.current == EventLoop && s.loop == Draining
      && exists t :: 0 <= t < |s.tasks| && TaskFailed(s.tasks[t])
    case Fiber(t, move) =>
      && t < |s.tasks| && (s.current == EventLoop || s.current.task == t)
      && LocalStep(s.tasks[t], HeldBy(s.current, t), move).Some?
  }

  /** The bridge thread runs the command at the head of the channel. */
  function RunHead(s: State): State
    requires Enabled(s, RunBridgeCommand)
  {
    var s' := s.(channel := s.channel[1..]);
    match s.channel[0]
    case Submit(t) =>
      var k := s.tasks[t];
      if s.isShutdown then
        s'.(tasks := s.tasks[t := k.(submission := Refused, channel := AfterCollection(k.channel))])
      else
        s'.(tasks := s.tasks[t := k.(submission := Accepted, supervisor := Queued)],
            queue := s.queue + [Execute(t)])
    case Cancel(t) =>
      var k := s.tasks[t];
      s'.(tasks := s.tasks[t := k.(cancellation := Pushed, token := k.token + 1)])
    case StopProcessor =>
      if s.isShutdown then s'
      else s'.(isShutdown := true, queue := if ThreadAlive(s) then s.queue + [Shutdown] else s.queue)
  }

  /** The loop ends by an error of its own, leaving a popped task behind. */
  function Crash(s: State, spanFinished: bool): State
    requires s.loop.Dispatching? ==> s.loop.task < |s.tasks|
  {
    if s.loop.Dispatching? then
      var k := s.tasks[s.loop.task];
      var k' := k.(supervisor := Abandoned(spanFinished), spans := if spanFinished then k.spans + 1 else k.spans);
      s.(loop := Crashed(Some(s.loop.task)), tasks := s.tasks[s.loop.task := k'])
    else
      s.(loop := Crashed(None))
  }

  function Apply(s: State, a: Action): State
    requires Enabled(s, a)
  {
    match a
    case Schedule(fuel) => s.(tasks := s.tasks + [NewTask(fuel)], channel := s.channel + [Submit(|s.tasks|)])
    case DropScheduler => s.(channel := s.channel + [StopProcessor])
    case RequestCancel(t) =>
      s.(tasks := s.tasks[t := s.tasks[t].(cancellation := Asked)], channel := s.channel + [Cancel(t)])
    case Receive(t) =>
      var k := s.tasks[t];
      var result := if k.submission == Refused then HandlerErr(Scheduler(SubmitFailed))
                    else HandlerResultOf(Resolution(k.channel).value);
      s.(tasks := s.tasks[t := k.(rust := Resolved(result), channel := k.channel.(receiverOpen := false))])
    case DropFuture(t) =>
      var k := s.tasks[t];
      s.(tasks := s.tasks[t := k.(rust := Forgotten, channel := k.channel.(receiverOpen := false))])
    case Collect(t) =>
      var k := s.tasks[t];
      s.(tasks := s.tasks[t := k.(channel := AfterCollection(k.channel))])
    case RunBridgeCommand => RunHead(s)
    case StopRaises => s.(channel := s.channel[1..], isShutdown := true, stopLost := true)
    case LogRaises => Crash(s, false)
    case EnqueueRaises => Crash(s, true)
    case AwaitTasks => s.(loop := Draining)
    case PopCommand =>
      (match s.queue[0]
       case Execute(t) =>
         s.(queue := s.queue[1..], loop := Dispatching(t),
            tasks := s.tasks[t := s.tasks[t].(supervisor := Dispatched)])
       case Shutdown => s.(queue := s.queue[1..], loop := ShuttingDown))
    case Dispatch =>
      var t := s.loop.task;
      s.(loop := Popping, current := Running(t, SupervisorFiber),
         tasks := s.tasks[t := s.tasks[t].(supervisor := Started)])
    case Break => s.(loop := Broke)
    case BarrierRaises => s.(loop := Aborted)
    case Fiber(t, move) =>
      var (k, held) := LocalStep(s.tasks[t], HeldBy(s.current, t), move).value;
      s.(tasks := s.tasks[t := k], current := CurrentOf(t, held))
  }

  /** `after` is reached from `before` by the actions of `run`, each enabled when it is taken. */
  ghost predicate Reaches(before: State, run: seq<Action>, after: State)
    decreases |run|
  {
    if run == [] then before == after
    else Enabled(before, run[0]) && Reaches(Apply(before, run[0]), run[1..], after)
  }

  lemma OneStep(s: State, a: Action)
    requires Enabled(s, a)
    ensures Reaches(s, [a], Apply(s, a))
  {
    assert [a][1..] == [];
    assert Reaches(Apply(s, a), [], Apply(s, a));
  }

  lemma {:induction false} Extend(s0: State, run: seq<Action>, s: State, a: Action)
    requires Reaches(s0, run, s) && Enabled(s, a)
    ensures Reaches(s0, run + [a], Apply(s, a))
    decreases |run|
  {
    if run == [] {
      assert Reaches(Apply(s0, a), [], Apply(s, a));
      assert ([a] + run)[1..] == [];
      assert run + [a] == [a];
    } else {
      assert (run + [a])[1..] == run[1..] + [a];
      Extend(Apply(s0, run[0]), run[1..], s, a);
    }
  }

  lemma {:induction false} Chain(s0: State, run: seq<Action>, s: State, next: seq<Action>, s': State)
    requires Reaches(s0, run, s) && Reaches(s, next, s')
    ensures Reaches(s0, run + next, s')
    decreases |next|
  {
    if next == [] {
      assert run + next == run;
    } else {
      Extend(s0, run, s, next[0]);
      Chain(s0, run + [next[0]], Apply(s, next[0]), next[1..], s');
      assert run + [next[0]] + next[1..] == run + next;
    }
  }
}
