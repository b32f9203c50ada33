/** What every step of the task lifecycle keeps. */
module LifecycleInvariant {
  import opened Options
  import opened ResultChannel
  import opened Lifecycle

  // ------------------------------------------------------- one task by itself

  predicate BeforeWorker(p: SupervisorPc) {
    p == Idle || p == Queued || p == Dispatched || p.Abandoned? || p == Started
  }

  predicate AfterWorker(p: SupervisorPc) {
    p == Cleanup || p == FinishingSpan || p == Done
  }

  ghost predicate Phases(k: Task) {
    && (k.supervisor == Idle <==> k.submission != Accepted)
    && (k.cancellation != NotAsked ==> k.submission == Accepted)
    && (k.worker == Unspawned <==> BeforeWorker(k.supervisor))
    && (k.watcher == NoWatcher <==> BeforeWorker(k.supervisor) || k.supervisor == WorkerSpawned)
    && (AfterWorker(k.supervisor) ==> k.worker.Finished?)
    && (k.supervisor == FinishingSpan || k.supervisor == Done ==> k.watcher.Gone?)
    && k.runs == (if k.worker == Unspawned then 0 else 1)
    && k.spans == (if k.supervisor == Done || k.supervisor == Abandoned(true) then 1 else 0)
  }

  /** A worker between two points at which it can yield. */
  predicate Uninterruptible(w: WorkerPc) {
    !AtYieldPoint(w) && !w.Unspawned? && !w.Finished?
  }

  /** A fiber that has not yielded is the one that runs. */
  ghost predicate Holding(k: Task, held: Option<FiberKind>) {
    && (Uninterruptible(k.worker) ==> held == Some(WorkerFiber))
    && (held == Some(WorkerFiber) ==> !k.worker.Unspawned? && !k.worker.Finished?)
    && (k.watcher == Fresh || k.watcher == Stopping <==> held == Some(WatcherFiber))
    && (k.supervisor == Started || k.supervisor == Cleanup <==> held == Some(SupervisorFiber))
  }

  function TakenSignals(w: WatcherPc): nat {
    if w == Stopping || w == Gone(true) then 1 else 0
  }

  /** Every signal in the token came from the one cancel or from the worker's own end. */
  ghost predicate Signals(k: Task) {
    && k.token + TakenSignals(k.watcher)
       == (if k.cancellation == Pushed then 1 else 0) + (if k.worker.Finished? then 1 else 0)
    && k.stops <= 1
    && (k.stops == 1 ==> k.watcher == Gone(true) && k.cancellation == Pushed)
    && (k.watcher.Gone? ==> k.stops == 1 || k.worker.Finished?)
  }

  ghost predicate ReportsAtEnd(reports: seq<Report>, status: Status) {
    && (status == Completed ==> reports != [])
    && |reports| <= 2
    && (|reports| == 2 ==> reports[0].Success? && reports[1].Failure?)
  }

  ghost predicate ReportsFit(k: Task) {
    match k.worker
    case Unspawned | InBlock(_) | CallSuccess(_) => k.reports == []
    case LogSuccess => |k.reports| == 1 && k.reports[0].Success?
    case CallCancelled | Capture(_) | CallError(_) => k.reports == [] || (|k.reports| == 1 && k.reports[0].Success?)
    case LogCancelled => k.reports == [TASK_CANCELLED]
    case LogError => |k.reports| == 1 && k.reports[0].Failure?
    case Ensure(status) => ReportsAtEnd(k.reports, status)
    case Finished(status) => ReportsAtEnd(k.reports, status)
  }

  ghost predicate StopsFit(k: Task) {
    k.worker == InBlock(true) || k.worker == CallCancelled || k.worker == LogCancelled ==> k.stops == 1
  }

  ghost predicate SlotFits(k: Task) {
    && (k.channel.slot.Armed? ==> k.reports == [])
    && (k.channel.slot.Sent? ==> k.reports != [] && k.channel.slot.received == Translate(k.reports[0]))
    && (k.channel.slot.Lost? ==> k.reports != [] && k.rust == Forgotten)
    && (k.channel.slot.Dropped? ==> k.reports == [] && (k.submission == Refused || k.supervisor == Done || k.supervisor.Abandoned?))
    && (k.submission == Refused ==> k.channel.slot.Dropped?)
  }

  ghost predicate ReceiverFits(k: Task) {
    && (k.channel.receiverOpen <==> k.rust == Awaiting)
    && (k.rust.Resolved? && k.submission != Accepted ==>
          k.submission == Refused && k.rust.value == HandlerErr(Scheduler(SubmitFailed)))
    && (k.rust.Resolved? && k.submission == Accepted ==>
          Resolution(k.channel).Some? && k.rust.value == HandlerResultOf(Resolution(k.channel).value))
  }

  ghost predicate TaskInv(k: Task, held: Option<FiberKind>) {
    && Phases(k) && Holding(k, held) && Signals(k)
    && ReportsFit(k) && StopsFit(k) && SlotFits(k) && ReceiverFits(k)
  }

  lemma UserMoveKeepsTask(k: Task, held: Option<FiberKind>, m: WorkerMove)
    requires TaskInv(k, held) && AtYieldPoint(k.worker) && WorkerStep(k, held, m).Some?
    ensures var (k', held') := WorkerStep(k, held, m).value;
            TaskInv(k', held') && k'.supervisor == k.supervisor
  {
  }

  lemma CallKeepsTask(k: Task, held: Option<FiberKind>)
    requires TaskInv(k, held) && ReportAt(k.worker).Some? && WorkerStep(k, held, Proceed).Some?
    ensures var (k', held') := WorkerStep(k, held, Proceed).value;
            TaskInv(k', held') && k'.supervisor == k.supervisor
  {
  }

  lemma EndKeepsTask(k: Task, held: Option<FiberKind>)
    requires TaskInv(k, held) && k.worker.Ensure? && WorkerStep(k, held, Proceed).Some?
    ensures var (k', held') := WorkerStep(k, held, Proceed).value;
            TaskInv(k', held') && k'.supervisor == k.supervisor
  {
  }

  lemma WorkerKeepsTask(k: Task, held: Option<FiberKind>, m: WorkerMove)
    requires TaskInv(k, held) && WorkerStep(k, held, m).Some?
    ensures var (k', held') := WorkerStep(k, held, m).value;
            TaskInv(k', held') && k'.supervisor == k.supervisor
  {
    if AtYieldPoint(k.worker) {
      UserMoveKeepsTask(k, held, m);
    } else if k.worker.Ensure? {
      EndKeepsTask(k, held);
    } else {
      CallKeepsTask(k, held);
    }
  }

  lemma SpawnKeepsTask(k: Task, held: Option<FiberKind>)
    requires TaskInv(k, held) && SupervisorStep(k, held).Some?
    requires k.supervisor == Started || k.supervisor == WorkerSpawned
    ensures var (k', held') := SupervisorStep(k, held).value; TaskInv(k', held')
  {
  }

  lemma WindUpKeepsTask(k: Task, held: Option<FiberKind>)
    requires TaskInv(k, held) && SupervisorStep(k, held).Some?
    requires k.supervisor != Started && k.supervisor != WorkerSpawned
    ensures var (k', held') := SupervisorStep(k, held).value; TaskInv(k', held')
  {
  }

  lemma SupervisorKeepsTask(k: Task, held: Option<FiberKind>)
    requires TaskInv(k, held) && SupervisorStep(k, held).Some?
    ensures var (k', held') := SupervisorStep(k, held).value; TaskInv(k', held')
  {
    if k.supervisor == Started || k.supervisor == WorkerSpawned {
      SpawnKeepsTask(k, held);
    } else {
      WindUpKeepsTask(k, held);
    }
  }

  lemma WatcherKeepsTask(k: Task, held: Option<FiberKind>)
    requires TaskInv(k, held) && WatcherStep(k, held).Some?
    ensures var (k', held') := WatcherStep(k, held).value;
            TaskInv(k', held') && k'.supervisor == k.supervisor
  {
  }

  /** The parts of a task that only the bridge and Rust change. */
  predicate SameOutside(k: Task, k': Task) {
    && k'.submission == k.submission && k'.cancellation == k.cancellation && k'.rust == k.rust
  }

  lemma LocalKeepsTask(k: Task, held: Option<FiberKind>, m: Move)
    requires TaskInv(k, held) && LocalStep(k, held, m).Some?
    ensures var (k', held') := LocalStep(k, held, m).value;
            && TaskInv(k', held') && SameOutside(k, k')
            && HasStarted(k) && k.supervisor != Done && HasStarted(k')
  {
    match m
    case Supervise => SupervisorKeepsTask(k, held);
    case Watch => WatcherKeepsTask(k, held);
    case Work(move) => WorkerKeepsTask(k, held, move);
  }

  // --------------------------------------------------------------- the system

  /** No command waits twice; only stop requests may repeat in the bridge channel. */
  ghost predicate ChannelInv(s: State) {
    && (forall i :: 0 <= i < |s.channel| ==> s.channel[i].StopProcessor? || s.channel[i].task < |s.tasks|)
    && (forall i, j :: 0 <= i < j < |s.channel| ==> s.channel[i] != s.channel[j] || s.channel[i].StopProcessor?)
    && (forall t :: 0 <= t < |s.tasks| ==> (Submit(t) in s.channel <==> s.tasks[t].submission == Submitting))
    && (forall t :: 0 <= t < |s.tasks| ==> (Cancel(t) in s.channel <==> s.tasks[t].cancellation == Asked))
  }

  /** Shutdown waits in the queue from the stop request until it is popped, and nothing waits behind it. */
  ghost predicate QueueInv(s: State) {
    && (forall i :: 0 <= i < |s.queue| ==> s.queue[i].Shutdown? || s.queue[i].task < |s.tasks|)
    && (forall i, j :: 0 <= i < j < |s.queue| ==> s.queue[i] != s.queue[j])
    && (forall t :: 0 <= t < |s.tasks| ==> (Execute(t) in s.queue <==> s.tasks[t].supervisor == Queued))
    && (forall i :: 0 <= i < |s.queue| && s.queue[i] == Shutdown ==> i == |s.queue| - 1)
    && (Shutdown in s.queue ==> s.isShutdown && !s.stopLost)
    && (s.isShutdown && !s.stopLost && (s.loop == Popping || s.loop.Dispatching?) ==> Shutdown in s.queue)
  }

  /** The loop has left the Shutdown command behind it. */
  predicate PastShutdown(p: LoopPc) {
    p == ShuttingDown || p == Draining || p == Broke || p == Aborted || p == Crashed(None)
  }

  ghost predicate LoopInv(s: State) {
    && (s.loop.Dispatching? ==> s.loop.task < |s.tasks|)
    && (s.loop.Crashed? && s.loop.popped.Some? ==> s.loop.popped.value < |s.tasks|)
    && (forall t :: 0 <= t < |s.tasks| ==> (s.tasks[t].supervisor == Dispatched <==> s.loop == Dispatching(t)))
    && (forall t :: 0 <= t < |s.tasks| ==> (s.tasks[t].supervisor.Abandoned? <==> s.loop == Crashed(Some(t))))
    && (PastShutdown(s.loop) ==> s.isShutdown && !s.stopLost && s.queue == [])
    && (s.stopLost ==> s.isShutdown)
    && (s.loop == Broke ==> forall t :: 0 <= t < |s.tasks| ==> SupervisorOver(s.tasks[t]) && !TaskFailed(s.tasks[t]))
    && (s.loop == Aborted ==> exists t :: 0 <= t < |s.tasks| && TaskFailed(s.tasks[t]))
  }

  ghost predicate TasksInv(s: State) {
    && (s.current.Running? ==> s.current.task < |s.tasks|)
    && forall t :: 0 <= t < |s.tasks| ==> TaskInv(s.tasks[t], HeldBy(s.current, t))
  }

  ghost predicate Inv(s: State) {
    TasksInv(s) && ChannelInv(s) && QueueInv(s) && LoopInv(s)
  }

  /** Changing one task, and the running fiber at most to or from that task, is a local matter. */
  lemma OneTaskChanges(s: State, s': State, t: nat, k: Task)
    requires TasksInv(s) && t < |s.tasks|
    requires s'.tasks == s.tasks[t := k] && TaskInv(k, HeldBy(s'.current, t))
    requires s'.current.Running? ==> s'.current.task < |s.tasks|
    requires forall u: nat :: u != t ==> HeldBy(s'.current, u) == HeldBy(s.current, u)
    ensures TasksInv(s')
  {
    forall u | 0 <= u < |s'.tasks|
      ensures TaskInv(s'.tasks[u], HeldBy(s'.current, u))
    {
      assert u != t ==> TaskInv(s.tasks[u], HeldBy(s.current, u));
    }
  }

  /** The bridge channel sees a task only through its submission and cancellation. */
  lemma ChannelUnaffected(s: State, s': State, t: nat, k: Task)
    requires ChannelInv(s) && t < |s.tasks| && s'.tasks == s.tasks[t := k] && s'.channel == s.channel
    requires k.submission == s.tasks[t].submission && k.cancellation == s.tasks[t].cancellation
    ensures ChannelInv(s')
  {
  }

  /** The queue sees a task only through whether it is queued. */
  lemma QueueUnaffected(s: State, s': State, t: nat, k: Task)
    requires QueueInv(s) && t < |s.tasks| && s'.tasks == s.tasks[t := k]
    requires s'.queue == s.queue && s'.isShutdown == s.isShutdown && s'.stopLost == s.stopLost && s'.loop == s.loop
    requires k.supervisor == Queued <==> s.tasks[t].supervisor == Queued
    ensures QueueInv(s')
  {
  }

  /** The loop sees a task only through whether it is dispatched or over. */
  lemma LoopUnaffected(s: State, s': State, t: nat, k: Task)
    requires LoopInv(s) && t < |s.tasks| && s'.tasks == s.tasks[t := k]
    requires s'.loop == s.loop && s'.queue == s.queue && s'.isShutdown == s.isShutdown && s'.stopLost == s.stopLost
    requires k.supervisor == Dispatched <==> s.tasks[t].supervisor == Dispatched
    requires k.supervisor.Abandoned? <==> s.tasks[t].supervisor.Abandoned?
    requires SupervisorOver(s.tasks[t]) ==> k.supervisor == s.tasks[t].supervisor && k.worker == s.tasks[t].worker
    ensures LoopInv(s')
  {
    if s.loop == Aborted {
      var f :| 0 <= f < |s.tasks| && TaskFailed(s.tasks[f]);
      assert TaskFailed(s'.tasks[f]);
    }
    if s.loop == Broke {
      assert SupervisorOver(s.tasks[t]);
      forall u | 0 <= u < |s'.tasks|
        ensures SupervisorOver(s'.tasks[u]) && !TaskFailed(s'.tasks[u])
      {
        assert u != t ==> s'.tasks[u] == s.tasks[u];
      }
    }
  }

  /** A change of one task that the channel, the queue and the loop do not see. */
  lemma QuietChange(s: State, s': State, t: nat, k: Task)
    requires ChannelInv(s) && QueueInv(s) && LoopInv(s) && t < |s.tasks|
    requires s' == s.(tasks := s.tasks[t := k], current := s'.current)
    requires k.submission == s.tasks[t].submission && k.cancellation == s.tasks[t].cancellation
    requires k.supervisor == Queued <==> s.tasks[t].supervisor == Queued
    requires k.supervisor == Dispatched <==> s.tasks[t].supervisor == Dispatched
    requires k.supervisor.Abandoned? <==> s.tasks[t].supervisor.Abandoned?
    requires SupervisorOver(s.tasks[t]) ==> k.supervisor == s.tasks[t].supervisor && k.worker == s.tasks[t].worker
    ensures ChannelInv(s') && QueueInv(s') && LoopInv(s')
  {
    ChannelUnaffected(s, s', t, k);
    QueueUnaffected(s, s', t, k);
    LoopUnaffected(s, s', t, k);
  }

  lemma FiberKeeps(s: State, t: nat, move: Move)
    requires Inv(s) && Enabled(s, Fiber(t, move))
    ensures Inv(Apply(s, Fiber(t, move)))
  {
    LocalKeepsTask(s.tasks[t], HeldBy(s.current, t), move);
    var s' := Apply(s, Fiber(t, move));
    var k := s'.tasks[t];
    OneTaskChanges(s, s', t, k);
    QuietChange(s, s', t, k);
  }

  /** A scheduled task starts in good order, and its submit command is new to the channel. */
  lemma ScheduleKeepsTasks(s: State, fuel: nat)
    requires TasksInv(s)
    ensures TasksInv(Apply(s, Schedule(fuel)))
  {
    var s' := Apply(s, Schedule(fuel));
    forall u | 0 <= u < |s'.tasks|
      ensures TaskInv(s'.tasks[u], HeldBy(s'.current, u))
    {
      assert u < |s.tasks| ==> TaskInv(s.tasks[u], HeldBy(s.current, u));
    }
  }

  lemma ScheduleKeepsChannel(s: State, fuel: nat)
    requires ChannelInv(s)
    ensures ChannelInv(Apply(s, Schedule(fuel)))
  {
    var s' := Apply(s, Schedule(fuel));
    assert forall t :: 0 <= t < |s.tasks| ==> s'.tasks[t] == s.tasks[t];
    assert forall c :: c in s'.channel <==> c in s.channel || c == Submit(|s.tasks|);
  }

  lemma ScheduleKeepsLoop(s: State, fuel: nat)
    requires QueueInv(s) && LoopInv(s)
    ensures QueueInv(Apply(s, Schedule(fuel))) && LoopInv(Apply(s, Schedule(fuel)))
  {
    var s' := Apply(s, Schedule(fuel));
    assert forall t :: 0 <= t < |s.tasks| ==> s'.tasks[t] == s.tasks[t];
    if s.loop == Aborted {
      var f :| 0 <= f < |s.tasks| && TaskFailed(s.tasks[f]);
      assert TaskFailed(s'.tasks[f]);
    }
  }

  lemma ScheduleKeeps(s: State, fuel: nat)
    requires Inv(s)
    ensures Inv(Apply(s, Schedule(fuel)))
  {
    ScheduleKeepsTasks(s, fuel);
    ScheduleKeepsChannel(s, fuel);
    ScheduleKeepsLoop(s, fuel);
  }

  lemma RequestEntersChannel(s: State, t: nat)
    requires ChannelInv(s) && Enabled(s, RequestCancel(t))
    ensures ChannelInv(Apply(s, RequestCancel(t)))
  {
    var s' := Apply(s, RequestCancel(t));
    assert Cancel(t) !in s.channel;
    assert forall c :: c in s'.channel <==> c in s.channel || c == Cancel(t);
  }

  lemma RequestCancelKeeps(s: State, t: nat)
    requires Inv(s) && Enabled(s, RequestCancel(t))
    ensures Inv(Apply(s, RequestCancel(t)))
  {
    var s' := Apply(s, RequestCancel(t));
    var k := s.tasks[t].(cancellation := Asked);
    assert TaskInv(s.tasks[t], HeldBy(s.current, t));
    RequestEntersChannel(s, t);
    OneTaskChanges(s, s', t, k);
    QueueUnaffected(s, s', t, k);
    LoopUnaffected(s, s', t, k);
  }

  /** Nothing but the Rust future or the result channel of one task changes. */
  lemma OutsideChangeKeeps(s: State, s': State, t: nat, k: Task)
    requires Inv(s) && t < |s.tasks| && s' == s.(tasks := s.tasks[t := k])
    requires TaskInv(k, HeldBy(s.current, t))
    requires k == s.tasks[t].(rust := k.rust, channel := k.channel)
    ensures Inv(s')
  {
    OneTaskChanges(s, s', t, k);
    QuietChange(s, s', t, k);
  }

  lemma ReceiveKeeps(s: State, t: nat)
    requires Inv(s) && Enabled(s, Receive(t))
    ensures Inv(Apply(s, Receive(t)))
  {
    var s' := Apply(s, Receive(t));
    assert TaskInv(s.tasks[t], HeldBy(s.current, t));
    OutsideChangeKeeps(s, s', t, s'.tasks[t]);
  }

  lemma DropFutureKeeps(s: State, t: nat)
    requires Inv(s) && Enabled(s, DropFuture(t))
    ensures Inv(Apply(s, DropFuture(t)))
  {
    var s' := Apply(s, DropFuture(t));
    assert TaskInv(s.tasks[t], HeldBy(s.current, t));
    OutsideChangeKeeps(s, s', t, s'.tasks[t]);
  }

  lemma CollectKeeps(s: State, t: nat)
    requires Inv(s) && Enabled(s, Collect(t))
    ensures Inv(Apply(s, Collect(t)))
  {
    var s' := Apply(s, Collect(t));
    assert TaskInv(s.tasks[t], HeldBy(s.current, t));
    OutsideChangeKeeps(s, s', t, s'.tasks[t]);
  }

  /** Running the head of the channel takes it out of the channel, and it was there once. */
  lemma HeadLeaves(s: State)
    requires ChannelInv(s) && s.channel != []
    ensures !s.channel[0].StopProcessor? ==> s.channel[0] !in s.channel[1..]
    ensures forall c :: c != s.channel[0] ==> (c in s.channel[1..] <==> c in s.channel)
  {
    assert s.channel == [s.channel[0]] + s.channel[1..];
  }

  lemma SubmitLeavesChannel(s: State)
    requires ChannelInv(s) && Enabled(s, RunBridgeCommand) && s.channel[0].Submit?
    ensures ChannelInv(RunHead(s))
  {
    HeadLeaves(s);
  }

  lemma SubmitKeepsTasks(s: State)
    requires Inv(s) && Enabled(s, RunBridgeCommand) && s.channel[0].Submit?
    ensures TasksInv(RunHead(s))
  {
    var t, s' := s.channel[0].task, RunHead(s);
    assert s.channel[0] in s.channel && s.tasks[t].submission == Submitting;
    assert TaskInv(s.tasks[t], HeldBy(s.current, t));
    OneTaskChanges(s, s', t, s'.tasks[t]);
  }

  lemma RefusedLeavesLoop(s: State)
    requires Inv(s) && Enabled(s, RunBridgeCommand) && s.channel[0].Submit? && s.isShutdown
    ensures QueueInv(RunHead(s)) && LoopInv(RunHead(s))
  {
    var t, s' := s.channel[0].task, RunHead(s);
    var k := s'.tasks[t];
    assert s.channel[0] in s.channel && s.tasks[t].submission == Submitting;
    assert TaskInv(s.tasks[t], HeldBy(s.current, t));
    QueueUnaffected(s, s', t, k);
    LoopUnaffected(s, s', t, k);
  }

  lemma AcceptedEntersQueue(s: State)
    requires ChannelInv(s) && QueueInv(s) && LoopInv(s)
    requires Enabled(s, RunBridgeCommand) && s.channel[0].Submit? && !s.isShutdown
    requires s.tasks[s.channel[0].task].supervisor == Idle
    ensures QueueInv(RunHead(s)) && LoopInv(RunHead(s))
  {
    var t, s' := s.channel[0].task, RunHead(s);
    assert Shutdown !in s.queue && Execute(t) !in s.queue;
    assert forall c :: c in s'.queue <==> c in s.queue || c == Execute(t);
  }

  lemma RunSubmitKeeps(s: State)
    requires Inv(s) && Enabled(s, RunBridgeCommand) && s.channel[0].Submit?
    ensures Inv(RunHead(s))
  {
    SubmitLeavesChannel(s);
    SubmitKeepsTasks(s);
    if s.isShutdown {
      RefusedLeavesLoop(s);
    } else {
      var t := s.channel[0].task;
      assert s.channel[0] in s.channel && s.tasks[t].submission == Submitting;
      assert TaskInv(s.tasks[t], HeldBy(s.current, t));
      AcceptedEntersQueue(s);
    }
  }

  lemma CancelLeavesChannel(s: State)
    requires ChannelInv(s) && Enabled(s, RunBridgeCommand) && s.channel[0].Cancel?
    ensures ChannelInv(RunHead(s))
  {
    HeadLeaves(s);
  }

  lemma RunCancelKeeps(s: State)
    requires Inv(s) && Enabled(s, RunBridgeCommand) && s.channel[0].Cancel?
    ensures Inv(RunHead(s))
  {
    var t, s' := s.channel[0].task, RunHead(s);
    var k := s'.tasks[t];
    assert s.channel[0] in s.channel && s.tasks[t].cancellation == Asked;
    assert TaskInv(s.tasks[t], HeldBy(s.current, t));
    CancelLeavesChannel(s);
    OneTaskChanges(s, s', t, k);
    QueueUnaffected(s, s', t, k);
    LoopUnaffected(s, s', t, k);
  }

  lemma StopLeavesChannel(s: State)
    requires ChannelInv(s) && Enabled(s, RunBridgeCommand) && s.channel[0].StopProcessor?
    ensures ChannelInv(RunHead(s))
  {
    HeadLeaves(s);
  }

  lemma StopEntersQueue(s: State)
    requires QueueInv(s) && LoopInv(s) && Enabled(s, RunBridgeCommand) && s.channel[0].StopProcessor?
    ensures QueueInv(RunHead(s)) && LoopInv(RunHead(s))
  {
    if !s.isShutdown && ThreadAlive(s) {
      var s' := RunHead(s);
      assert Shutdown !in s.queue;
      assert forall c :: c in s'.queue <==> c in s.queue || c == Shutdown;
    }
  }

  lemma RunStopKeeps(s: State)
    requires Inv(s) && Enabled(s, RunBridgeCommand) && s.channel[0].StopProcessor?
    ensures Inv(RunHead(s))
  {
    StopLeavesChannel(s);
    StopEntersQueue(s);
  }

  lemma RunHeadKeeps(s: State)
    requires Inv(s) && Enabled(s, RunBridgeCommand)
    ensures Inv(RunHead(s))
  {
    match s.channel[0]
    case Submit(_) => RunSubmitKeeps(s);
    case Cancel(_) => RunCancelKeeps(s);
    case StopProcessor => RunStopKeeps(s);
  }

  lemma PoppedExecuteLeavesQueue(s: State, head: Command, rest: seq<Command>)
    requires QueueInv(s) && LoopInv(s) && Enabled(s, PopCommand)
    requires s.queue == [head] + rest && head.Execute?
    ensures QueueInv(Apply(s, PopCommand))
  {
    var s' := Apply(s, PopCommand);
    assert s'.queue == rest;
    assert head in s.queue && head !in rest;
    assert forall c :: c in s.queue <==> c == head || c in rest;
    forall i | 0 <= i < |rest| && rest[i] == Shutdown
      ensures i == |rest| - 1
    {
      assert s.queue[i + 1] == Shutdown;
    }
    forall i, j | 0 <= i < j < |rest|
      ensures rest[i] != rest[j]
    {
      assert s.queue[i + 1] == rest[i] && s.queue[j + 1] == rest[j];
    }
  }

  lemma PoppedExecuteEntersLoop(s: State)
    requires QueueInv(s) && LoopInv(s) && Enabled(s, PopCommand) && s.queue[0].Execute?
    ensures LoopInv(Apply(s, PopCommand))
  {
  }

  lemma PoppedShutdownEmptiesQueue(s: State)
    requires QueueInv(s) && LoopInv(s) && Enabled(s, PopCommand) && s.queue[0] == Shutdown
    ensures QueueInv(Apply(s, PopCommand)) && LoopInv(Apply(s, PopCommand))
  {
    assert |s.queue| == 1;
    assert s.queue == [Shutdown];
  }

  lemma PoppedExecuteKeepsTasks(s: State)
    requires TasksInv(s) && ChannelInv(s) && QueueInv(s) && Enabled(s, PopCommand) && s.queue[0].Execute?
    ensures TasksInv(Apply(s, PopCommand)) && ChannelInv(Apply(s, PopCommand))
  {
    var s', t := Apply(s, PopCommand), s.queue[0].task;
    assert s.queue[0] in s.queue && s.tasks[t].supervisor == Queued;
    assert TaskInv(s.tasks[t], HeldBy(s.current, t));
    OneTaskChanges(s, s', t, s'.tasks[t]);
    ChannelUnaffected(s, s', t, s'.tasks[t]);
  }

  lemma PopKeeps(s: State)
    requires Inv(s) && Enabled(s, PopCommand)
    ensures Inv(Apply(s, PopCommand))
  {
    if s.queue[0].Shutdown? {
      PoppedShutdownEmptiesQueue(s);
    } else {
      assert s.queue == [s.queue[0]] + s.queue[1..];
      PoppedExecuteLeavesQueue(s, s.queue[0], s.queue[1..]);
      PoppedExecuteEntersLoop(s);
      PoppedExecuteKeepsTasks(s);
    }
  }

  lemma DispatchedLeavesLoop(s: State)
    requires QueueInv(s) && LoopInv(s) && Enabled(s, Dispatch)
    ensures QueueInv(Apply(s, Dispatch)) && LoopInv(Apply(s, Dispatch))
  {
  }

  lemma DispatchKeeps(s: State)
    requires Inv(s) && Enabled(s, Dispatch)
    ensures Inv(Apply(s, Dispatch))
  {
    var t, s' := s.loop.task, Apply(s, Dispatch);
    var k := s'.tasks[t];
    assert TaskInv(s.tasks[t], HeldBy(s.current, t));
    DispatchedLeavesLoop(s);
    OneTaskChanges(s, s', t, k);
    ChannelUnaffected(s, s', t, k);
  }

  lemma DropSchedulerKeeps(s: State)
    requires Inv(s)
    ensures Inv(Apply(s, DropScheduler))
  {
    var s' := Apply(s, DropScheduler);
    assert forall c :: c in s'.channel <==> c in s.channel || c == StopProcessor;
  }

  lemma LoopEndKeepsLoop(s: State, a: Action)
    requires QueueInv(s) && LoopInv(s) && Enabled(s, a) && (a.AwaitTasks? || a.Break? || a.BarrierRaises?)
    ensures QueueInv(Apply(s, a)) && LoopInv(Apply(s, a))
  {
  }

  lemma LoopEndKeeps(s: State, a: Action)
    requires Inv(s) && Enabled(s, a) && (a.AwaitTasks? || a.Break? || a.BarrierRaises?)
    ensures Inv(Apply(s, a))
  {
    LoopEndKeepsLoop(s, a);
  }

  lemma StopRaisesKeeps(s: State)
    requires Inv(s) && Enabled(s, StopRaises)
    ensures Inv(Apply(s, StopRaises))
  {
    HeadLeaves(s);
  }

  /** A popped task that the loop drops is out of every queue and has no fiber. */
  lemma CrashKeepsTasks(s: State, spanFinished: bool)
    requires Inv(s) && s.current == EventLoop && s.loop.Dispatching?
    ensures TasksInv(Crash(s, spanFinished)) && ChannelInv(Crash(s, spanFinished))
  {
    var t, s' := s.loop.task, Crash(s, spanFinished);
    assert s.tasks[t].supervisor == Dispatched;
    assert TaskInv(s.tasks[t], HeldBy(s.current, t));
    OneTaskChanges(s, s', t, s'.tasks[t]);
    ChannelUnaffected(s, s', t, s'.tasks[t]);
  }

  lemma CrashKeepsLoop(s: State, spanFinished: bool)
    requires QueueInv(s) && LoopInv(s) && s.loop.Dispatching?
    ensures QueueInv(Crash(s, spanFinished)) && LoopInv(Crash(s, spanFinished))
  {
    var t := s.loop.task;
    assert s.tasks[t].supervisor == Dispatched;
  }

  lemma LoopRaisesKeeps(s: State, a: Action)
    requires Inv(s) && Enabled(s, a) && LoopRaises(a)
    ensures Inv(Apply(s, a))
  {
    if s.loop.Dispatching? {
      CrashKeepsTasks(s, a.EnqueueRaises?);
      CrashKeepsLoop(s, a.EnqueueRaises?);
    }
  }

  lemma OutsideStepKeeps(s: State, a: Action)
    requires Inv(s) && Enabled(s, a) && !OnProcessingThread(a)
    ensures Inv(Apply(s, a))
  {
    match a
    case Schedule(fuel) => ScheduleKeeps(s, fuel);
    case DropScheduler => DropSchedulerKeeps(s);
    case RequestCancel(t) => RequestCancelKeeps(s, t);
    case Receive(t) => ReceiveKeeps(s, t);
    case DropFuture(t) => DropFutureKeeps(s, t);
    case Collect(t) => CollectKeeps(s, t);
    case RunBridgeCommand => RunHeadKeeps(s);
    case StopRaises => StopRaisesKeeps(s);
  }

  lemma ProcessingStepKeeps(s: State, a: Action)
    requires Inv(s) && Enabled(s, a) && OnProcessingThread(a)
    ensures Inv(Apply(s, a))
  {
    match a
    case PopCommand => PopKeeps(s);
    case Dispatch => DispatchKeeps(s);
    case LogRaises | EnqueueRaises => LoopRaisesKeeps(s, a);
    case AwaitTasks | Break | BarrierRaises => LoopEndKeeps(s, a);
    case Fiber(t, move) => FiberKeeps(s, t, move);
  }

  /** Every step keeps the invariant. */
  lemma StepKeeps(s: State, a: Action)
    requires Inv(s) && Enabled(s, a)
    ensures Inv(Apply(s, a))
  {
    if OnProcessingThread(a) {
      ProcessingStepKeeps(s, a);
    } else {
      OutsideStepKeeps(s, a);
    }
  }

  /** The invariant holds in every state of every run. */
  lemma {:induction false} RunKeeps(s: State, run: seq<Action>, s': State)
    requires Inv(s) && Reaches(s, run, s')
    ensures Inv(s')
    decreases |run|
  {
    if run != [] {
      StepKeeps(s, run[0]);
      RunKeeps(Apply(s, run[0]), run[1..], s');
    }
  }

  lemma InitialIsInOrder()
    ensures Inv(INITIAL)
  {
  }

  lemma ReachableKeeps(run: seq<Action>, s: State)
    requires Reaches(INITIAL, run, s)
    ensures Inv(s)
  {
    InitialIsInOrder();
    RunKeeps(INITIAL, run, s);
  }

  lemma ReachableTask(run: seq<Action>, s: State, t: nat)
    requires Reaches(INITIAL, run, s) && t < |s.tasks|
    ensures TaskInv(s.tasks[t], HeldBy(s.current, t))
  {
    ReachableKeeps(run, s);
  }
}
