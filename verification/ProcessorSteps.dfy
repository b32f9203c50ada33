/** Every step of the transition system is an operation on the objects of the processor, or leaves them alone. */
module ProcessorSteps {
  import opened Options
  import opened Lifecycle
  import opened LifecycleInvariant
  import opened Processor

  function SignalsOf(tasks: seq<Task>): map<nat, nat> {
    map t | 0 <= t < |tasks| && tasks[t].submission == Accepted :: tasks[t].token
  }

  function RunsOf(tasks: seq<Task>): map<nat, nat> {
    map t | 0 <= t < |tasks| && tasks[t].submission == Accepted :: tasks[t].runs
  }

  function ViewOf(s: State): View {
    View(s.isShutdown, s.queue, ThreadAlive(s), SignalsOf(s.tasks), RunsOf(s.tasks))
  }

  /** The operation on the objects that a step of the system is. */
  function OperationOf(s: State, a: Action): Operation
    requires Enabled(s, a)
  {
    match a
    case RunBridgeCommand =>
      (match s.channel[0]
       case Submit(t) => SubmitTask(t)
       case Cancel(t) => SignalToken(t)
       case StopProcessor => StopLoop(false))
    case StopRaises => StopLoop(true)
    case PopCommand => PopQueue
    case Fiber(t, Watch) => if s.tasks[t].watcher == Stopping then Nothing else TakeSignal(t)
    case Fiber(t, Work(_)) => if s.tasks[t].worker.Ensure? then SignalToken(t) else Nothing
    case Fiber(t, Supervise) => if s.tasks[t].supervisor == SupervisorPc.Started then CallBlock(t) else Nothing
    case _ => Nothing
  }

  /** Equal but for the life of the thread, which no operation changes. */
  predicate SameObjects(v: View, w: View) { v == w.(alive := v.alive) }

  /** Changing one task's token and block changes its entries in the view. */
  lemma SignalsAfterUpdate(tasks: seq<Task>, t: nat, k: Task)
    requires t < |tasks| && k.submission == Accepted
    ensures SignalsOf(tasks[t := k]) == SignalsOf(tasks)[t := k.token]
    ensures RunsOf(tasks[t := k]) == RunsOf(tasks)[t := k.runs]
  {
  }

  /** A task that is not accepted has none, and one whose token and block stay keeps them. */
  lemma SignalsKept(tasks: seq<Task>, t: nat, k: Task)
    requires t < |tasks| && (k.submission == Accepted <==> tasks[t].submission == Accepted)
    requires k.submission == Accepted ==> k.token == tasks[t].token && k.runs == tasks[t].runs
    ensures SignalsOf(tasks[t := k]) == SignalsOf(tasks) && RunsOf(tasks[t := k]) == RunsOf(tasks)
  {
  }

  lemma SignalsOfNew(tasks: seq<Task>, k: Task)
    requires k.submission != Accepted
    ensures SignalsOf(tasks + [k]) == SignalsOf(tasks) && RunsOf(tasks + [k]) == RunsOf(tasks)
  {
  }

  lemma SubmittingIsFresh(k: Task, held: Option<FiberKind>)
    requires TaskInv(k, held) && k.submission == Submitting
    ensures k.token == 0 && k.runs == 0
  {
  }

  lemma SubmitIsOperation(s: State, t: nat)
    requires Enabled(s, RunBridgeCommand) && s.channel[0] == Submit(t)
    requires s.tasks[t].submission == Submitting && s.tasks[t].token == 0 && s.tasks[t].runs == 0
    ensures SameObjects(ViewOf(RunHead(s)), AfterSubmit(ViewOf(s), t))
  {
    if s.isShutdown {
      SignalsKept(s.tasks, t, RunHead(s).tasks[t]);
    } else {
      SignalsAfterUpdate(s.tasks, t, RunHead(s).tasks[t]);
    }
  }

  /** One more or one less signal in a token, or a run of a block, in the view. */
  lemma SignalInView(v: View, tasks: seq<Task>, t: nat, k: Task)
    requires t < |tasks| && tasks[t].submission == Accepted && k.submission == Accepted && k.runs == tasks[t].runs
    requires v.signals == SignalsOf(tasks) && v.runs == RunsOf(tasks)
    ensures k.token == tasks[t].token + 1 ==>
              AfterSignal(v, t) == v.(signals := SignalsOf(tasks[t := k]), runs := RunsOf(tasks[t := k]))
    ensures k.token == tasks[t].token - 1 ==>
              AfterTake(v, t) == v.(signals := SignalsOf(tasks[t := k]), runs := RunsOf(tasks[t := k]))
  {
    SignalsAfterUpdate(tasks, t, k);
    assert RunsOf(tasks)[t := k.runs] == RunsOf(tasks);
  }

  lemma RunInView(v: View, tasks: seq<Task>, t: nat, k: Task)
    requires t < |tasks| && tasks[t].submission == Accepted && k.submission == Accepted
    requires k.token == tasks[t].token && k.runs == 1
    requires v.signals == SignalsOf(tasks) && v.runs == RunsOf(tasks)
    ensures AfterRun(v, t) == v.(signals := SignalsOf(tasks[t := k]), runs := RunsOf(tasks[t := k]))
  {
    SignalsAfterUpdate(tasks, t, k);
    assert SignalsOf(tasks)[t := k.token] == SignalsOf(tasks);
  }

  lemma CancelIsOperation(s: State, t: nat)
    requires Enabled(s, RunBridgeCommand) && s.channel[0] == Cancel(t) && s.tasks[t].submission == Accepted
    ensures SameObjects(ViewOf(RunHead(s)), AfterSignal(ViewOf(s), t))
  {
    SignalInView(ViewOf(s), s.tasks, t, RunHead(s).tasks[t]);
  }

  /** What the head command's task is like when its command runs. */
  lemma HeadTask(s: State)
    requires TasksInv(s) && ChannelInv(s) && Enabled(s, RunBridgeCommand) && !s.channel[0].StopProcessor?
    ensures var k := s.tasks[s.channel[0].task];
            if s.channel[0].Submit? then k.submission == Submitting && k.token == 0 && k.runs == 0
            else k.submission == Accepted
  {
    var t := s.channel[0].task;
    assert s.channel[0] in s.channel;
    assert TaskInv(s.tasks[t], HeldBy(s.current, t));
    if s.channel[0].Submit? {
      SubmittingIsFresh(s.tasks[t], HeldBy(s.current, t));
    }
  }

  lemma BridgeCommandIsOperation(s: State)
    requires TasksInv(s) && ChannelInv(s) && Enabled(s, RunBridgeCommand)
    ensures SameObjects(ViewOf(RunHead(s)), Perform(ViewOf(s), OperationOf(s, RunBridgeCommand)))
  {
    if !s.channel[0].StopProcessor? {
      HeadTask(s);
    }
    match s.channel[0]
    case Submit(t) => SubmitIsOperation(s, t);
    case Cancel(t) => CancelIsOperation(s, t);
    case StopProcessor =>
  }

  /** What a fiber step does to its task's token and block. */
  lemma LocalStepIsOperation(k: Task, held: Option<FiberKind>, move: Move)
    requires TaskInv(k, held) && LocalStep(k, held, move).Some?
    ensures var k' := LocalStep(k, held, move).value.0;
            && k.submission == Accepted && k'.submission == Accepted
            && k'.token == (match move
                            case Watch => if k.watcher == Stopping || k.token == 0 then k.token else k.token - 1
                            case Work(_) => if k.worker.Ensure? then k.token + 1 else k.token
                            case Supervise => k.token)
            && k'.runs == (if move == Supervise && k.supervisor == SupervisorPc.Started then 1 else k.runs)
  {
    LocalKeepsTask(k, held, move);
  }

  lemma TaskChangeIsOperation(s: State, s': State, t: nat, k: Task, op: Operation)
    requires t < |s.tasks| && s.tasks[t].submission == Accepted && k.submission == Accepted
    requires s' == s.(tasks := s.tasks[t := k], current := s'.current)
    requires match op
             case SignalToken(u) => u == t && k.token == s.tasks[t].token + 1 && k.runs == s.tasks[t].runs
             case TakeSignal(u) =>
               u == t && k.runs == s.tasks[t].runs &&
               k.token == if s.tasks[t].token == 0 then 0 else s.tasks[t].token - 1
             case CallBlock(u) => u == t && k.token == s.tasks[t].token && k.runs == 1
             case Nothing => k.token == s.tasks[t].token && k.runs == s.tasks[t].runs
             case _ => false
    ensures SameObjects(ViewOf(s'), Perform(ViewOf(s), op))
  {
    if op.CallBlock? {
      RunInView(ViewOf(s), s.tasks, t, k);
    } else {
      SignalInView(ViewOf(s), s.tasks, t, k);
      if k.token == s.tasks[t].token && k.runs == s.tasks[t].runs {
        SignalsKept(s.tasks, t, k);
      }
    }
  }

  lemma FiberStepIsOperation(s: State, t: nat, move: Move)
    requires Enabled(s, Fiber(t, move)) && TaskInv(s.tasks[t], HeldBy(s.current, t))
    ensures SameObjects(ViewOf(Apply(s, Fiber(t, move))), Perform(ViewOf(s), OperationOf(s, Fiber(t, move))))
  {
    LocalStepIsOperation(s.tasks[t], HeldBy(s.current, t), move);
    var s' := Apply(s, Fiber(t, move));
    TaskChangeIsOperation(s, s', t, s'.tasks[t], OperationOf(s, Fiber(t, move)));
  }

  /** Rust's own steps do not touch the objects. */
  lemma RustStepIsNothing(s: State, a: Action)
    requires Enabled(s, a) && !OnProcessingThread(a) && !a.RunBridgeCommand? && !a.StopRaises?
    ensures SameObjects(ViewOf(Apply(s, a)), Perform(ViewOf(s), OperationOf(s, a)))
  {
    match a
    case Schedule(fuel) => SignalsOfNew(s.tasks, NewTask(fuel));
    case DropScheduler =>
    case RequestCancel(t) => SignalsKept(s.tasks, t, Apply(s, a).tasks[t]);
    case Receive(t) => SignalsKept(s.tasks, t, Apply(s, a).tasks[t]);
    case DropFuture(t) => SignalsKept(s.tasks, t, Apply(s, a).tasks[t]);
    case Collect(t) => SignalsKept(s.tasks, t, Apply(s, a).tasks[t]);
  }

  lemma PopIsOperation(s: State)
    requires Enabled(s, PopCommand)
    ensures SameObjects(ViewOf(Apply(s, PopCommand)), AfterPop(ViewOf(s)))
  {
    if s.queue[0].Execute? {
      SignalsKept(s.tasks, s.queue[0].task, Apply(s, PopCommand).tasks[s.queue[0].task]);
    }
  }

  lemma CrashIsNothing(s: State, spanFinished: bool)
    requires s.loop.Dispatching? ==> s.loop.task < |s.tasks|
    ensures SameObjects(ViewOf(Crash(s, spanFinished)), ViewOf(s))
  {
    if s.loop.Dispatching? {
      SignalsKept(s.tasks, s.loop.task, Crash(s, spanFinished).tasks[s.loop.task]);
    }
  }

  /** The loop's steps change the queue at most. */
  lemma LoopStepIsPop(s: State, a: Action)
    requires Enabled(s, a) && OnProcessingThread(a) && !a.Fiber?
    ensures SameObjects(ViewOf(Apply(s, a)), Perform(ViewOf(s), OperationOf(s, a)))
  {
    match a
    case PopCommand => PopIsOperation(s);
    case Dispatch => SignalsKept(s.tasks, s.loop.task, Apply(s, a).tasks[s.loop.task]);
    case LogRaises => CrashIsNothing(s, false);
    case EnqueueRaises => CrashIsNothing(s, true);
    case AwaitTasks | Break | BarrierRaises =>
  }

  lemma RaisingStopIsOperation(s: State)
    requires Enabled(s, StopRaises)
    ensures SameObjects(ViewOf(Apply(s, StopRaises)), Perform(ViewOf(s), OperationOf(s, StopRaises)))
  {
  }

  lemma OutsideStepIsOperation(s: State, a: Action)
    requires TasksInv(s) && ChannelInv(s) && Enabled(s, a) && !OnProcessingThread(a)
    ensures SameObjects(ViewOf(Apply(s, a)), Perform(ViewOf(s), OperationOf(s, a)))
  {
    if a.RunBridgeCommand? {
      BridgeCommandIsOperation(s);
    } else if a.StopRaises? {
      RaisingStopIsOperation(s);
    } else {
      RustStepIsNothing(s, a);
    }
  }

  lemma ProcessingStepIsOperation(s: State, a: Action)
    requires TasksInv(s) && Enabled(s, a) && OnProcessingThread(a)
    ensures SameObjects(ViewOf(Apply(s, a)), Perform(ViewOf(s), OperationOf(s, a)))
  {
    if a.Fiber? {
      FiberStepIsOperation(s, a.task, a.move);
    } else {
      LoopStepIsPop(s, a);
    }
  }

  /** Every step of the system does to the objects what its operation does, as the method for it does. */
  lemma StepIsOperation(s: State, a: Action)
    requires Inv(s) && Enabled(s, a)
    ensures SameObjects(ViewOf(Apply(s, a)), Perform(ViewOf(s), OperationOf(s, a)))
  {
    if OnProcessingThread(a) {
      ProcessingStepIsOperation(s, a);
    } else {
      OutsideStepIsOperation(s, a);
    }
  }

  // ------------------------------------------------------------------ whole runs

  /** The commands that a step pops from the queue, and those it pushes. */
  function PoppedBy(s: State, a: Action): seq<Command>
    requires Enabled(s, a)
  {
    if a == PopCommand then [s.queue[0]] else []
  }

  function PushedBy(s: State, a: Action): seq<Command>
    requires Enabled(s, a)
  {
    if !a.RunBridgeCommand? || s.isShutdown then []
    else match s.channel[0]
      case Submit(t) => [Execute(t)]
      case Cancel(_) => []
      case StopProcessor => if ThreadAlive(s) then [Shutdown] else []
  }

  function Popped(s: State, run: seq<Action>): seq<Command>
    decreases |run|
  {
    if run == [] || !Enabled(s, run[0]) then []
    else PoppedBy(s, run[0]) + Popped(Apply(s, run[0]), run[1..])
  }

  function Pushed(s: State, run: seq<Action>): seq<Command>
    decreases |run|
  {
    if run == [] || !Enabled(s, run[0]) then []
    else PushedBy(s, run[0]) + Pushed(Apply(s, run[0]), run[1..])
  }

  lemma BridgePushes(s: State)
    requires Enabled(s, RunBridgeCommand)
    ensures RunHead(s).queue == s.queue + PushedBy(s, RunBridgeCommand)
  {
  }

  lemma OthersPushNothing(s: State, a: Action)
    requires Enabled(s, a) && !a.RunBridgeCommand?
    ensures PoppedBy(s, a) + Apply(s, a).queue == s.queue
  {
  }

  lemma StepIsFifo(s: State, a: Action)
    requires Enabled(s, a)
    ensures PoppedBy(s, a) + Apply(s, a).queue == s.queue + PushedBy(s, a)
  {
    if a.RunBridgeCommand? {
      BridgePushes(s);
    } else {
      OthersPushNothing(s, a);
    }
  }

  lemma FifoSplices<T>(p: seq<T>, ps: seq<T>, q: seq<T>, mid: seq<T>, end: seq<T>, u: seq<T>, us: seq<T>)
    requires p + mid == q + u && ps + end == mid + us
    ensures (p + ps) + end == q + (u + us)
  {
    assert (p + ps) + end == p + (ps + end);
    assert p + (mid + us) == (p + mid) + us;
    assert (q + u) + us == q + (u + us);
  }

  /**
   Over any run, commands are popped in the order they were pushed, and none is lost
   or made up: the law that the command loop keeps over its own queue.
   */
  lemma {:induction false} QueueIsFifo(s: State, run: seq<Action>, s': State)
    requires Reaches(s, run, s')
    ensures Popped(s, run) + s'.queue == s.queue + Pushed(s, run)
    decreases |run|
  {
    if run != [] {
      var a, next, rest := run[0], Apply(s, run[0]), run[1..];
      StepIsFifo(s, a);
      QueueIsFifo(next, rest, s');
      FifoSplices(PoppedBy(s, a), Popped(next, rest), s.queue, next.queue, s'.queue, PushedBy(s, a), Pushed(next, rest));
    }
  }
}
