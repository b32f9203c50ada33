/** The promises of the task lifecycle, over all runs. */
module LifecycleTheorems {
  import opened Options
  import opened ResultChannel
  import opened Lifecycle
  import opened LifecycleInvariant

  // ------------------------------------------------------------ isolation

  predicate Concerns(s: State, a: Action, t: nat) {
    match a
    case Schedule(_) | DropScheduler | StopRaises | AwaitTasks | Break | BarrierRaises => false
    case RequestCancel(u) => u == t
    case Receive(u) => u == t
    case DropFuture(u) => u == t
    case Collect(u) => u == t
    case RunBridgeCommand => s.channel != [] && !s.channel[0].StopProcessor? && s.channel[0].task == t
    case PopCommand => s.queue != [] && s.queue[0] == Execute(t)
    case Dispatch | LogRaises | EnqueueRaises => s.loop == Dispatching(t)
    case Fiber(u, _) => u == t
  }

  /** No step of one task touches another. */
  lemma StepsStayApart(s: State, a: Action, t: nat)
    requires Enabled(s, a) && t < |s.tasks| && !Concerns(s, a, t)
    ensures t < |Apply(s, a).tasks| && Apply(s, a).tasks[t] == s.tasks[t]
  {
  }

  // ------------------------------------------------------------- shutdown

  /** The handler ran, every fiber ended, and the callback answered unless the worker was aborted. */
  predicate Settled(k: Task) {
    && k.runs == 1 && k.spans == 1
    && k.worker.Finished? && k.watcher.Gone? && k.supervisor == Done
    && (k.worker == Finished(Completed) ==> k.channel.slot.Sent? || k.channel.slot.Lost?)
    && (k.channel.slot.Armed? || k.channel.slot.Dropped? <==> k.reports == [])
  }

  lemma OverIsSettled(k: Task, held: Option<FiberKind>)
    requires TaskInv(k, held) && k.submission == Accepted && SupervisorOver(k) && !TaskFailed(k)
    ensures Settled(k) && k.worker != Finished(Failed)
  {
  }

  /** When the command loop breaks, nothing is left behind. */
  lemma NothingLostAtShutdown(run: seq<Action>, s: State)
    requires Reaches(INITIAL, run, s) && s.loop == Broke
    ensures s.queue == []
    ensures forall t :: 0 <= t < |s.tasks| && s.tasks[t].submission == Accepted ==>
              Settled(s.tasks[t]) && s.tasks[t].worker != Finished(Failed)
  {
    ReachableKeeps(run, s);
    forall t | 0 <= t < |s.tasks| && s.tasks[t].submission == Accepted
      ensures Settled(s.tasks[t]) && s.tasks[t].worker != Finished(Failed)
    {
      OverIsSettled(s.tasks[t], HeldBy(s.current, t));
    }
  }

  /** The task that the loop had popped when it raised, if any. */
  predicate DroppedTask(s: State) { s.loop.Crashed? && s.loop.popped.Some? }

  /** The raise that drops a popped task: of `barrier.async`, which finishes the span, or of the log call in front of it. */
  function RaiseOf(spanFinished: bool): Action { if spanFinished then EnqueueRaises else LogRaises }

  /** Somewhere in the run the loop raises with task `t` at hand. */
  predicate RaisesAt(s: State, run: seq<Action>, t: nat, spanFinished: bool)
    decreases |run|
  {
    run != [] && Enabled(s, run[0]) &&
    ((run[0] == RaiseOf(spanFinished) && s.loop == Dispatching(t)) ||
     RaisesAt(Apply(s, run[0]), run[1..], t, spanFinished))
  }

  predicate AbandonedTask(s: State, t: nat, spanFinished: bool) {
    t < |s.tasks| && s.tasks[t].supervisor == Abandoned(spanFinished)
  }

  lemma FiberAbandonsNothing(s: State, t: nat, move: Move)
    requires Enabled(s, Fiber(t, move)) && TaskInv(s.tasks[t], HeldBy(s.current, t))
    ensures !s.tasks[t].supervisor.Abandoned? && !Apply(s, Fiber(t, move)).tasks[t].supervisor.Abandoned?
  {
    LocalKeepsTask(s.tasks[t], HeldBy(s.current, t), move);
  }

  lemma BridgeAbandonsNothing(s: State, t: nat)
    requires Enabled(s, RunBridgeCommand) && !s.channel[0].StopProcessor? && s.channel[0].task == t
    requires s.channel[0].Submit? ==> s.tasks[t].supervisor == Idle
    ensures RunHead(s).tasks[t].supervisor.Abandoned? <==> s.tasks[t].supervisor.Abandoned?
    ensures RunHead(s).tasks[t].supervisor.Abandoned? ==> RunHead(s).tasks[t].supervisor == s.tasks[t].supervisor
  {
  }

  lemma SubmittedIsIdle(s: State)
    requires ChannelInv(s) && Enabled(s, RunBridgeCommand) && s.channel[0].Submit?
    requires TaskInv(s.tasks[s.channel[0].task], HeldBy(s.current, s.channel[0].task))
    ensures s.tasks[s.channel[0].task].supervisor == Idle
  {
    assert s.channel[0] in s.channel;
  }

  lemma LoopAbandons(s: State, a: Action, t: nat, spanFinished: bool)
    requires t < |s.tasks| && Enabled(s, a) && Concerns(s, a, t) && !a.Fiber? && !a.RunBridgeCommand?
    requires a == PopCommand ==> s.tasks[t].supervisor == Queued
    requires a == Dispatch || LoopRaises(a) ==> s.tasks[t].supervisor == Dispatched
    ensures AbandonedTask(Apply(s, a), t, spanFinished)
            <==> AbandonedTask(s, t, spanFinished) || (a == RaiseOf(spanFinished) && s.loop == Dispatching(t))
  {
  }

  lemma StepAbandons(s: State, a: Action, t: nat, spanFinished: bool)
    requires t < |s.tasks| && TaskInv(s.tasks[t], HeldBy(s.current, t)) && ChannelInv(s) && Enabled(s, a)
    requires Execute(t) in s.queue <==> s.tasks[t].supervisor == Queued
    requires s.tasks[t].supervisor == Dispatched <==> s.loop == Dispatching(t)
    ensures AbandonedTask(Apply(s, a), t, spanFinished)
            <==> AbandonedTask(s, t, spanFinished) || (a == RaiseOf(spanFinished) && s.loop == Dispatching(t))
  {
    if !Concerns(s, a, t) {
      StepsStayApart(s, a, t);
    } else if a.Fiber? {
      FiberAbandonsNothing(s, t, a.move);
    } else if a.RunBridgeCommand? {
      if s.channel[0].Submit? {
        SubmittedIsIdle(s);
      }
      BridgeAbandonsNothing(s, t);
    } else {
      assert a == PopCommand ==> s.queue[0] in s.queue;
      LoopAbandons(s, a, t, spanFinished);
    }
  }

  /** A new task is not abandoned, and no raise can have it at hand. */
  lemma NewTaskNotAbandoned(s: State, a: Action, t: nat, spanFinished: bool)
    requires LoopInv(s) && Enabled(s, a) && t >= |s.tasks|
    ensures !AbandonedTask(Apply(s, a), t, spanFinished) && s.loop != Dispatching(t)
  {
  }

  lemma {:induction false} AbandonedIsARaise(s: State, run: seq<Action>, s': State, t: nat, spanFinished: bool)
    requires Inv(s) && Reaches(s, run, s')
    ensures AbandonedTask(s', t, spanFinished)
            <==> AbandonedTask(s, t, spanFinished) || RaisesAt(s, run, t, spanFinished)
    decreases |run|
  {
    if run != [] {
      StepKeeps(s, run[0]);
      if t < |s.tasks| {
        StepAbandons(s, run[0], t, spanFinished);
      } else {
        NewTaskNotAbandoned(s, run[0], t, spanFinished);
      }
      AbandonedIsARaise(Apply(s, run[0]), run[1..], s', t, spanFinished);
    }
  }

  /** The loop has raised with a popped task at hand. */
  ghost predicate DropsATask(run: seq<Action>) {
    exists t: nat, spanFinished: bool :: RaisesAt(INITIAL, run, t, spanFinished)
  }

  lemma DroppedIsAbandoned(s: State, t: nat)
    requires LoopInv(s)
    ensures DroppedTask(s) && s.loop.popped.value == t ==>
              AbandonedTask(s, t, false) || AbandonedTask(s, t, true)
    ensures AbandonedTask(s, t, false) || AbandonedTask(s, t, true) ==> DroppedTask(s)
  {
    if t < |s.tasks| && s.tasks[t].supervisor.Abandoned? {
      var finished := s.tasks[t].supervisor.spanFinished;
      assert s.tasks[t].supervisor == Abandoned(finished);
    }
  }

  lemma DroppedIsARaise(run: seq<Action>, s: State)
    requires Reaches(INITIAL, run, s) && LoopInv(s)
    ensures DroppedTask(s) <==> DropsATask(run)
  {
    InitialIsInOrder();
    if DroppedTask(s) {
      var t := s.loop.popped.value;
      DroppedIsAbandoned(s, t);
      AbandonedIsARaise(INITIAL, run, s, t, false);
      AbandonedIsARaise(INITIAL, run, s, t, true);
    }
    if DropsATask(run) {
      var t: nat, spanFinished: bool :| RaisesAt(INITIAL, run, t, spanFinished);
      AbandonedIsARaise(INITIAL, run, s, t, spanFinished);
      DroppedIsAbandoned(s, t);
    }
  }

  lemma AllStartedIff(s: State)
    requires Inv(s) && (s.loop == ShuttingDown || s.loop == Draining || LoopEnded(s))
    ensures (forall t :: 0 <= t < |s.tasks| && s.tasks[t].submission == Accepted ==> HasStarted(s.tasks[t]))
            <==> !DroppedTask(s)
    ensures !DroppedTask(s) ==> s.queue == []
  {
    if DroppedTask(s) {
      var t := s.loop.popped.value;
      assert TaskInv(s.tasks[t], HeldBy(s.current, t));
      assert s.tasks[t].submission == Accepted && !HasStarted(s.tasks[t]);
    } else {
      forall t | 0 <= t < |s.tasks| && s.tasks[t].submission == Accepted
        ensures HasStarted(s.tasks[t])
      {
        assert TaskInv(s.tasks[t], HeldBy(s.current, t));
        assert Execute(t) !in s.queue;
      }
    }
  }

  /** Past Shutdown or at the end of the loop, all accepted tasks have started exactly if it never raised with one at hand. */
  lemma EveryAcceptedTaskStartsIff(run: seq<Action>, s: State)
    requires Reaches(INITIAL, run, s) && (s.loop == ShuttingDown || s.loop == Draining || LoopEnded(s))
    ensures (forall t :: 0 <= t < |s.tasks| && s.tasks[t].submission == Accepted ==> HasStarted(s.tasks[t]))
            <==> !DropsATask(run)
    ensures !DropsATask(run) ==> s.queue == []
  {
    ReachableKeeps(run, s);
    AllStartedIff(s);
    DroppedIsARaise(run, s);
  }

  lemma SpansOfTask(k: Task, held: Option<FiberKind>)
    requires TaskInv(k, held)
    ensures k.spans <= 1
    ensures k.submission == Accepted && (k.supervisor == Done || k.supervisor.Abandoned?) ==>
              (k.spans == 1 <==> k.supervisor != Abandoned(false))
  {
  }

  /**
   No dispatch span is finished twice. That of a task which is over, or which the loop
   dropped, is finished exactly unless the log call in front of its dispatch raised.
   */
  lemma SpanFinishedIff(run: seq<Action>, s: State, t: nat)
    requires Reaches(INITIAL, run, s) && t < |s.tasks|
    ensures s.tasks[t].spans <= 1
    ensures s.tasks[t].submission == Accepted && (s.tasks[t].supervisor == Done || s.tasks[t].supervisor.Abandoned?) ==>
              (s.tasks[t].spans == 1 <==> !RaisesAt(INITIAL, run, t, false))
  {
    ReachableTask(run, s, t);
    SpansOfTask(s.tasks[t], HeldBy(s.current, t));
    AbandonedIsARaise(INITIAL, run, s, t, false);
  }

  predicate HasLoopRaise(run: seq<Action>) {
    exists i :: 0 <= i < |run| && LoopRaises(run[i])
  }

  lemma {:induction false} CrashIsARaise(s: State, run: seq<Action>, s': State)
    requires Reaches(s, run, s')
    ensures s'.loop.Crashed? <==> s.loop.Crashed? || HasLoopRaise(run)
    decreases |run|
  {
    if run != [] {
      var next, rest := Apply(s, run[0]), run[1..];
      CrashIsARaise(next, rest, s');
      assert next.loop.Crashed? <==> s.loop.Crashed? || LoopRaises(run[0]);
      assert run == [run[0]] + rest;
      if HasLoopRaise(rest) {
        var i :| 0 <= i < |rest| && LoopRaises(rest[i]);
        assert LoopRaises(run[i + 1]);
      }
    }
  }

  /** The Shutdown command is lost exactly when the stop request raised behind its flag. */
  lemma {:induction false} LostStopIsARaise(s: State, run: seq<Action>, s': State)
    requires Reaches(s, run, s')
    ensures s'.stopLost <==> s.stopLost || StopRaises in run
    decreases |run|
  {
    if run != [] {
      LostStopIsARaise(Apply(s, run[0]), run[1..], s');
      assert run == [run[0]] + run[1..];
    }
  }

  /** The loop leaves in the orderly way exactly when nothing in it raised and no task has failed. */
  lemma LoopBreaksIff(run: seq<Action>, s: State)
    requires Reaches(INITIAL, run, s) && LoopEnded(s)
    ensures s.loop == Broke
            <==> !HasLoopRaise(run) && !exists t :: 0 <= t < |s.tasks| && TaskFailed(s.tasks[t])
  {
    ReachableKeeps(run, s);
    CrashIsARaise(INITIAL, run, s);
  }

  /** Once Shutdown is queued it is the last command for good: later submissions are refused. */
  lemma NothingBehindShutdown(run: seq<Action>, s: State, t: nat)
    requires Reaches(INITIAL, run, s) && s.isShutdown
    ensures Shutdown in s.queue ==> s.queue[|s.queue| - 1] == Shutdown
    ensures Enabled(s, RunBridgeCommand) && s.channel[0] == Submit(t) ==>
              RunHead(s).queue == s.queue && RunHead(s).tasks[t].submission == Refused
  {
    ReachableKeeps(run, s);
  }

  lemma QueuedHasNoFiber(k: Task, held: Option<FiberKind>, move: Move)
    requires TaskInv(k, held) && k.supervisor == Queued
    ensures k.submission == Accepted && LocalStep(k, held, move) == None
  {
  }

  lemma QueuedStaysQueued(s: State, a: Action, t: nat)
    requires t < |s.tasks| && TaskInv(s.tasks[t], HeldBy(s.current, t)) && ChannelInv(s)
    requires Enabled(s, a) && LoopEnded(s) && s.tasks[t].supervisor == Queued
    ensures t < |Apply(s, a).tasks| && Apply(s, a).tasks[t].supervisor == Queued
  {
    QueuedHasNoFiber(s.tasks[t], HeldBy(s.current, t), if a.Fiber? then a.move else Watch);
    if !Concerns(s, a, t) {
      StepsStayApart(s, a, t);
    } else if a.RunBridgeCommand? {
      assert s.channel[0] in s.channel;
      assert s.channel[0].Cancel?;
    }
  }

  lemma EndIsFinal(s: State, a: Action)
    requires Enabled(s, a) && LoopEnded(s)
    ensures LoopEnded(Apply(s, a))
  {
  }

  lemma QueuedIsUnanswered(k: Task, held: Option<FiberKind>)
    requires TaskInv(k, held) && k.supervisor == Queued
    ensures k.runs == 0 && k.reports == [] && !k.rust.Resolved?
  {
  }

  /** A command left in the queue of a loop that has ended is never run, and its caller is never answered. */
  lemma {:induction false} QueuedBehindTheEnd(s: State, run: seq<Action>, s': State, t: nat)
    requires Inv(s) && LoopEnded(s) && Reaches(s, run, s')
    requires t < |s.tasks| && s.tasks[t].supervisor == Queued
    ensures t < |s'.tasks| && s'.tasks[t].supervisor == Queued
    ensures s'.tasks[t].runs == 0 && s'.tasks[t].reports == [] && !s'.tasks[t].rust.Resolved?
    decreases |run|
  {
    if run == [] {
      QueuedIsUnanswered(s.tasks[t], HeldBy(s.current, t));
    } else {
      StepKeeps(s, run[0]);
      QueuedStaysQueued(s, run[0], t);
      EndIsFinal(s, run[0]);
      QueuedBehindTheEnd(Apply(s, run[0]), run[1..], s', t);
    }
  }

  // -------------------------------------------------------- first outcome

  /** What the Rust caller gets, in terms of what the worker reported. */
  function FirstOutcome(k: Task): HandlerResult {
    if k.submission == Refused then HandlerErr(Scheduler(SubmitFailed))
    else if k.reports == [] then HandlerErr(Processing(Closed))
    else HandlerResultOf(Translate(k.reports[0]))
  }

  /** The caller's result is the report's value, or an error that conveys it. */
  predicate Holds(result: HandlerResult, r: Report) {
    match result
    case HandlerOk(json) => Conveys(r, Ok(json))
    case HandlerErr(Processing(reason)) => Conveys(r, Err(reason))
    case HandlerErr(_) => false
  }

  lemma ResolvedAsReported(k: Task, held: Option<FiberKind>)
    requires TaskInv(k, held)
    ensures k.rust.Resolved? ==> k.rust.value == FirstOutcome(k)
  {
  }

  lemma FirstOutcomeWins(run: seq<Action>, s: State, t: nat)
    requires Reaches(INITIAL, run, s) && t < |s.tasks|
    ensures s.tasks[t].runs <= 1
    ensures s.tasks[t].rust.Resolved? ==> s.tasks[t].rust.value == FirstOutcome(s.tasks[t])
    ensures s.tasks[t].rust.Resolved? && s.tasks[t].reports != [] ==> Holds(s.tasks[t].rust.value, s.tasks[t].reports[0])
    ensures s.tasks[t].worker == Finished(Completed) ==> s.tasks[t].reports != []
  {
    ReachableTask(run, s, t);
    ResolvedAsReported(s.tasks[t], HeldBy(s.current, t));
  }

  /** `classify_error` of ext/prosody/src/handler/mod.rs. */
  function ClassifyHandlerError(e: HandlerError): Category {
    match e
    case Scheduler(_) | Bridge => Retry
    case Processing(reason) => Classify(reason)
  }

  predicate GivenUp(result: HandlerResult) {
    result.HandlerErr? && ClassifyHandlerError(result.error) == NoRetry
  }

  /**
   Whatever else happens, an event is given up only if the first thing its worker
   reported is an exception whose `permanent?` is true; a refusal, a cancel, a
   result without JSON form and a closed channel are all retried.
   */
  lemma GivenUpIffFirstReportIsPermanent(run: seq<Action>, s: State, t: nat)
    requires Reaches(INITIAL, run, s) && t < |s.tasks| && s.tasks[t].rust.Resolved?
    ensures var k := s.tasks[t];
            GivenUp(k.rust.value) <==>
            k.reports != [] && k.reports[0].Failure? && k.reports[0].error.permanent == Some(true)
  {
    FirstOutcomeWins(run, s, t);
    ReachableTask(run, s, t);
  }

  /**
   A caller whose task has reported can take the outcome at once; one whose task
   ended without a report can once Ruby has collected the callback.
   */
  lemma AnsweredCallerCanResolve(s: State, t: nat)
    requires t < |s.tasks| && TaskInv(s.tasks[t], HeldBy(s.current, t))
    requires s.tasks[t].submission == Accepted && s.tasks[t].rust == Awaiting && s.tasks[t].cancellation != Asked
    ensures s.tasks[t].reports != [] ==> Enabled(s, Receive(t))
    ensures s.tasks[t].reports == [] && (s.tasks[t].supervisor == Done || s.tasks[t].supervisor.Abandoned?) ==>
              Enabled(s, Collect(t)) && Enabled(Apply(s, Collect(t)), Receive(t))
  {
    ReportDecides(s.tasks[t], HeldBy(s.current, t));
  }

  lemma ReportDecides(k: Task, held: Option<FiberKind>)
    requires TaskInv(k, held) && k.submission == Accepted && k.rust == Awaiting
    ensures k.reports != [] ==> Resolution(k.channel).Some?
    ensures k.reports == [] ==> k.channel.slot.Armed? || k.channel.slot.Dropped?
  {
  }

  predicate SameFuture(k: Task, k': Task) {
    && (k.rust != Awaiting ==> k'.rust == k.rust)
    && (k.channel.slot != Armed ==> k'.channel.slot == k.channel.slot)
    && (k.reports != [] ==> k'.reports != [] && k'.reports[0] == k.reports[0])
  }

  lemma LocalStepKeepsOutcome(k: Task, held: Option<FiberKind>, m: Move)
    requires TaskInv(k, held) && LocalStep(k, held, m).Some?
    ensures SameFuture(k, LocalStep(k, held, m).value.0)
  {
  }

  lemma RustKeepsOutcome(s: State, a: Action, t: nat)
    requires t < |s.tasks| && TaskInv(s.tasks[t], HeldBy(s.current, t)) && Enabled(s, a)
    requires a == Receive(t) || a == DropFuture(t) || a == Collect(t) || a == RequestCancel(t)
    ensures SameFuture(s.tasks[t], Apply(s, a).tasks[t])
  {
  }

  /** A submission finds a fresh channel, which a refusal drops. */
  lemma RefusalKeepsOutcome(k: Task, held: Option<FiberKind>)
    requires TaskInv(k, held)
    ensures SameFuture(k, k.(submission := Refused, channel := AfterCollection(k.channel)))
  {
  }

  lemma BridgeKeepsOutcome(s: State, t: nat)
    requires t < |s.tasks| && TaskInv(s.tasks[t], HeldBy(s.current, t))
    requires Enabled(s, RunBridgeCommand) && !s.channel[0].StopProcessor? && s.channel[0].task == t
    ensures SameFuture(s.tasks[t], RunHead(s).tasks[t])
  {
    RefusalKeepsOutcome(s.tasks[t], HeldBy(s.current, t));
  }

  lemma LoopKeepsOutcome(s: State, a: Action, t: nat)
    requires t < |s.tasks| && Enabled(s, a) && Concerns(s, a, t)
    requires a == PopCommand || a == Dispatch || LoopRaises(a)
    ensures SameFuture(s.tasks[t], Apply(s, a).tasks[t])
  {
  }

  /** A decided channel stays as decided, and a resolved caller stays resolved. */
  lemma StepKeepsOutcome(s: State, a: Action, t: nat)
    requires t < |s.tasks| && TaskInv(s.tasks[t], HeldBy(s.current, t)) && Enabled(s, a)
    ensures t < |Apply(s, a).tasks| && SameFuture(s.tasks[t], Apply(s, a).tasks[t])
  {
    if !Concerns(s, a, t) {
      StepsStayApart(s, a, t);
    } else {
      match a
      case Fiber(_, move) => LocalStepKeepsOutcome(s.tasks[t], HeldBy(s.current, t), move);
      case RunBridgeCommand => BridgeKeepsOutcome(s, t);
      case PopCommand | Dispatch | LogRaises | EnqueueRaises => LoopKeepsOutcome(s, a, t);
      case _ => RustKeepsOutcome(s, a, t);
    }
  }

  lemma {:induction false} OutcomesAreFinal(s: State, run: seq<Action>, s': State, t: nat)
    requires Inv(s) && Reaches(s, run, s') && t < |s.tasks|
    ensures t < |s'.tasks| && SameFuture(s.tasks[t], s'.tasks[t])
    decreases |run|
  {
    if run != [] {
      assert TaskInv(s.tasks[t], HeldBy(s.current, t));
      StepKeepsOutcome(s, run[0], t);
      StepKeeps(s, run[0]);
      OutcomesAreFinal(Apply(s, run[0]), run[1..], s', t);
    }
  }

  // --------------------------------------------------------- cancellation

  /** A pushed cancel that has not reached the worker yet. */
  predicate CancelUnderWay(k: Task) {
    || (k.token > 0 && (k.watcher == NoWatcher || k.watcher == Fresh || k.watcher == Waiting))
    || k.watcher == Stopping
  }

  ghost predicate CancelInOrder(k: Task) {
    && k.stops <= 1
    && (k.stops == 1 ==> k.cancellation == Pushed)
    && (k.worker == CallCancelled || k.worker == LogCancelled ==> k.stops == 1)
    && (k.cancellation == Pushed ==> k.stops == 1 || k.worker.Finished? || CancelUnderWay(k))
  }

  lemma TaskKeepsCancelInOrder(k: Task, held: Option<FiberKind>)
    requires TaskInv(k, held)
    ensures CancelInOrder(k)
  {
    assert k.token + TakenSignals(k.watcher)
           == (if k.cancellation == Pushed then 1 else 0) + (if k.worker.Finished? then 1 else 0);
  }

  /**
   A Stop reaches a worker at most once and only for a cancel; a pushed cancel
   is under way until it has become that Stop or the worker has finished.
   */
  lemma CancelNeitherLostNorInvented(run: seq<Action>, s: State, t: nat)
    requires Reaches(INITIAL, run, s) && t < |s.tasks|
    ensures CancelInOrder(s.tasks[t])
  {
    ReachableTask(run, s, t);
    TaskKeepsCancelInOrder(s.tasks[t], HeldBy(s.current, t));
  }

  /** The watcher's next two steps, from a task whose fibers hold as said. */
  function WatchTwice(k: Task, held: Option<FiberKind>): Option<(Task, Option<FiberKind>)> {
    match WatcherStep(k, held)
    case Some((k1, held1)) => WatcherStep(k1, held1)
    case None => None
  }

  /**
   A pushed cancel arrives: whenever the event loop is free and the worker is still at
   work, the watcher, once there is one, can raise the Stop in its next two steps.
   */
  lemma PushedCancelArrives(k: Task)
    requires TaskInv(k, None) && k.cancellation == Pushed && k.stops == 0
    requires k.supervisor == WorkerSpawned || k.supervisor == Joining
    requires !k.worker.Finished?
    ensures var ready := if k.supervisor == Joining then Some((k, None)) else SupervisorStep(k, None);
            && ready.Some? && ready.value.0.worker == k.worker
            && var stopped := WatchTwice(ready.value.0, ready.value.1);
            && stopped.Some? && stopped.value.1 == Some(WorkerFiber)
            && stopped.value.0.stops == 1 && stopped.value.0.reports == k.reports
            && (k.worker.InBlock? ==> stopped.value.0.worker == InBlock(true))
            && stopped.value.0.worker == OnStop(k.worker)
  {
    assert k.token + TakenSignals(k.watcher) == 1;
  }

  predicate Stops(s: State, a: Action, t: nat)
    requires Enabled(s, a) && t < |s.tasks|
  {
    t < |Apply(s, a).tasks| && Apply(s, a).tasks[t].stops != s.tasks[t].stops
  }

  lemma LocalStopLands(k: Task, held: Option<FiberKind>, m: Move)
    requires TaskInv(k, held) && LocalStep(k, held, m).Some? && LocalStep(k, held, m).value.0.stops != k.stops
    ensures m == Watch && held == Some(WatcherFiber) && AtYieldPoint(k.worker)
    ensures LocalStep(k, held, m).value.0.channel == k.channel
    ensures LocalStep(k, held, m).value.1 == Some(WorkerFiber)
  {
  }

  /** Only the task's own watcher stops a worker, at a yield point, and no reported outcome changes. */
  lemma StopLandsAtOwnYieldPoint(s: State, a: Action, t: nat)
    requires t < |s.tasks| && TaskInv(s.tasks[t], HeldBy(s.current, t)) && Enabled(s, a)
    ensures Stops(s, a, t) ==>
              && a == Fiber(t, Watch) && AtYieldPoint(s.tasks[t].worker)
              && Apply(s, a).tasks[t].channel == s.tasks[t].channel
              && s.current == Running(t, WatcherFiber) && Apply(s, a).current == Running(t, WorkerFiber)
  {
    if !Concerns(s, a, t) {
      StepsStayApart(s, a, t);
    } else if a.Fiber? {
      var held := HeldBy(s.current, t);
      if LocalStep(s.tasks[t], held, a.move).value.0.stops != s.tasks[t].stops {
        LocalStopLands(s.tasks[t], held, a.move);
      }
    }
  }

  /** A handler that swallows the Stop and returns is reported as a success, whatever was cancelled. */
  lemma SwallowedStopIsSuccess(k: Task, held: Option<FiberKind>, value: Returned)
    requires TaskInv(k, held) && k.worker == InBlock(true) && k.rust == Awaiting
    requires held == None || held == Some(WorkerFiber)
    ensures var first := WorkerStep(k, held, Return(value));
            && first.Some? && first.value.1 == Some(WorkerFiber)
            && var second := WorkerStep(first.value.0, first.value.1, Proceed);
            second.Some? && second.value.0.channel.slot == Sent(Translate(Success(value)))
  {
    assert k.reports == [];
    assert k.channel.slot.Armed?;
  }
}
