/** After a stop request the processing thread winds down in a bounded number of steps. */
module LifecycleDrain {
  import opened Options
  import opened Lifecycle
  import opened LifecycleInvariant
  import opened LifecycleTheorems

  function WorkerRank(w: WorkerPc): nat {
    match w
    case Unspawned => 11
    case InBlock(_) => 10
    case CallSuccess(_) => 9
    case LogSuccess => 8
    case Capture(_) => 7
    case CallError(_) => 6
    case LogError => 5
    case CallCancelled => 4
    case LogCancelled => 3
    case Ensure(_) => 2
    case Finished(_) => 0
  }

  function WatcherRank(w: WatcherPc): nat {
    match w
    case NoWatcher => 4
    case Fresh => 3
    case Waiting => 2
    case Stopping => 1
    case Gone(_) => 0
  }

  function SupervisorRank(p: SupervisorPc): nat {
    match p
    case Idle => 8
    case Queued => 7
    case Dispatched => 6
    case Abandoned(_) => 0
    case Started => 5
    case WorkerSpawned => 4
    case Joining => 3
    case Cleanup => 2
    case FinishingSpan => 1
    case Done => 0
  }

  /** A bound on the steps that the fibers of one task can still take. */
  function Weight(k: Task): nat {
    if k.submission != Accepted then 0
    else k.fuel + WorkerRank(k.worker) + WatcherRank(k.watcher) + SupervisorRank(k.supervisor)
  }

  function TotalWeight(tasks: seq<Task>): nat {
    if tasks == [] then 0 else Weight(tasks[0]) + TotalWeight(tasks[1..])
  }

  function LoopRank(p: LoopPc): nat {
    match p
    case Popping | Dispatching(_) => 3
    case ShuttingDown => 2
    case Draining => 1
    case Broke | Aborted | Crashed(_) => 0
  }

  function Measure(s: State): nat {
    LoopRank(s.loop) + TotalWeight(s.tasks)
  }

  lemma {:induction false} WeightOfUpdate(tasks: seq<Task>, t: nat, k: Task)
    requires t < |tasks|
    ensures TotalWeight(tasks[t := k]) + Weight(tasks[t]) == TotalWeight(tasks) + Weight(k)
  {
    if t == 0 {
      assert tasks[t := k][1..] == tasks[1..];
    } else {
      assert tasks[t := k][1..] == tasks[1..][t - 1 := k];
      WeightOfUpdate(tasks[1..], t - 1, k);
    }
  }

  lemma {:induction false} WeightOfAppend(tasks: seq<Task>, k: Task)
    ensures TotalWeight(tasks + [k]) == TotalWeight(tasks) + Weight(k)
  {
    if tasks == [] {
      assert tasks + [k] == [k];
    } else {
      assert (tasks + [k])[1..] == tasks[1..] + [k];
      WeightOfAppend(tasks[1..], k);
    }
  }

  lemma WorkerStepDescends(k: Task, held: Option<FiberKind>, m: WorkerMove)
    requires k.submission == Accepted && WorkerStep(k, held, m).Some?
    ensures Weight(WorkerStep(k, held, m).value.0) < Weight(k)
  {
  }

  lemma WatcherStepDescends(k: Task, held: Option<FiberKind>)
    requires k.submission == Accepted && WatcherStep(k, held).Some?
    ensures Weight(WatcherStep(k, held).value.0) < Weight(k)
  {
  }

  lemma SupervisorStepDescends(k: Task, held: Option<FiberKind>)
    requires k.submission == Accepted && SupervisorStep(k, held).Some?
    requires k.supervisor == Started ==> k.worker == Unspawned
    requires k.supervisor == WorkerSpawned ==> k.watcher == NoWatcher
    ensures Weight(SupervisorStep(k, held).value.0) < Weight(k)
  {
  }

  lemma LocalStepDescends(k: Task, held: Option<FiberKind>, m: Move)
    requires TaskInv(k, held) && LocalStep(k, held, m).Some?
    ensures Weight(LocalStep(k, held, m).value.0) < Weight(k)
  {
    LocalKeepsTask(k, held, m);
    match m
    case Supervise => SupervisorStepDescends(k, held);
    case Watch => WatcherStepDescends(k, held);
    case Work(move) => WorkerStepDescends(k, held, move);
  }

  lemma PopDescends(s: State)
    requires Inv(s) && Enabled(s, PopCommand)
    ensures Measure(Apply(s, PopCommand)) < Measure(s)
  {
    if s.queue[0].Execute? {
      var t := s.queue[0].task;
      assert s.queue[0] in s.queue && s.tasks[t].supervisor == Queued;
      assert TaskInv(s.tasks[t], HeldBy(s.current, t));
      WeightOfUpdate(s.tasks, t, s.tasks[t].(supervisor := Dispatched));
    }
  }

  lemma DispatchDescends(s: State)
    requires Inv(s) && Enabled(s, Dispatch)
    ensures Measure(Apply(s, Dispatch)) < Measure(s)
  {
    var t := s.loop.task;
    assert s.tasks[t].supervisor == Dispatched;
    assert TaskInv(s.tasks[t], HeldBy(s.current, t));
    WeightOfUpdate(s.tasks, t, s.tasks[t].(supervisor := Started));
  }

  lemma CrashDescends(s: State, spanFinished: bool)
    requires Inv(s) && (s.loop.Dispatching? || s.loop == ShuttingDown)
    ensures Measure(Crash(s, spanFinished)) < Measure(s)
  {
    if s.loop.Dispatching? {
      var t := s.loop.task;
      assert s.tasks[t].supervisor == Dispatched;
      assert TaskInv(s.tasks[t], HeldBy(s.current, t));
      WeightOfUpdate(s.tasks, t, Crash(s, spanFinished).tasks[t]);
    }
  }

  lemma FiberDescends(s: State, t: nat, move: Move)
    requires Inv(s) && Enabled(s, Fiber(t, move))
    ensures Measure(Apply(s, Fiber(t, move))) < Measure(s)
  {
    LocalStepDescends(s.tasks[t], HeldBy(s.current, t), move);
    WeightOfUpdate(s.tasks, t, Apply(s, Fiber(t, move)).tasks[t]);
  }

  lemma LoopEndDescends(s: State, a: Action)
    requires Enabled(s, a) && (a.AwaitTasks? || a.Break? || a.BarrierRaises?)
    ensures Measure(Apply(s, a)) < Measure(s)
  {
  }

  /** Every step of the processing thread brings it closer to its end. */
  lemma ProcessorStepDescends(s: State, a: Action)
    requires Inv(s) && Enabled(s, a) && OnProcessingThread(a)
    ensures Measure(Apply(s, a)) < Measure(s)
  {
    match a
    case Fiber(t, move) => FiberDescends(s, t, move);
    case PopCommand => PopDescends(s);
    case Dispatch => DispatchDescends(s);
    case LogRaises => CrashDescends(s, false);
    case EnqueueRaises => CrashDescends(s, true);
    case AwaitTasks | Break | BarrierRaises => LoopEndDescends(s, a);
  }

  /** After the stop request, Rust and the bridge thread give it no new work. */
  lemma OtherStepsAddNoWork(s: State, a: Action)
    requires Inv(s) && s.isShutdown && Enabled(s, a) && !OnProcessingThread(a)
    ensures Apply(s, a).isShutdown && Measure(Apply(s, a)) == Measure(s)
  {
    match a
    case Schedule(fuel) => WeightOfAppend(s.tasks, NewTask(fuel));
    case DropScheduler =>
    case RequestCancel(t) => WeightOfUpdate(s.tasks, t, Apply(s, a).tasks[t]);
    case Receive(t) => WeightOfUpdate(s.tasks, t, Apply(s, a).tasks[t]);
    case DropFuture(t) => WeightOfUpdate(s.tasks, t, Apply(s, a).tasks[t]);
    case Collect(t) => WeightOfUpdate(s.tasks, t, Apply(s, a).tasks[t]);
    case RunBridgeCommand => BridgeAddsNoWork(s);
  }

  lemma BridgeAddsNoWork(s: State)
    requires Inv(s) && s.isShutdown && Enabled(s, RunBridgeCommand)
    ensures RunHead(s).isShutdown && Measure(RunHead(s)) == Measure(s)
  {
    if !s.channel[0].StopProcessor? {
      var t := s.channel[0].task;
      assert s.channel[0] in s.channel;
      WeightOfUpdate(s.tasks, t, RunHead(s).tasks[t]);
    }
  }

  function ProcessorSteps(run: seq<Action>): nat {
    if run == [] then 0 else (if OnProcessingThread(run[0]) then 1 else 0) + ProcessorSteps(run[1..])
  }

  /** However the steps interleave after a stop request, the measure bounds those of the processing thread. */
  lemma {:induction false} DrainIsBounded(s: State, run: seq<Action>, s': State)
    requires Inv(s) && s.isShutdown && Reaches(s, run, s')
    ensures s'.isShutdown && ProcessorSteps(run) + Measure(s') <= Measure(s)
    decreases |run|
  {
    if run != [] {
      var next := Apply(s, run[0]);
      StepKeeps(s, run[0]);
      if OnProcessingThread(run[0]) {
        ProcessorStepDescends(s, run[0]);
        assert next.isShutdown;
      } else {
        OtherStepsAddNoWork(s, run[0]);
      }
      DrainIsBounded(next, run[1..], s');
    }
  }

  /** No live fiber, the span finished exactly once, the handler run exactly once. */
  predicate Over(k: Task) {
    && k.supervisor == Done && k.worker.Finished? && k.watcher.Gone?
    && k.spans == 1 && k.runs == 1
  }

  /** The loop waits for a command. */
  predicate WaitsForCommand(s: State) { s.loop == Popping && s.queue == [] }

  /** A loop whose stop request was lost waits for a command that never comes. */
  predicate WaitsForEver(s: State) { s.stopLost && WaitsForCommand(s) }

  /** The processing thread has nothing left to do; only a loop that raised has left tasks unstarted. */
  predicate Quiescent(s: State) {
    && s.current == EventLoop && (LoopEnded(s) || WaitsForCommand(s))
    && forall t :: 0 <= t < |s.tasks| && s.tasks[t].submission == Accepted ==>
         Over(s.tasks[t]) || (DroppedTask(s) && !HasStarted(s.tasks[t]))
  }

  /** The step that a task whose fiber holds the thread can take. */
  lemma HeldTaskCanStep(k: Task, held: Option<FiberKind>) returns (m: Move)
    requires TaskInv(k, held) && held.Some?
    ensures LocalStep(k, held, m).Some?
  {
    match held.value
    case SupervisorFiber => m := Supervise;
    case WatcherFiber => m := Watch;
    case WorkerFiber => m := Work(if k.worker.InBlock? then Abort else Proceed);
  }

  /** The step that a started task can take when no fiber holds the thread. */
  lemma StartedTaskCanStep(k: Task) returns (m: Move)
    requires TaskInv(k, None) && HasStarted(k) && k.supervisor != Done
    ensures LocalStep(k, None, m).Some?
  {
    if k.supervisor == Joining && !k.worker.Finished? {
      m := Work(if k.worker.InBlock? then Abort else Proceed);
    } else {
      m := Supervise;
    }
  }

  /** Until it is quiescent, the processing thread has a step to take, and one in which the loop does not raise. */
  lemma ProcessorNeverStuck(s: State) returns (a: Action)
    requires Inv(s) && !Quiescent(s)
    ensures Enabled(s, a) && OnProcessingThread(a) && !LoopRaises(a)
  {
    if s.current.Running? {
      var t := s.current.task;
      assert TaskInv(s.tasks[t], HeldBy(s.current, t));
      var m := HeldTaskCanStep(s.tasks[t], HeldBy(s.current, t));
      return Fiber(t, m);
    }
    if s.loop.Dispatching? {
      return Dispatch;
    }
    if s.loop == ShuttingDown {
      return AwaitTasks;
    }
    if s.loop == Popping && s.queue != [] {
      return PopCommand;
    }
    a := WaitingCanStep(s);
  }

  lemma WaitingCanStep(s: State) returns (a: Action)
    requires Inv(s) && s.current == EventLoop && !Quiescent(s)
    requires s.loop == Draining || LoopEnded(s) || WaitsForCommand(s)
    ensures Enabled(s, a) && OnProcessingThread(a) && !LoopRaises(a)
  {
    if t :| 0 <= t < |s.tasks| && HasStarted(s.tasks[t]) && s.tasks[t].supervisor != Done {
      assert TaskInv(s.tasks[t], HeldBy(s.current, t));
      var m := StartedTaskCanStep(s.tasks[t]);
      return Fiber(t, m);
    }
    forall t | 0 <= t < |s.tasks|
      ensures s.tasks[t].submission == Accepted ==> Over(s.tasks[t]) || (DroppedTask(s) && !HasStarted(s.tasks[t]))
      ensures !DroppedTask(s) ==> SupervisorOver(s.tasks[t])
    {
      assert TaskInv(s.tasks[t], HeldBy(s.current, t));
      assert !DroppedTask(s) ==> Execute(t) !in s.queue;
    }
    a := if exists t :: 0 <= t < |s.tasks| && TaskFailed(s.tasks[t]) then BarrierRaises else Break;
  }

  /** A loop at rest has ended, or no Shutdown was queued for it. */
  lemma RestingLoop(s: State)
    requires QueueInv(s) && LoopInv(s) && Quiescent(s)
    ensures LoopEnded(s) <==> (s.isShutdown && !s.stopLost) || s.loop.Crashed?
  {
  }

  lemma ProcessorKeepsFlags(s: State, a: Action)
    requires Enabled(s, a) && OnProcessingThread(a)
    ensures Apply(s, a).isShutdown == s.isShutdown && Apply(s, a).stopLost == s.stopLost
    ensures !LoopRaises(a) ==> (Apply(s, a).loop.Crashed? <==> s.loop.Crashed?)
  {
  }

  /**
   From any reachable state the processing thread can come to rest on its own,
   raising nothing more. After the stop request the loop ends unless its Shutdown was lost.
   */
  lemma {:induction false} DrainTerminates(s: State) returns (run: seq<Action>, s': State)
    requires Inv(s)
    ensures Reaches(s, run, s') && Quiescent(s') && |run| <= Measure(s)
    ensures forall i :: 0 <= i < |run| ==> OnProcessingThread(run[i]) && !LoopRaises(run[i])
    ensures s'.loop.Crashed? <==> s.loop.Crashed?
    ensures LoopEnded(s') <==> (s.isShutdown && !s.stopLost) || s.loop.Crashed?
    decreases Measure(s)
  {
    if Quiescent(s) {
      RestingLoop(s);
      return [], s;
    }
    var a := ProcessorNeverStuck(s);
    StepKeeps(s, a);
    ProcessorStepDescends(s, a);
    ProcessorKeepsFlags(s, a);
    var rest, last := DrainTerminates(Apply(s, a));
    run, s' := [a] + rest, last;
    assert run[1..] == rest;
  }

  lemma {:induction false} ProcessorRunIsBounded(s: State, run: seq<Action>, s': State)
    requires Inv(s) && Reaches(s, run, s') && forall a | a in run :: OnProcessingThread(a)
    ensures |run| + Measure(s') <= Measure(s)
    decreases |run|
  {
    if run != [] {
      assert run == [run[0]] + run[1..];
      StepKeeps(s, run[0]);
      ProcessorStepDescends(s, run[0]);
      ProcessorRunIsBounded(Apply(s, run[0]), run[1..], s');
    }
  }

  /** Whatever user code does and whatever raises: a run of the processing thread that can go no further is at rest. */
  lemma EveryFullRunRests(s: State, run: seq<Action>, s': State)
    requires Inv(s) && Reaches(s, run, s') && forall a | a in run :: OnProcessingThread(a)
    requires forall a | Enabled(s', a) :: !OnProcessingThread(a)
    ensures Quiescent(s') && |run| <= Measure(s)
  {
    RunKeeps(s, run, s');
    ProcessorRunIsBounded(s, run, s');
    if !Quiescent(s') {
      var a := ProcessorNeverStuck(s');
      assert false;
    }
  }

  /** At rest after a stop request, the loop waits for ever exactly when that request raised and the loop did not. */
  lemma LoopWaitsForEverIff(run: seq<Action>, s: State)
    requires Reaches(INITIAL, run, s) && s.isShutdown && Quiescent(s)
    ensures WaitsForEver(s) <==> StopRaises in run && !HasLoopRaise(run)
  {
    ReachableKeeps(run, s);
    CrashIsARaise(INITIAL, run, s);
    LostStopIsARaise(INITIAL, run, s);
  }

  /** After a stop request that raised, the loop does not end, unless it raises itself. */
  lemma LoopOutlivesALostStop(run: seq<Action>, s: State)
    requires Reaches(INITIAL, run, s) && StopRaises in run
    ensures LoopEnded(s) <==> HasLoopRaise(run)
  {
    ReachableKeeps(run, s);
    CrashIsARaise(INITIAL, run, s);
    LostStopIsARaise(INITIAL, run, s);
  }
}
