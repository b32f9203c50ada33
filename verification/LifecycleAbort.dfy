/**
 Runs in which the command loop ends early: a failed task ends it while another is
 still at work, and a raise of its own leaves accepted tasks unstarted for good.
 */
module LifecycleAbort {
  import opened Options
  import opened ResultChannel
  import opened Lifecycle

  /** A task that the bridge has accepted. */
  const WAITING := NewTask(1).(submission := Accepted, supervisor := Queued)

  /** What both the handler and the error capture raise in the failing task. */
  const BOOM := Raised(None, Some("boom"), None, "boom")

  /** The same task after its handler raised and the error capture raised in turn. */
  const FAILED := WAITING.(supervisor := Done, worker := Finished(Failed), watcher := Gone(true), runs := 1, spans := 1)

  /** The same task suspended in its block. */
  const SUSPENDED := WAITING.(supervisor := WorkerSpawned, worker := InBlock(false), runs := 1, fuel := 0)

  lemma TwoTasksAccepted() returns (run: seq<Action>)
    ensures Reaches(INITIAL, run, INITIAL.(queue := [Execute(0), Execute(1)], tasks := [WAITING, WAITING]))
  {
    var s1 := Apply(INITIAL, Schedule(1));
    OneStep(INITIAL, Schedule(1));
    var s2 := Apply(s1, RunBridgeCommand);
    assert s2 == INITIAL.(queue := [Execute(0)], tasks := [WAITING]);
    Extend(INITIAL, [Schedule(1)], s1, RunBridgeCommand);
    var s3 := Apply(s2, Schedule(1));
    run := [Schedule(1)] + [RunBridgeCommand];
    Extend(INITIAL, run, s2, Schedule(1));
    assert s3.tasks == [WAITING, NewTask(1)] && s3.channel == [Submit(1)];
    Extend(INITIAL, run + [Schedule(1)], s3, RunBridgeCommand);
    var s4 := Apply(s3, RunBridgeCommand);
    assert s4.tasks == [WAITING, WAITING] && s4.queue == [Execute(0), Execute(1)] && s4.channel == [];
    run := run + [Schedule(1)] + [RunBridgeCommand];
  }

  /** The steps of the one fiber of task `t` change that task and the running fiber only. */
  lemma FiberRuns(s: State, run: seq<Action>, s1: State, t: nat, move: Move, k: Task, held: Option<FiberKind>)
    requires Reaches(s, run, s1) && t < |s1.tasks| && (s1.current == EventLoop || s1.current.task == t)
    requires LocalStep(s1.tasks[t], HeldBy(s1.current, t), move) == Some((k, held))
    ensures Reaches(s, run + [Fiber(t, move)], s1.(tasks := s1.tasks[t := k], current := CurrentOf(t, held)))
  {
    Extend(s, run, s1, Fiber(t, move));
  }

  const DISPATCHED := WAITING.(supervisor := Started)
  const ENTERED := WAITING.(supervisor := WorkerSpawned, worker := InBlock(false), runs := 1)
  const CAPTURING := ENTERED.(worker := Capture(BOOM))
  const DYING := ENTERED.(worker := Ensure(Failed))
  const DEAD := ENTERED.(worker := Finished(Failed), token := 1)

  /** The loop pops the command of task `t` and starts the task's supervisor. */
  lemma TaskStarts(s: State, t: nat) returns (run: seq<Action>)
    requires s.current == EventLoop && s.loop == Popping && t < |s.tasks| && s.tasks[t] == WAITING
    requires s.queue != [] && s.queue[0] == Execute(t)
    ensures Reaches(s, run, s.(queue := s.queue[1..], current := Running(t, WorkerFiber),
                               tasks := s.tasks[t := ENTERED]))
  {
    var s1 := Apply(s, PopCommand);
    OneStep(s, PopCommand);
    var s2 := Apply(s1, Dispatch);
    Extend(s, [PopCommand], s1, Dispatch);
    assert s2.tasks == s.tasks[t := DISPATCHED];
    run := [PopCommand] + [Dispatch];
    FiberRuns(s, run, s2, t, Supervise, ENTERED, Some(WorkerFiber));
    run := run + [Fiber(t, Supervise)];
    assert s2.tasks[t := ENTERED] == s.tasks[t := ENTERED];
  }

  /** The handler of an entered worker raises, and so does the error capture. */
  lemma WorkerFails(s: State, t: nat) returns (run: seq<Action>)
    requires t < |s.tasks| && s.current == Running(t, WorkerFiber) && s.tasks[t] == ENTERED
    ensures Reaches(s, run, s.(tasks := s.tasks[t := DYING]))
  {
    OneStep(s, Fiber(t, Work(Raise(BOOM))));
    var s1 := s.(tasks := s.tasks[t := CAPTURING]);
    run := [Fiber(t, Work(Raise(BOOM)))];
    FiberRuns(s, run, s1, t, Work(Raise(BOOM)), DYING, Some(WorkerFiber));
    run := run + [Fiber(t, Work(Raise(BOOM)))];
    assert s1.tasks[t := DYING] == s.tasks[t := DYING];
  }

  /** An entered worker dies and signals its token; nothing has been reported. */
  lemma WorkerDies(s: State, t: nat) returns (run: seq<Action>)
    requires t < |s.tasks| && s.current == Running(t, WorkerFiber) && s.tasks[t] == ENTERED
    ensures Reaches(s, run, s.(current := EventLoop, tasks := s.tasks[t := DEAD]))
  {
    run := WorkerFails(s, t);
    var s2 := s.(tasks := s.tasks[t := DYING]);
    FiberRuns(s, run, s2, t, Work(Proceed), DEAD, None);
    run := run + [Fiber(t, Work(Proceed))];
    assert s2.tasks[t := DEAD] == s.tasks[t := DEAD];
  }

  const WATCHED := DEAD.(watcher := Fresh, supervisor := Joining)
  const POPPED := WATCHED.(watcher := Stopping, token := 0)
  const UNWATCHED := POPPED.(watcher := Gone(true))
  const CLEANING := UNWATCHED.(supervisor := Cleanup)
  const CLOSING := UNWATCHED.(supervisor := FinishingSpan)

  /** The watcher pops the worker's own signal and finds nobody to stop. */
  lemma WatcherComesAndGoes(s: State, t: nat) returns (run: seq<Action>)
    requires t < |s.tasks| && s.current == EventLoop && s.tasks[t] == DEAD
    ensures Reaches(s, run, s.(tasks := s.tasks[t := UNWATCHED]))
  {
    OneStep(s, Fiber(t, Supervise));
    var s1 := s.(tasks := s.tasks[t := WATCHED], current := Running(t, WatcherFiber));
    run := [Fiber(t, Supervise)];
    FiberRuns(s, run, s1, t, Watch, POPPED, Some(WatcherFiber));
    run := run + [Fiber(t, Watch)];
    var s2 := s1.(tasks := s1.tasks[t := POPPED]);
    FiberRuns(s, run, s2, t, Watch, UNWATCHED, None);
    run := run + [Fiber(t, Watch)];
    assert s2.tasks[t := UNWATCHED] == s.tasks[t := UNWATCHED];
  }

  /** The supervisor joins the dead worker and stops its barrier. */
  lemma SupervisorJoins(s: State, t: nat) returns (run: seq<Action>)
    requires t < |s.tasks| && s.current == EventLoop && s.tasks[t] == UNWATCHED
    ensures Reaches(s, run, s.(tasks := s.tasks[t := CLOSING]))
  {
    OneStep(s, Fiber(t, Supervise));
    var s1 := s.(tasks := s.tasks[t := CLEANING], current := Running(t, SupervisorFiber));
    run := [Fiber(t, Supervise)];
    FiberRuns(s, run, s1, t, Supervise, CLOSING, None);
    run := run + [Fiber(t, Supervise)];
    assert s1.tasks[t := CLOSING] == s.tasks[t := CLOSING];
  }

  /** It finishes the span and is done. */
  lemma SupervisorEnds(s: State, t: nat) returns (run: seq<Action>)
    requires t < |s.tasks| && s.current == EventLoop && s.tasks[t] == UNWATCHED
    ensures Reaches(s, run, s.(tasks := s.tasks[t := FAILED]))
  {
    run := SupervisorJoins(s, t);
    var s2 := s.(tasks := s.tasks[t := CLOSING]);
    FiberRuns(s, run, s2, t, Supervise, FAILED, None);
    run := run + [Fiber(t, Supervise)];
    assert s2.tasks[t := FAILED] == s.tasks[t := FAILED];
  }

  lemma SupervisorWindsUp(s: State, t: nat) returns (run: seq<Action>)
    requires t < |s.tasks| && s.current == EventLoop && s.tasks[t] == DEAD
    ensures Reaches(s, run, s.(tasks := s.tasks[t := FAILED]))
  {
    var first := WatcherComesAndGoes(s, t);
    var mid := s.(tasks := s.tasks[t := UNWATCHED]);
    var second := SupervisorEnds(mid, t);
    assert mid.tasks[t := FAILED] == s.tasks[t := FAILED];
    Chain(s, first, mid, second, s.(tasks := s.tasks[t := FAILED]));
    run := first + second;
  }

  /** A worker yields inside its block. */
  lemma WorkerYields(s: State, t: nat) returns (run: seq<Action>)
    requires t < |s.tasks| && s.current == Running(t, WorkerFiber) && s.tasks[t] == ENTERED
    ensures Reaches(s, run, s.(current := EventLoop, tasks := s.tasks[t := SUSPENDED]))
  {
    run := [Fiber(t, Work(Yield))];
    OneStep(s, Fiber(t, Work(Yield)));
  }

  /** Shutdown is requested and queued. */
  lemma StopIsQueued(s: State) returns (run: seq<Action>)
    requires s.loop == Popping && s.queue == [] && s.channel == [] && !s.isShutdown
    ensures Reaches(s, run, s.(isShutdown := true, queue := [Shutdown]))
  {
    OneStep(s, DropScheduler);
    var s1 := s.(channel := [StopProcessor]);
    Extend(s, [DropScheduler], s1, RunBridgeCommand);
    assert Apply(s1, RunBridgeCommand) == s.(isShutdown := true, queue := [Shutdown]);
    run := [DropScheduler] + [RunBridgeCommand];
  }

  /** It is popped, and the barrier re-raises the failure. */
  lemma LoopAborts(s: State) returns (run: seq<Action>)
    requires s.current == EventLoop && s.loop == Popping && s.queue == [] && s.channel == [] && !s.isShutdown
    requires exists t :: 0 <= t < |s.tasks| && TaskFailed(s.tasks[t])
    ensures Reaches(s, run, s.(isShutdown := true, loop := Aborted))
  {
    run := StopIsQueued(s);
    var s2 := s.(isShutdown := true, queue := [Shutdown]);
    Extend(s, run, s2, PopCommand);
    run := run + [PopCommand];
    var s3 := s.(isShutdown := true, loop := ShuttingDown);
    assert Apply(s2, PopCommand) == s3;
    Extend(s, run, s3, AwaitTasks);
    run := run + [AwaitTasks];
    Extend(s, run, s.(isShutdown := true, loop := Draining), BarrierRaises);
    run := run + [BarrierRaises];
  }

  const AFTER_FAILURE := INITIAL.(queue := [Execute(1)], tasks := [FAILED, WAITING])

  lemma FirstTaskFails() returns (run: seq<Action>)
    ensures Reaches(INITIAL, run, AFTER_FAILURE)
  {
    var s0 := INITIAL.(queue := [Execute(0), Execute(1)], tasks := [WAITING, WAITING]);
    run := TwoTasksAccepted();
    var r1 := TaskStarts(s0, 0);
    var s1 := INITIAL.(queue := [Execute(1)], current := Running(0, WorkerFiber), tasks := [ENTERED, WAITING]);
    assert s0.queue[1..] == [Execute(1)] && s0.tasks[0 := ENTERED] == s1.tasks;
    var r2 := WorkerDies(s1, 0);
    var s2 := INITIAL.(queue := [Execute(1)], tasks := [DEAD, WAITING]);
    assert s1.tasks[0 := DEAD] == s2.tasks;
    var r3 := SupervisorWindsUp(s2, 0);
    assert s2.tasks[0 := FAILED] == AFTER_FAILURE.tasks;
    Chain(s1, r2, s2, r3, AFTER_FAILURE);
    Chain(s0, r1, s1, r2 + r3, AFTER_FAILURE);
    Chain(INITIAL, run, s0, r1 + (r2 + r3), AFTER_FAILURE);
    run := run + (r1 + (r2 + r3));
  }

  /**
   The command loop can end while an accepted task is still in its handler: the
   failure of another task makes the barrier raise before it has waited for all.
   */
  lemma FailedTaskCutsTheWaitShort() returns (run: seq<Action>, s: State)
    ensures Reaches(INITIAL, run, s) && s.loop == Aborted
    ensures |s.tasks| == 2 && s.tasks[1].submission == Accepted && s.tasks[1].worker == InBlock(false)
  {
    run := FirstTaskFails();
    var r1 := TaskStarts(AFTER_FAILURE, 1);
    var s1 := INITIAL.(current := Running(1, WorkerFiber), tasks := [FAILED, ENTERED]);
    assert AFTER_FAILURE.queue[1..] == [] && AFTER_FAILURE.tasks[1 := ENTERED] == s1.tasks;
    var r2 := WorkerYields(s1, 1);
    var s2 := INITIAL.(tasks := [FAILED, SUSPENDED]);
    assert s1.tasks[1 := SUSPENDED] == s2.tasks;
    assert TaskFailed(s2.tasks[0]);
    var r3 := LoopAborts(s2);
    s := s2.(isShutdown := true, loop := Aborted);
    Chain(s1, r2, s2, r3, s);
    Chain(AFTER_FAILURE, r1, s1, r2 + r3, s);
    Chain(INITIAL, run, AFTER_FAILURE, r1 + (r2 + r3), s);
    run := run + (r1 + (r2 + r3));
  }

  const DROPPED := WAITING.(supervisor := Abandoned(false))

  lemma LogRaisesAtTheFirst() returns (run: seq<Action>)
    ensures Reaches(INITIAL, run, INITIAL.(queue := [Execute(1)], loop := Crashed(Some(0)), tasks := [DROPPED, WAITING]))
  {
    var s0 := INITIAL.(queue := [Execute(0), Execute(1)], tasks := [WAITING, WAITING]);
    run := TwoTasksAccepted();
    Extend(INITIAL, run, s0, PopCommand);
    var s1 := Apply(s0, PopCommand);
    run := run + [PopCommand];
    Extend(INITIAL, run, s1, LogRaises);
    var s2 := Apply(s1, LogRaises);
    assert s2.queue == [Execute(1)] && s2.tasks == [DROPPED, WAITING];
    run := run + [LogRaises];
  }

  /**
   The log call in front of a dispatch raises: the popped task never starts, the next
   one stays in the queue, and a third is accepted although nothing will run it.
   */
  lemma RaisingLogLeavesTasksUnstarted() returns (run: seq<Action>, s: State)
    ensures Reaches(INITIAL, run, s) && s.loop == Crashed(Some(0)) && !s.isShutdown
    ensures s.queue == [Execute(1), Execute(2)] && s.tasks == [DROPPED, WAITING, WAITING]
  {
    var s2 := INITIAL.(queue := [Execute(1)], loop := Crashed(Some(0)), tasks := [DROPPED, WAITING]);
    run := LogRaisesAtTheFirst();
    Extend(INITIAL, run, s2, Schedule(1));
    var s3 := Apply(s2, Schedule(1));
    assert s3.tasks == [DROPPED, WAITING, NewTask(1)] && s3.channel == [Submit(2)];
    run := run + [Schedule(1)];
    Extend(INITIAL, run, s3, RunBridgeCommand);
    s := Apply(s3, RunBridgeCommand);
    run := run + [RunBridgeCommand];
  }

  /** The log call of `stop` raises: the flag is set, submissions are refused, and the loop waits for ever. */
  lemma RaisingStopLeavesTheLoopWaiting() returns (run: seq<Action>, s: State)
    ensures Reaches(INITIAL, run, s) && s == INITIAL.(isShutdown := true, stopLost := true)
    ensures !Enabled(s, PopCommand) && !LoopEnded(s)
  {
    OneStep(INITIAL, DropScheduler);
    var s1 := INITIAL.(channel := [StopProcessor]);
    Extend(INITIAL, [DropScheduler], s1, StopRaises);
    s := Apply(s1, StopRaises);
    run := [DropScheduler] + [StopRaises];
  }
}
