/**
 What a caller gets, in terms of what its handler block did: the block's exit decides
 the first report, and the first report is what the caller receives.
 */
module LifecycleOutcome {
  import opened Options
  import opened ResultChannel
  import opened Lifecycle
  import opened LifecycleInvariant
  import opened LifecycleTheorems

  // ------------------------------------------------------------ single steps

  /** User code is free: whatever the source lets a block or a log call do, the system lets it do. */
  lemma UserCodeIsFree(k: Task, held: Option<FiberKind>, v: Returned, e: Raised)
    requires held == None || held == Some(WorkerFiber)
    requires k.worker.InBlock? || k.worker == LogSuccess || k.worker == LogCancelled || k.worker.Capture? || k.worker == LogError
    ensures k.fuel > 0 ==> WorkerStep(k, held, Yield) == Some((k.(fuel := k.fuel - 1), None))
    ensures WorkerStep(k, held, Raise(e)).Some? && WorkerStep(k, held, Abort).Some?
    ensures k.worker.InBlock? ==> WorkerStep(k, held, Return(v)).Some?
    ensures k.worker.InBlock? ==> (WorkerStep(k, held, Reraise).Some? <==> k.worker.stopRaised)
    ensures !k.worker.InBlock? ==> WorkerStep(k, held, Proceed).Some?
    ensures var aborted, raised := WorkerStep(k, held, Abort).value.0, WorkerStep(k, held, Raise(e)).value.0;
            && aborted.worker == Ensure(Failed) && aborted.reports == k.reports
            && raised.reports == k.reports
            && raised.worker == if k.worker.InBlock? || k.worker == LogSuccess then Capture(e) else Ensure(Failed)
  {
  }

  /** A caller that waits can ask for a cancel, and the bridge then signals that task's token and nothing else. */
  lemma CancelCanBePushed(s: State, t: nat)
    requires s.channel == [] && t < |s.tasks| && s.tasks[t].submission == Accepted
    requires s.tasks[t].rust == Awaiting && s.tasks[t].cancellation == NotAsked
    ensures Enabled(s, RequestCancel(t)) && Enabled(Apply(s, RequestCancel(t)), RunBridgeCommand)
    ensures RunHead(Apply(s, RequestCancel(t)))
         == s.(tasks := s.tasks[t := s.tasks[t].(cancellation := Pushed, token := s.tasks[t].token + 1)])
  {
    var asked := Apply(s, RequestCancel(t));
    assert asked.channel == [Cancel(t)];
    assert RunHead(asked).tasks == s.tasks[t := s.tasks[t].(cancellation := Pushed, token := s.tasks[t].token + 1)];
  }

  /** What Rust itself does to a task: submits it, drops its future, or takes its outcome. */
  lemma RustStepsTakeEffect(s: State, t: nat, fuel: nat)
    ensures var scheduled := Apply(s, Schedule(fuel));
            && scheduled.channel == s.channel + [Submit(|s.tasks|)] && scheduled.tasks[..|s.tasks|] == s.tasks
            && |scheduled.tasks| == |s.tasks| + 1
            && var k := scheduled.tasks[|s.tasks|];
            k.fuel == fuel && k.submission == Submitting && k.rust == Awaiting && k.channel == Channel(Armed, true)
    ensures Apply(s, DropScheduler).channel == s.channel + [StopProcessor]
    ensures t < |s.tasks| && s.tasks[t].rust == Awaiting ==>
              Enabled(s, DropFuture(t)) && Apply(s, DropFuture(t)).tasks[t].rust == Forgotten
              && !Apply(s, DropFuture(t)).tasks[t].channel.receiverOpen
    ensures Enabled(s, Receive(t)) ==>
              Apply(s, Receive(t)).tasks[t].rust.Resolved? && !Apply(s, Receive(t)).tasks[t].channel.receiverOpen
  {
  }

  /** A failure that does not call itself permanent, with the message of a cancel. */
  predicate IsCancelReport(r: Report) {
    r.Failure? && r.error.permanent == None && r.error.plain == "Task cancelled"
  }

  /**
   Where a Stop takes a worker: a block sees it raised and decides; behind a reported
   success it leads to the cancel report; in a rescue body it ends the worker with
   nothing more reported.
   */
  lemma StopTakesEffect(k: Task)
    requires TaskInv(k, Some(WatcherFiber)) && k.watcher == Stopping && !k.worker.Finished?
    ensures var stopped := WatcherStep(k, Some(WatcherFiber));
            && stopped.Some? && stopped.value.1 == Some(WorkerFiber)
            && var k' := stopped.value.0;
            && k'.stops == 1 && k'.reports == k.reports && k'.channel == k.channel
            && (k.worker.InBlock? ==> k'.worker == InBlock(true))
            && (!k.worker.InBlock? ==>
                  var next := WorkerStep(k', Some(WorkerFiber), Proceed);
                  && next.Some?
                  && if k.worker == LogSuccess
                     then |next.value.0.reports| == |k.reports| + 1 && next.value.0.reports[..|k.reports|] == k.reports
                          && IsCancelReport(next.value.0.reports[|k.reports|])
                     else next.value.0.worker == Finished(Stopped) && next.value.0.reports == k.reports)
  {
  }

  /** A block that lets the Stop through is reported as cancelled in its next two steps. */
  lemma StopLetThroughIsCancelled(k: Task, held: Option<FiberKind>)
    requires TaskInv(k, held) && k.worker == InBlock(true) && (held == None || held == Some(WorkerFiber))
    ensures var first := WorkerStep(k, held, Reraise);
            && first.Some?
            && var second := WorkerStep(first.value.0, first.value.1, Proceed);
            second.Some? && |second.value.0.reports| == 1 && IsCancelReport(second.value.0.reports[0])
  {
  }

  // -------------------------------------------------------------- whole runs

  /** How the block of task `t` was left: its first move in the run that is no yield. */
  function Exit(run: seq<Action>, t: nat): Option<WorkerMove> {
    if run == [] then None
    else match run[0]
      case Fiber(u, Work(m)) => if u == t && m != Yield && m != Proceed then Some(m) else Exit(run[1..], t)
      case _ => Exit(run[1..], t)
  }

  predicate PastBlock(k: Task) { !k.worker.Unspawned? && !k.worker.InBlock? }

  /** Where a task stands whose block was left by `exit`, or was not left. */
  predicate Follows(k: Task, exit: Option<WorkerMove>) {
    match exit
    case None => !PastBlock(k) && k.reports == []
    case Some(Return(v)) =>
      && PastBlock(k)
      && if k.reports == [] then k.worker == CallSuccess(v) else k.reports[0] == Success(v)
    case Some(Raise(e)) =>
      && PastBlock(k)
      && if k.reports == []
         then k.worker == Capture(e) || k.worker == CallError(e) || k.worker.Ensure? || k.worker.Finished?
         else k.reports[0] == Failure(e)
    case Some(Reraise) =>
      && PastBlock(k) && k.stops == 1
      && if k.reports == [] then k.worker == CallCancelled
         else k.reports[0] == Failure(Raised(None, Some("Task cancelled"), None, "Task cancelled"))
    case Some(Abort) => k.reports == [] && (k.worker.Ensure? || k.worker.Finished?)
    case Some(_) => false
  }

  function After(exit: Option<WorkerMove>, move: Move): Option<WorkerMove> {
    if exit.Some? then exit
    else match move
      case Work(m) => if m != Yield && m != Proceed then Some(m) else None
      case _ => None
  }

  lemma WorkerStepFollows(k: Task, held: Option<FiberKind>, m: WorkerMove, exit: Option<WorkerMove>)
    requires TaskInv(k, held) && Follows(k, exit) && WorkerStep(k, held, m).Some?
    ensures Follows(WorkerStep(k, held, m).value.0, After(exit, Work(m)))
  {
  }

  lemma LocalStepFollows(k: Task, held: Option<FiberKind>, move: Move, exit: Option<WorkerMove>)
    requires TaskInv(k, held) && Follows(k, exit) && LocalStep(k, held, move).Some?
    ensures Follows(LocalStep(k, held, move).value.0, After(exit, move))
  {
    match move
    case Work(m) => WorkerStepFollows(k, held, m, exit);
    case _ =>
  }

  predicate SameWork(k: Task, k': Task) {
    k'.worker == k.worker && k'.reports == k.reports && k'.stops == k.stops
  }

  lemma OtherStepKeepsWork(s: State, a: Action, t: nat)
    requires t < |s.tasks| && Enabled(s, a) && !(a.Fiber? && a.task == t)
    ensures t < |Apply(s, a).tasks| && SameWork(s.tasks[t], Apply(s, a).tasks[t])
  {
    if !Concerns(s, a, t) {
      StepsStayApart(s, a, t);
    }
  }

  predicate TaskFollows(s: State, t: nat, exit: Option<WorkerMove>) {
    if t < |s.tasks| then Follows(s.tasks[t], exit) else exit == None
  }

  function AfterAction(exit: Option<WorkerMove>, a: Action, t: nat): Option<WorkerMove> {
    if a.Fiber? && a.task == t then After(exit, a.move) else exit
  }

  lemma StepFollows(s: State, a: Action, t: nat, exit: Option<WorkerMove>)
    requires TasksInv(s) && Enabled(s, a) && TaskFollows(s, t, exit)
    ensures TaskFollows(Apply(s, a), t, AfterAction(exit, a, t))
  {
    if t < |s.tasks| {
      if a.Fiber? && a.task == t {
        LocalStepFollows(s.tasks[t], HeldBy(s.current, t), a.move, exit);
      } else {
        OtherStepKeepsWork(s, a, t);
      }
    }
  }

  lemma {:induction false} RunFollows(s: State, run: seq<Action>, s': State, t: nat, exit: Option<WorkerMove>)
    requires Inv(s) && Reaches(s, run, s') && TaskFollows(s, t, exit)
    ensures TaskFollows(s', t, if exit.Some? then exit else Exit(run, t))
    decreases |run|
  {
    if run != [] {
      StepFollows(s, run[0], t, exit);
      StepKeeps(s, run[0]);
      RunFollows(Apply(s, run[0]), run[1..], s', t, AfterAction(exit, run[0], t));
    }
  }

  /**
   The first report is what the block did: its return value, the error it raised, or a
   cancel if it let a Stop through; nothing is reported before the block is left, and
   only an abort or a raise can leave it without a report in the end.
   */
  lemma BlockDecidesFirstReport(run: seq<Action>, s: State, t: nat)
    requires Reaches(INITIAL, run, s) && t < |s.tasks|
    ensures var k, exit := s.tasks[t], Exit(run, t);
            && (k.reports != [] ==> exit.Some? && !exit.value.Abort?)
            && (k.reports != [] && exit.value.Return? ==> k.reports[0] == Success(exit.value.value))
            && (k.reports != [] && exit.value.Raise? ==> k.reports[0] == Failure(exit.value.error))
            && (k.reports != [] && exit.value == Reraise ==> IsCancelReport(k.reports[0]) && k.stops == 1)
            && (k.worker.Finished? ==> exit.Some?)
            && (k.worker.Finished? && k.reports == [] ==> exit.value == Abort || exit.value.Raise?)
  {
    InitialIsInOrder();
    RunFollows(INITIAL, run, s, t, None);
  }

  // ------------------------------------------------------------- end to end

  /** The text of an error as the caller reads it: the full message, else the inspected form, else the plain one. */
  predicate IsTextOf(text: string, e: Raised) {
    && (e.fullMessage.Some? ==> text == e.fullMessage.value)
    && (e.fullMessage == None && e.inspected.Some? ==> text == e.inspected.value)
    && (e.fullMessage == None && e.inspected == None ==> text == e.plain)
  }

  /** The caller holds an error of the task with the text of `e`, permanent exactly if `e` says so. */
  predicate HoldsError(result: HandlerResult, e: Raised) {
    && result.HandlerErr? && result.error.Processing?
    && (e.permanent == Some(true) <==> result.error.reason.Permanent?)
    && (e.permanent != Some(true) <==> result.error.reason.Transient?)
    && IsTextOf(result.error.reason.message, e)
  }

  lemma FirstReportIsHeld(k: Task, held: Option<FiberKind>)
    requires TaskInv(k, held) && k.rust.Resolved? && k.reports != []
    ensures var r, result := k.reports[0], k.rust.value;
            && (r.Success? && r.value.Json? ==> result == HandlerOk(r.value.text))
            && (r.Success? && r.value.NoJsonForm? ==> result == HandlerErr(Processing(Transient(r.value.reason))))
            && (r.Failure? ==> HoldsError(result, r.error))
  {
    ResolvedAsReported(k, held);
  }

  lemma SilenceIsHeld(k: Task, held: Option<FiberKind>)
    requires TaskInv(k, held) && k.rust.Resolved? && k.reports == []
    ensures k.rust.value == if k.submission == Refused then HandlerErr(Scheduler(SubmitFailed))
                            else HandlerErr(Processing(Closed))
    ensures k.submission == Accepted ==> k.worker.Unspawned? || k.worker.Finished?
  {
  }

  /**
   From handler to caller, in every run: a returned value arrives as it is, a value
   without JSON form as a transient error with the reason, a raised error with its own
   text and permanence, a Stop let through as a transient cancel; and a caller whose
   task never reported finds the channel closed, or was refused.
   */
  lemma CallerGetsWhatTheBlockDid(run: seq<Action>, s: State, t: nat)
    requires Reaches(INITIAL, run, s) && t < |s.tasks| && s.tasks[t].rust.Resolved?
    ensures var k, exit, result := s.tasks[t], Exit(run, t), s.tasks[t].rust.value;
            && (exit.Some? && exit.value.Return? && exit.value.value.Json? ==>
                  result == HandlerOk(exit.value.value.text))
            && (exit.Some? && exit.value.Return? && exit.value.value.NoJsonForm? ==>
                  result == HandlerErr(Processing(Transient(exit.value.value.reason))))
            && (exit.Some? && exit.value.Raise? ==>
                  HoldsError(result, exit.value.error) || (k.reports == [] && result == HandlerErr(Processing(Closed))))
            && (exit == Some(Reraise) ==> result == HandlerErr(Processing(Transient("Task cancelled"))))
            && (exit == Some(Abort) ==> result == HandlerErr(Processing(Closed)))
            && (exit == None ==>
                  result == HandlerErr(Processing(Closed)) || result == HandlerErr(Scheduler(SubmitFailed)))
  {
    InitialIsInOrder();
    RunFollows(INITIAL, run, s, t, None);
    ReachableTask(run, s, t);
    var k, held := s.tasks[t], HeldBy(s.current, t);
    if k.reports != [] {
      FirstReportIsHeld(k, held);
    } else {
      SilenceIsHeld(k, held);
      if k.submission != Accepted {
        UnspawnedUnlessAccepted(k, held);
      }
    }
  }

  lemma UnspawnedUnlessAccepted(k: Task, held: Option<FiberKind>)
    requires TaskInv(k, held) && k.submission != Accepted
    ensures k.worker.Unspawned?
  {
  }
}
