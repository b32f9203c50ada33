/**
 No caller hangs: the bridge thread can empty its channel, the processing thread can
 come to rest, and then Ruby's collector and the Rust futures can answer everyone
 who still waits.
 */
module LifecycleResolve {
  import opened Lifecycle
  import opened LifecycleInvariant
  import opened LifecycleTheorems
  import opened LifecycleDrain

  /** The steps that answer callers: no fiber and no loop runs. */
  predicate Answers(a: Action) { a.Collect? || a.Receive? }

  /** A task without live fibers: refused, over, or dropped by a loop that raised. */
  predicate Ended(k: Task) { k.supervisor == Idle || k.supervisor == Done || k.supervisor.Abandoned? }

  /** Answering starts nothing and takes back no answer; what was reported stays. */
  predicate Answering(k: Task, k': Task) {
    && k'.supervisor == k.supervisor && k'.reports == k.reports
    && (k.rust == Awaiting ==> k'.rust == Awaiting || k'.rust.Resolved?)
    && (k.rust != Awaiting ==> k'.rust == k.rust)
  }

  predicate AllAnswering(s: State, s': State) {
    && |s'.tasks| == |s.tasks|
    && forall t :: 0 <= t < |s.tasks| ==> Answering(s.tasks[t], s'.tasks[t])
  }

  /** A run of answering steps. */
  ghost predicate AnsweringRun(s: State, run: seq<Action>, s': State) {
    Reaches(s, run, s') && AllAnswering(s, s') && forall a | a in run :: Answers(a)
  }

  lemma NoAnswers(s: State)
    ensures AnsweringRun(s, [], s)
  {
  }

  lemma OneAnswer(s: State, a: Action)
    requires Enabled(s, a) && Answers(a) && AllAnswering(s, Apply(s, a))
    ensures AnsweringRun(s, [a], Apply(s, a))
  {
    OneStep(s, a);
  }

  lemma MoreAnswers(s: State, first: seq<Action>, mid: State, rest: seq<Action>, s': State)
    requires AnsweringRun(s, first, mid) && AnsweringRun(mid, rest, s')
    ensures AnsweringRun(s, first + rest, s')
  {
    Chain(s, first, mid, rest, s');
    forall t | 0 <= t < |s.tasks|
      ensures Answering(s.tasks[t], s'.tasks[t])
    {
      assert Answering(s.tasks[t], mid.tasks[t]) && Answering(mid.tasks[t], s'.tasks[t]);
    }
  }

  /** With the bridge channel empty, every submission is decided and no cancel is under way in it. */
  lemma EndedCallerCanResolve(s: State, t: nat)
    requires ChannelInv(s) && s.channel == [] && t < |s.tasks| && TaskInv(s.tasks[t], HeldBy(s.current, t))
    requires s.tasks[t].rust == Awaiting && Ended(s.tasks[t])
    ensures Enabled(s, Receive(t)) || (Enabled(s, Collect(t)) && Enabled(Apply(s, Collect(t)), Receive(t)))
  {
    assert Submit(t) !in s.channel && Cancel(t) !in s.channel;
    if s.tasks[t].submission == Accepted {
      AnsweredCallerCanResolve(s, t);
    }
  }

  lemma ReceiveAnswers(s: State, t: nat)
    requires Enabled(s, Receive(t))
    ensures AnsweringRun(s, [Receive(t)], Apply(s, Receive(t)))
    ensures Apply(s, Receive(t)).tasks[t].rust.Resolved? && Apply(s, Receive(t)).channel == s.channel
  {
    OneAnswer(s, Receive(t));
  }

  lemma CollectAnswers(s: State, t: nat)
    requires Enabled(s, Collect(t))
    ensures AnsweringRun(s, [Collect(t)], Apply(s, Collect(t))) && Apply(s, Collect(t)).channel == s.channel
  {
    OneAnswer(s, Collect(t));
  }

  lemma AnswerOne(s: State, t: nat) returns (run: seq<Action>, s': State)
    requires t < |s.tasks|
    requires Enabled(s, Receive(t)) || (Enabled(s, Collect(t)) && Enabled(Apply(s, Collect(t)), Receive(t)))
    ensures AnsweringRun(s, run, s') && |run| <= 2
    ensures s'.channel == s.channel && |s'.tasks| == |s.tasks| && s'.tasks[t].rust.Resolved?
  {
    if Enabled(s, Receive(t)) {
      ReceiveAnswers(s, t);
      return [Receive(t)], Apply(s, Receive(t));
    }
    var mid := Apply(s, Collect(t));
    CollectAnswers(s, t);
    ReceiveAnswers(mid, t);
    s' := Apply(mid, Receive(t));
    MoreAnswers(s, [Collect(t)], mid, [Receive(t)], s');
    run := [Collect(t)] + [Receive(t)];
  }

  lemma AnswerIfEnded(s: State, t: nat) returns (run: seq<Action>, s': State)
    requires Inv(s) && s.channel == [] && t < |s.tasks|
    ensures AnsweringRun(s, run, s') && |run| <= 2 && s'.channel == []
    ensures Ended(s.tasks[t]) ==> t < |s'.tasks| && s'.tasks[t].rust != Awaiting
  {
    if s.tasks[t].rust != Awaiting || !Ended(s.tasks[t]) {
      NoAnswers(s);
      return [], s;
    }
    EndedCallerCanResolve(s, t);
    run, s' := AnswerOne(s, t);
  }

  /** All ended tasks from `n` on are answered. */
  ghost predicate AnsweredFrom(s: State, s': State, n: nat) {
    && |s'.tasks| == |s.tasks|
    && forall t :: n <= t < |s.tasks| && Ended(s.tasks[t]) ==> s'.tasks[t].rust != Awaiting
  }

  lemma AnsweredFromNext(s: State, mid: State, s': State, n: nat)
    requires n < |s.tasks| && AllAnswering(s, mid) && AllAnswering(mid, s') && AnsweredFrom(mid, s', n + 1)
    requires Ended(s.tasks[n]) ==> mid.tasks[n].rust != Awaiting
    ensures AnsweredFrom(s, s', n)
  {
    forall t | n <= t < |s.tasks| && Ended(s.tasks[t])
      ensures s'.tasks[t].rust != Awaiting
    {
      assert Answering(s.tasks[t], mid.tasks[t]) && Answering(mid.tasks[t], s'.tasks[t]);
    }
  }

  /** The callers whose tasks have ended are answered one after the other. */
  lemma {:induction false} AnswerFrom(s: State, n: nat) returns (run: seq<Action>, s': State)
    requires Inv(s) && s.channel == [] && n <= |s.tasks|
    ensures AnsweringRun(s, run, s') && AnsweredFrom(s, s', n) && |run| <= 2 * (|s.tasks| - n)
    decreases |s.tasks| - n
  {
    if n == |s.tasks| {
      NoAnswers(s);
      return [], s;
    }
    var first, mid := AnswerIfEnded(s, n);
    RunKeeps(s, first, mid);
    var rest;
    rest, s' := AnswerFrom(mid, n + 1);
    MoreAnswers(s, first, mid, rest, s');
    AnsweredFromNext(s, mid, s', n);
    run := first + rest;
  }

  /** Whoever waited for `k` has the outcome that `k` reported first. */
  predicate Answered(k: Task, k': Task) {
    && k'.supervisor == k.supervisor && k'.reports == k.reports && k'.rust != Awaiting
    && (k.rust == Awaiting ==> k'.rust == Resolved(FirstOutcome(k')))
  }

  lemma AnsweredInTheEnd(s: State, s': State, t: nat)
    requires AllAnswering(s, s') && AnsweredFrom(s, s', 0) && t < |s.tasks| && Ended(s.tasks[t])
    requires TaskInv(s'.tasks[t], HeldBy(s'.current, t))
    ensures Answered(s.tasks[t], s'.tasks[t])
  {
    assert Answering(s.tasks[t], s'.tasks[t]);
    ResolvedAsReported(s'.tasks[t], HeldBy(s'.current, t));
  }

  ghost predicate AllEndedAnswered(s: State, s': State) {
    && |s'.tasks| == |s.tasks|
    && forall t :: 0 <= t < |s.tasks| && Ended(s.tasks[t]) ==> Answered(s.tasks[t], s'.tasks[t])
  }

  /** In every state with an empty channel, the callers of all ended tasks can be answered. */
  lemma EndedCallersAreAnswered(s: State) returns (run: seq<Action>, s': State)
    requires Inv(s) && s.channel == []
    ensures AnsweringRun(s, run, s') && AllEndedAnswered(s, s') && |run| <= 2 * |s.tasks|
  {
    run, s' := AnswerFrom(s, 0);
    RunKeeps(s, run, s');
    forall t | 0 <= t < |s.tasks| && Ended(s.tasks[t])
      ensures Answered(s.tasks[t], s'.tasks[t])
    {
      AnsweredInTheEnd(s, s', t);
    }
  }

  lemma QuiescentTaskEnded(s: State, t: nat)
    requires Quiescent(s) && t < |s.tasks| && TaskInv(s.tasks[t], HeldBy(s.current, t))
    requires s.tasks[t].supervisor == Dispatched ==> s.loop == Dispatching(t)
    ensures Ended(s.tasks[t]) || (s.tasks[t].supervisor == Queued && DroppedTask(s))
  {
  }

  /** A waiting caller has its task's first outcome, or its command is in the queue of a loop that raised. */
  predicate AnsweredOrDropped(s: State, k: Task, k': Task) {
    k.rust == Awaiting ==>
      k'.rust == Resolved(FirstOutcome(k')) || (k'.supervisor == Queued && DroppedTask(s))
  }

  ghost predicate AllAnsweredOrDropped(s: State, s': State) {
    && |s'.tasks| == |s.tasks|
    && forall t :: 0 <= t < |s.tasks| ==> AnsweredOrDropped(s, s.tasks[t], s'.tasks[t])
  }

  /**
   However a rest with an empty channel was reached, whatever user code did and
   whatever raised: collecting and receiving answers every caller who waits, but
   those whose command is left in the queue of a loop that raised.
   */
  lemma RestAnswersEveryone(s: State) returns (run: seq<Action>, s': State)
    requires Inv(s) && Quiescent(s) && s.channel == []
    ensures AnsweringRun(s, run, s') && AllAnsweredOrDropped(s, s') && |run| <= 2 * |s.tasks|
  {
    run, s' := EndedCallersAreAnswered(s);
    forall t | 0 <= t < |s.tasks|
      ensures AnsweredOrDropped(s, s.tasks[t], s'.tasks[t])
    {
      QuiescentTaskEnded(s, t);
      assert Answering(s.tasks[t], s'.tasks[t]);
    }
  }

  // ------------------------------------------------------------ coming to rest

  /** Neither the bridge nor the processing thread forgets or answers a caller, and neither adds a task. */
  predicate CallersLeft(s: State, s': State) {
    && |s'.tasks| == |s.tasks| && (s'.loop.Crashed? <==> s.loop.Crashed?)
    && forall t :: 0 <= t < |s.tasks| ==> s'.tasks[t].rust == s.tasks[t].rust
  }

  lemma BridgeLeavesCallers(s: State)
    requires ChannelInv(s) && s.channel != []
    ensures Enabled(s, RunBridgeCommand) && CallersLeft(s, RunHead(s)) && RunHead(s).channel == s.channel[1..]
  {
    assert s.channel[0] in s.channel;
  }

  /** A task as it would weigh if its submission were accepted. */
  function Offer(k: Task): Task { if k.submission == Submitting then k.(submission := Accepted) else k }

  function Offered(tasks: seq<Task>): seq<Task> { seq(|tasks|, i requires 0 <= i < |tasks| => Offer(tasks[i])) }

  /** The measure with all waiting submissions counted as accepted. */
  function Potential(s: State): nat { LoopRank(s.loop) + TotalWeight(Offered(s.tasks)) }

  lemma CancelWeighsNothing(k: Task)
    ensures Weight(Offer(k.(cancellation := Pushed, token := k.token + 1))) == Weight(Offer(k))
  {
  }

  lemma BridgeSpendsPotential(s: State)
    requires Enabled(s, RunBridgeCommand)
    requires s.channel[0].Submit? ==>
               s.tasks[s.channel[0].task].submission == Submitting && s.tasks[s.channel[0].task].supervisor == Idle
    ensures Potential(RunHead(s)) <= Potential(s)
  {
    if !s.channel[0].StopProcessor? {
      var t := s.channel[0].task;
      var k := RunHead(s).tasks[t];
      CancelWeighsNothing(s.tasks[t]);
      assert Offered(RunHead(s).tasks) == Offered(s.tasks)[t := Offer(k)];
      WeightOfUpdate(Offered(s.tasks), t, Offer(k));
    }
  }

  lemma BridgeStepSpends(s: State)
    requires Inv(s) && Enabled(s, RunBridgeCommand)
    ensures Potential(RunHead(s)) <= Potential(s)
    ensures s.isShutdown ==> RunHead(s).isShutdown && Measure(RunHead(s)) == Measure(s)
  {
    if s.channel[0].Submit? {
      var t := s.channel[0].task;
      assert s.channel[0] in s.channel;
      assert TaskInv(s.tasks[t], HeldBy(s.current, t));
    }
    BridgeSpendsPotential(s);
    if s.isShutdown {
      BridgeAddsNoWork(s);
    }
  }

  lemma {:induction false} BridgeEmpties(s: State) returns (run: seq<Action>, s': State)
    requires Inv(s)
    ensures Reaches(s, run, s') && CallersLeft(s, s') && s'.channel == [] && |run| == |s.channel|
    ensures forall a | a in run :: a == RunBridgeCommand
    ensures Potential(s') <= Potential(s) && (s.isShutdown ==> Measure(s') == Measure(s))
    decreases |s.channel|
  {
    if s.channel == [] {
      return [], s;
    }
    BridgeLeavesCallers(s);
    var next := RunHead(s);
    BridgeStepSpends(s);
    StepKeeps(s, RunBridgeCommand);
    var rest;
    rest, s' := BridgeEmpties(next);
    LeftTwice(s, next, s');
    OneStep(s, RunBridgeCommand);
    Chain(s, [RunBridgeCommand], next, rest, s');
    run := [RunBridgeCommand] + rest;
  }

  lemma LeftTwice(s: State, mid: State, s': State)
    requires CallersLeft(s, mid) && CallersLeft(mid, s')
    ensures CallersLeft(s, s')
  {
  }

  lemma EmptyChannelOffersNothing(s: State)
    requires ChannelInv(s) && s.channel == []
    ensures Potential(s) == Measure(s)
  {
    forall t | 0 <= t < |s.tasks|
      ensures Offer(s.tasks[t]) == s.tasks[t]
    {
      assert Submit(t) !in s.channel;
    }
    assert Offered(s.tasks) == s.tasks;
  }

  lemma ProcessorLeavesCaller(s: State, a: Action)
    requires Enabled(s, a) && OnProcessingThread(a) && !LoopRaises(a)
    ensures CallersLeft(s, Apply(s, a)) && Apply(s, a).channel == s.channel
  {
  }

  lemma {:induction false} ProcessorLeavesCallers(s: State, run: seq<Action>, s': State)
    requires Reaches(s, run, s') && forall a | a in run :: OnProcessingThread(a) && !LoopRaises(a)
    ensures CallersLeft(s, s') && s'.channel == s.channel
    decreases |run|
  {
    if run != [] {
      assert run == [run[0]] + run[1..];
      ProcessorLeavesCaller(s, run[0]);
      ProcessorLeavesCallers(Apply(s, run[0]), run[1..], s');
    }
  }

  /** From every state, the bridge can empty its channel and the processing thread then come to rest. */
  lemma ComesToRest(s: State) returns (run: seq<Action>, s': State)
    requires Inv(s)
    ensures Reaches(s, run, s') && Quiescent(s') && s'.channel == [] && CallersLeft(s, s')
    ensures forall a | a in run :: a == RunBridgeCommand || OnProcessingThread(a)
    ensures |run| <= |s.channel| + Potential(s) && (s.isShutdown ==> |run| <= |s.channel| + Measure(s))
  {
    var first, mid := BridgeEmpties(s);
    RunKeeps(s, first, mid);
    EmptyChannelOffersNothing(mid);
    var drain;
    drain, s' := DrainTerminates(mid);
    ProcessorLeavesCallers(mid, drain, s');
    Chain(s, first, mid, drain, s');
    run := first + drain;
  }

  /**
   No caller hangs but those whose command is left in the queue of a loop that
   raised: from every state, every other waiting caller can be brought to its task's
   first outcome, in a bounded number of steps in which nothing is scheduled,
   cancelled or forgotten.
   */
  lemma NoCallerHangs(s: State) returns (run: seq<Action>, s': State)
    requires Inv(s)
    ensures Reaches(s, run, s') && |s'.tasks| == |s.tasks|
    ensures |run| <= |s.channel| + Potential(s) + 2 * |s.tasks|
    ensures s.isShutdown ==> |run| <= |s.channel| + Measure(s) + 2 * |s.tasks|
    ensures forall a | a in run :: a == RunBridgeCommand || OnProcessingThread(a) || Answers(a)
    ensures forall t :: 0 <= t < |s.tasks| && s.tasks[t].rust == Awaiting ==>
              || s'.tasks[t].rust == Resolved(FirstOutcome(s'.tasks[t]))
              || (s'.tasks[t].supervisor == Queued && s.loop.Crashed?)
  {
    var first, mid := ComesToRest(s);
    RunKeeps(s, first, mid);
    var rest;
    rest, s' := RestAnswersEveryone(mid);
    Chain(s, first, mid, rest, s');
    run := first + rest;
    forall t | 0 <= t < |s.tasks| && s.tasks[t].rust == Awaiting
      ensures s'.tasks[t].rust == Resolved(FirstOutcome(s'.tasks[t]))
              || (s'.tasks[t].supervisor == Queued && s.loop.Crashed?)
    {
      assert AnsweredOrDropped(mid, mid.tasks[t], s'.tasks[t]);
    }
  }
}
