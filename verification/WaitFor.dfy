/**
 `Bridge::wait_for` (ext/prosody/src/bridge/mod.rs) and the callback it completes
 (ext/prosody/src/bridge/callback.rs): any number of Ruby callers each wait on a
 queue of their own for the output of their own future.
 */
module WaitFor {
  import opened Options

  /** `AlreadyTaken` is the error of a result whose value has gone; `Stopped` callers no longer wait. */
  datatype Phase<T> = Popping | Returned(output: T) | AlreadyTaken | Stopped

  /** `future` is the output once the future has completed; `queue` holds result objects. */
  datatype Caller<T> = Caller(future: Option<T>, queue: seq<nat>, phase: Phase<T>)

  /** A command in the bridge channel: push `output` to the queue of `caller`. */
  datatype Delivery<T> = Delivery(caller: nat, output: T)

  /** `results` are the take-once result objects, empty once taken. */
  datatype State<T> = State(callers: seq<Caller<T>>, channel: seq<Delivery<T>>, results: seq<Option<T>>)

  datatype Action<T> =
    | Call
    | Complete(caller: nat, output: T)
    | RunCommand
    | Pop(caller: nat)
    | Stop(caller: nat)

  predicate Enabled<T(==)>(s: State<T>, a: Action<T>) {
    match a
    case Call => true
    case Complete(i, _) => i < |s.callers| && s.callers[i].future == None
    case RunCommand => s.channel != [] && s.channel[0].caller < |s.callers|
    case Pop(i) =>
      && i < |s.callers| && s.callers[i].phase == Popping && s.callers[i].queue != []
      && s.callers[i].queue[0] < |s.results|
    case Stop(i) => i < |s.callers| && s.callers[i].phase == Popping
  }

  function Apply<T(==)>(s: State<T>, a: Action<T>): State<T>
    requires Enabled(s, a)
  {
    match a
    case Call => s.(callers := s.callers + [Caller(None, [], Popping)])
    case Complete(i, output) =>
      s.(callers := s.callers[i := s.callers[i].(future := Some(output))],
         channel := s.channel + [Delivery(i, output)])
    case RunCommand =>
      var Delivery(i, output) := s.channel[0];
      var c := s.callers[i];
      s.(channel := s.channel[1..], results := s.results + [Some(output)],
         callers := s.callers[i := c.(queue := c.queue + [|s.results|])])
    case Pop(i) =>
      var c := s.callers[i];
      var r := c.queue[0];
      var phase := match s.results[r] case Some(output) => Returned(output) case None => AlreadyTaken;
      s.(results := s.results[r := None], callers := s.callers[i := c.(queue := c.queue[1..], phase := phase)])
    case Stop(i) => s.(callers := s.callers[i := s.callers[i].(phase := Stopped)])
  }

  ghost predicate Reaches<T>(before: State<T>, run: seq<Action<T>>, after: State<T>)
    decreases |run|
  {
    if run == [] then before == after
    else Enabled(before, run[0]) && Reaches(Apply(before, run[0]), run[1..], after)
  }

  predicate InFlight<T(==)>(s: State<T>, i: nat) {
    exists d :: 0 <= d < |s.channel| && s.channel[d].caller == i
  }

  /** A completed output is in exactly one place: the channel, its caller's queue, or its caller's hands. */
  ghost predicate CallerInv<T>(s: State<T>, i: nat)
    requires i < |s.callers|
  {
    var c := s.callers[i];
    && |c.queue| <= 1
    && c.phase != AlreadyTaken
    && (c.queue != [] ==> c.queue[0] < |s.results| && s.results[c.queue[0]] == c.future && c.future.Some?)
    && (c.phase.Returned? ==> c.future == Some(c.phase.output))
    && (InFlight(s, i) ==> c.future.Some? && c.queue == [] && !c.phase.Returned?)
    && (c.queue != [] ==> !c.phase.Returned?)
    && (c.future.Some? ==> InFlight(s, i) || c.queue != [] || c.phase.Returned? || c.phase.Stopped?)
  }

  ghost predicate Inv<T>(s: State<T>) {
    && (forall d :: 0 <= d < |s.channel| ==>
          s.channel[d].caller < |s.callers| && s.callers[s.channel[d].caller].future == Some(s.channel[d].output))
    && (forall d, e :: 0 <= d < e < |s.channel| ==> s.channel[d].caller != s.channel[e].caller)
    && (forall i :: 0 <= i < |s.callers| ==> CallerInv(s, i))
    && (forall i, j :: 0 <= i < j < |s.callers| && s.callers[i].queue != [] && s.callers[j].queue != [] ==>
          s.callers[i].queue[0] != s.callers[j].queue[0])
  }

  lemma CallKeeps<T>(s: State<T>)
    requires Inv(s)
    ensures Inv(Apply(s, Call))
  {
    var s' := Apply(s, Call);
    forall i | 0 <= i < |s'.callers|
      ensures CallerInv(s', i)
    {
      assert i < |s.callers| ==> CallerInv(s, i);
      assert InFlight(s', i) <==> InFlight(s, i);
    }
  }

  /** A call adds a caller that waits, and a completion records its output and puts it in flight to its caller. */
  lemma CallAndCompletionCount<T>(s: State<T>, i: nat, output: T)
    ensures var called := Apply(s, Call);
            && |called.callers| == |s.callers| + 1 && called.callers[..|s.callers|] == s.callers
            && called.callers[|s.callers|] == Caller(None, [], Popping)
    ensures Enabled(s, Complete(i, output)) ==>
              var completed := Apply(s, Complete(i, output));
              && completed.callers[i].future == Some(output)
              && completed.channel == s.channel + [Delivery(i, output)] && InFlight(completed, i)
  {
    if Enabled(s, Complete(i, output)) {
      var completed := Apply(s, Complete(i, output));
      assert completed.channel[|s.channel|].caller == i;
    }
  }

  lemma CompleteKeeps<T>(s: State<T>, i: nat, output: T)
    requires Inv(s) && Enabled(s, Complete(i, output))
    ensures Inv(Apply(s, Complete(i, output)))
  {
    var s' := Apply(s, Complete(i, output));
    assert CallerInv(s, i) && !InFlight(s, i);
    assert s'.channel[|s.channel|].caller == i;
    forall j | 0 <= j < |s'.callers|
      ensures CallerInv(s', j)
    {
      assert CallerInv(s, j);
      assert InFlight(s, j) ==> InFlight(s', j) by {
        if d :| 0 <= d < |s.channel| && s.channel[d].caller == j {
          assert s'.channel[d].caller == j;
        }
      }
      assert j != i && InFlight(s', j) ==> InFlight(s, j);
    }
  }

  lemma RunCommandKeeps<T>(s: State<T>)
    requires Inv(s) && Enabled(s, RunCommand)
    ensures Inv(Apply(s, RunCommand))
  {
    var s', i := Apply(s, RunCommand), s.channel[0].caller;
    assert forall d :: 0 <= d < |s'.channel| ==> s'.channel[d] == s.channel[d + 1];
    assert InFlight(s, i) && !InFlight(s', i);
    forall j | 0 <= j < |s'.callers|
      ensures CallerInv(s', j)
    {
      assert CallerInv(s, j);
      if j != i && InFlight(s, j) {
        var d :| 0 <= d < |s.channel| && s.channel[d].caller == j;
        assert s'.channel[d - 1].caller == j;
      }
    }
    assert CallerInv(s, i);
    forall j | 0 <= j < |s.callers| && s.callers[j].queue != []
      ensures s.callers[j].queue[0] < |s.results|
    {
      assert CallerInv(s, j);
    }
  }

  /** A delivery puts its caller's own output, and nothing else, in that caller's queue, and touches no other caller. */
  lemma DeliveryReachesItsCallerOnly<T>(s: State<T>)
    requires Inv(s) && Enabled(s, RunCommand)
    ensures var s', i := Apply(s, RunCommand), s.channel[0].caller;
            && |s'.callers| == |s.callers|
            && (forall j :: 0 <= j < |s.callers| && j != i ==> s'.callers[j] == s.callers[j])
            && s'.callers[i].queue == [|s.results|] && s'.callers[i].future == s.callers[i].future
            && s'.results == s.results + [s.callers[i].future] && s.callers[i].future.Some?
  {
    assert InFlight(s, s.channel[0].caller);
    assert CallerInv(s, s.channel[0].caller);
  }

  lemma PopKeeps<T>(s: State<T>, i: nat)
    requires Inv(s) && Enabled(s, Pop(i))
    ensures Inv(Apply(s, Pop(i)))
  {
    var s' := Apply(s, Pop(i));
    assert CallerInv(s, i);
    forall j | 0 <= j < |s'.callers|
      ensures CallerInv(s', j)
    {
      assert CallerInv(s, j);
      assert InFlight(s', j) <==> InFlight(s, j);
    }
  }

  lemma StopKeeps<T>(s: State<T>, i: nat)
    requires Inv(s) && Enabled(s, Stop(i))
    ensures Inv(Apply(s, Stop(i)))
  {
    var s' := Apply(s, Stop(i));
    forall j | 0 <= j < |s'.callers|
      ensures CallerInv(s', j)
    {
      assert CallerInv(s, j);
      assert InFlight(s', j) <==> InFlight(s, j);
    }
  }

  lemma {:induction false} RunKeeps<T>(s: State<T>, run: seq<Action<T>>, s': State<T>)
    requires Inv(s) && Reaches(s, run, s')
    ensures Inv(s')
    decreases |run|
  {
    if run != [] {
      match run[0] {
        case Call => CallKeeps(s);
        case Complete(i, output) => CompleteKeeps(s, i, output);
        case RunCommand => RunCommandKeeps(s);
        case Pop(i) => PopKeeps(s, i);
        case Stop(i) => StopKeeps(s, i);
      }
      RunKeeps(Apply(s, run[0]), run[1..], s');
    }
  }

  /**
   Whatever the order of calls and completions, a caller that returns has its own
   future's output, no result is found taken, and no completed output is lost
   while its caller waits.
   */
  lemma EachCallerGetsItsOwnOutput<T>(run: seq<Action<T>>, s: State<T>, i: nat)
    requires Reaches(State([], [], []), run, s) && i < |s.callers|
    ensures s.callers[i].phase.Returned? ==> s.callers[i].future == Some(s.callers[i].phase.output)
    ensures s.callers[i].phase != AlreadyTaken
    ensures s.callers[i].phase == Popping && s.callers[i].future.Some? ==> InFlight(s, i) || Enabled(s, Pop(i))
    ensures Enabled(s, Pop(i)) ==>
              s.callers[i].future.Some?
              && Apply(s, Pop(i)).callers[i].phase == Returned(s.callers[i].future.value)
  {
    RunKeeps(State([], [], []), run, s);
    assert CallerInv(s, i);
  }
}
