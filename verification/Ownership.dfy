/**
 Ruby values held by Rust (ext/prosody/src/util.rs). A wrapped value may only be
 freed on a Ruby thread. Dropped elsewhere, it travels to the Ruby thread in a
 cleanup command; if the bridge is gone it is leaked.
 */
module Ownership {
  /** Identifies one wrapped Ruby value. */
  type Value = nat

  /**
   A command waiting in the bridge channel, seen through the values it owns.
   `Cleanup` owns the bare inner value; `Work` owns thread-safe wrappers, such as
   the callback of a submission or the token of a cancellation.
   */
  datatype Closure = Cleanup(value: Value) | Work(values: seq<Value>)

  function Owned(c: Closure): multiset<Value> {
    match c
    case Cleanup(v) => multiset{v}
    case Work(vs) => multiset(vs)
  }

  function OwnedBy(channel: seq<Closure>): multiset<Value> {
    if channel == [] then multiset{} else Owned(channel[0]) + OwnedBy(channel[1..])
  }

  lemma {:induction false} OwnedByAppend(channel: seq<Closure>, c: Closure)
    ensures OwnedBy(channel + [c]) == OwnedBy(channel) + Owned(c)
  {
    if channel == [] {
      assert channel + [c] == [c];
    } else {
      assert (channel + [c])[1..] == channel[1..] + [c];
      OwnedByAppend(channel[1..], c);
    }
  }

  datatype Thread = RubyThread | OtherThread

  /** How a value was released: by `rb_gc_unregister_address`, or not at all. */
  datatype Release = Freed(value: Value, on: Thread) | Leaked(value: Value, on: Thread)

  function Released(log: seq<Release>): multiset<Value> {
    if log == [] then multiset{} else multiset{log[|log| - 1].value} + Released(log[..|log| - 1])
  }

  /**
   `held` are the values whose wrapper is alive; `wrapped` are all values wrapped so
   far; `senders` says whether anybody can still hold a sender of the bridge.
   */
  datatype State = State(
    held: multiset<Value>,
    channel: seq<Closure>,
    receiverAlive: bool,
    senders: bool,
    log: seq<Release>,
    wrapped: multiset<Value>)

  const INITIAL := State(multiset{}, [], true, true, [], multiset{})

  /** `RubyDrop::drop`. It knows nothing of bridges. */
  function DropInner(s: State, v: Value, on: Thread): State {
    s.(log := s.log + [if on == RubyThread then Freed(v, on) else Leaked(v, on)])
  }

  /** `ThreadSafeValue::drop`, once the inner value has been moved out. */
  function DropWrapper(s: State, v: Value, on: Thread): State
    decreases 2, 0
  {
    if on == RubyThread then DropInner(s, v, on) else Send(s, Cleanup(v), on)
  }

  /** `Bridge::send`: a send that fails drops the command where it stands. */
  function Send(s: State, c: Closure, on: Thread): State
    decreases if c.Work? then 3 else 1, 1
  {
    if s.receiverAlive then s.(channel := s.channel + [c]) else DropClosure(s, c, on)
  }

  /** Dropping or finishing a command drops what it owns. */
  function DropClosure(s: State, c: Closure, on: Thread): State
    decreases if c.Work? then 3 else 1, 0
  {
    match c
    case Cleanup(v) => DropInner(s, v, on)
    case Work(vs) => DropWrappers(s, vs, on)
  }

  function DropWrappers(s: State, vs: seq<Value>, on: Thread): State
    decreases 2, |vs|
  {
    if vs == [] then s else DropWrappers(DropWrapper(s, vs[0], on), vs[1..], on)
  }

  function DropClosures(s: State, cs: seq<Closure>, on: Thread): State
    decreases |cs|
  {
    if cs == [] then s else DropClosures(DropClosure(s, cs[0], on), cs[1..], on)
  }

  datatype Action =
    | Wrap(value: Value)
    | Drop(value: Value, on: Thread)
    | SendWork(values: seq<Value>, on: Thread)
    | RunHead
    | Disconnects
    | ThreadDies

  /**
   Every wrapper holds a sender, so the orderly end, which needs all senders gone and
   the channel empty, needs all wrappers gone. The thread may also die otherwise.
   */
  predicate Enabled(s: State, a: Action) {
    match a
    case Wrap(v) => s.senders && v !in s.wrapped
    case Drop(v, _) => v in s.held
    case SendWork(vs, _) => s.senders && multiset(vs) <= s.held
    case RunHead => s.channel != []
    case Disconnects => s.receiverAlive && s.held == multiset{} && s.channel == []
    case ThreadDies => s.receiverAlive
  }

  /** The bridge thread is a Ruby thread, so commands run, and are dropped at its end, on a Ruby thread. */
  function Apply(s: State, a: Action): State
    requires Enabled(s, a)
  {
    match a
    case Wrap(v) => s.(held := s.held + multiset{v}, wrapped := s.wrapped + multiset{v})
    case Drop(v, on) => DropWrapper(s.(held := s.held - multiset{v}), v, on)
    case SendWork(vs, on) => Send(s.(held := s.held - multiset(vs)), Work(vs), on)
    case RunHead => DropClosure(s.(channel := s.channel[1..]), s.channel[0], RubyThread)
    case Disconnects => s.(receiverAlive := false, senders := false)
    case ThreadDies => DropClosures(s.(channel := [], receiverAlive := false), s.channel, RubyThread)
  }

  ghost predicate Reaches(before: State, run: seq<Action>, after: State)
    decreases |run|
  {
    if run == [] then before == after
    else Enabled(before, run[0]) && Reaches(Apply(before, run[0]), run[1..], after)
  }

  /** A freed value was freed on a Ruby thread, and leaks only follow the end of the bridge. */
  ghost predicate LogInv(s: State) {
    && (forall r | r in s.log :: r.Freed? <==> r.on == RubyThread)
    && (s.receiverAlive ==> forall r | r in s.log :: r.Freed?)
    && (!s.receiverAlive ==> s.channel == [])
  }

  /** Every wrapped value is in one place: held, in flight, waiting in the channel, or released. */
  ghost predicate Inv(s: State, inFlight: multiset<Value>) {
    && LogInv(s)
    && s.held + inFlight + OwnedBy(s.channel) + Released(s.log) == s.wrapped
    && forall v :: s.wrapped[v] <= 1
  }

  /** A dead bridge leaves only Ruby threads or leaks. */
  ghost predicate MayRelease(s: State, on: Thread) {
    on == RubyThread || !s.receiverAlive
  }

  lemma DropInnerKeeps(s: State, v: Value, on: Thread, inFlight: multiset<Value>)
    requires Inv(s, inFlight + multiset{v}) && MayRelease(s, on)
    ensures Inv(DropInner(s, v, on), inFlight)
    ensures DropInner(s, v, on).receiverAlive == s.receiverAlive
  {
    var s' := DropInner(s, v, on);
    assert s'.log[..|s.log|] == s.log;
    assert Released(s'.log) == multiset{v} + Released(s.log);
  }

  lemma DropWrapperKeeps(s: State, v: Value, on: Thread, inFlight: multiset<Value>)
    requires Inv(s, inFlight + multiset{v})
    ensures Inv(DropWrapper(s, v, on), inFlight)
    ensures DropWrapper(s, v, on).receiverAlive == s.receiverAlive
  {
    if on == RubyThread {
      DropInnerKeeps(s, v, on, inFlight);
    } else if !s.receiverAlive {
      assert Send(s, Cleanup(v), on) == DropClosure(s, Cleanup(v), on) == DropInner(s, v, on);
      DropInnerKeeps(s, v, on, inFlight);
    } else {
      OwnedByAppend(s.channel, Cleanup(v));
    }
  }

  lemma {:induction false} DropWrappersKeeps(s: State, vs: seq<Value>, on: Thread, inFlight: multiset<Value>)
    requires Inv(s, inFlight + multiset(vs))
    ensures Inv(DropWrappers(s, vs, on), inFlight)
    ensures DropWrappers(s, vs, on).receiverAlive == s.receiverAlive
    decreases |vs|
  {
    if vs == [] {
      assert inFlight + multiset(vs) == inFlight;
    } else {
      assert vs == [vs[0]] + vs[1..];
      assert inFlight + multiset(vs) == (inFlight + multiset(vs[1..])) + multiset{vs[0]};
      DropWrapperKeeps(s, vs[0], on, inFlight + multiset(vs[1..]));
      DropWrappersKeeps(DropWrapper(s, vs[0], on), vs[1..], on, inFlight);
    }
  }

  lemma DropClosureKeeps(s: State, c: Closure, on: Thread, inFlight: multiset<Value>)
    requires Inv(s, inFlight + Owned(c)) && MayRelease(s, on)
    ensures Inv(DropClosure(s, c, on), inFlight)
    ensures DropClosure(s, c, on).receiverAlive == s.receiverAlive
  {
    match c
    case Cleanup(v) => DropInnerKeeps(s, v, on, inFlight);
    case Work(vs) => DropWrappersKeeps(s, vs, on, inFlight);
  }

  lemma {:induction false} DropClosuresKeeps(s: State, cs: seq<Closure>, on: Thread, inFlight: multiset<Value>)
    requires Inv(s, inFlight + OwnedBy(cs)) && MayRelease(s, on)
    ensures Inv(DropClosures(s, cs, on), inFlight)
    decreases |cs|
  {
    if cs == [] {
      assert inFlight + OwnedBy(cs) == inFlight;
    } else {
      assert inFlight + OwnedBy(cs) == (inFlight + OwnedBy(cs[1..])) + Owned(cs[0]);
      DropClosureKeeps(s, cs[0], on, inFlight + OwnedBy(cs[1..]));
      DropClosuresKeeps(DropClosure(s, cs[0], on), cs[1..], on, inFlight);
    }
  }

  /** Values that leave their place are in flight. */
  lemma Departs(s: State, s1: State, moved: multiset<Value>)
    requires Inv(s, multiset{})
    requires s1.log == s.log && s1.wrapped == s.wrapped && s1.receiverAlive == s.receiverAlive
    requires s.receiverAlive || s1.channel == []
    requires s1.held + moved + OwnedBy(s1.channel) == s.held + OwnedBy(s.channel)
    ensures Inv(s1, multiset{} + moved)
  {
    calc {
      s1.held + (multiset{} + moved) + OwnedBy(s1.channel) + Released(s1.log);
      (s1.held + moved + OwnedBy(s1.channel)) + Released(s1.log);
      (s.held + OwnedBy(s.channel)) + Released(s.log);
      s.held + multiset{} + OwnedBy(s.channel) + Released(s.log);
    }
  }

  lemma DropKeeps(s: State, v: Value, on: Thread)
    requires Inv(s, multiset{}) && v in s.held
    ensures Inv(Apply(s, Drop(v, on)), multiset{})
  {
    var s1 := s.(held := s.held - multiset{v});
    assert s1.held + multiset{v} == s.held;
    Departs(s, s1, multiset{v});
    DropWrapperKeeps(s1, v, on, multiset{});
  }

  lemma QueueingKeeps(s: State, c: Closure)
    requires Inv(s, multiset{} + Owned(c)) && s.receiverAlive
    ensures Inv(s.(channel := s.channel + [c]), multiset{})
  {
    OwnedByAppend(s.channel, c);
  }

  lemma SendWorkKeeps(s: State, vs: seq<Value>, on: Thread)
    requires Inv(s, multiset{}) && s.senders && multiset(vs) <= s.held
    ensures Inv(Apply(s, SendWork(vs, on)), multiset{})
  {
    var s1 := s.(held := s.held - multiset(vs));
    assert s1.held + multiset(vs) == s.held;
    Departs(s, s1, multiset(vs));
    if s.receiverAlive {
      QueueingKeeps(s1, Work(vs));
    } else {
      DropClosureKeeps(s1, Work(vs), on, multiset{});
    }
  }

  lemma RunHeadKeeps(s: State)
    requires Inv(s, multiset{}) && s.channel != []
    ensures Inv(Apply(s, RunHead), multiset{})
  {
    var s1 := s.(channel := s.channel[1..]);
    Departs(s, s1, Owned(s.channel[0]));
    DropClosureKeeps(s1, s.channel[0], RubyThread, multiset{});
  }

  lemma ThreadDiesKeeps(s: State)
    requires Inv(s, multiset{}) && s.receiverAlive
    ensures Inv(Apply(s, ThreadDies), multiset{})
  {
    var s1 := s.(channel := []);
    Departs(s, s1, OwnedBy(s.channel));
    DropClosuresKeeps(s1.(receiverAlive := false), s.channel, RubyThread, multiset{});
  }

  lemma StepKeeps(s: State, a: Action)
    requires Inv(s, multiset{}) && Enabled(s, a)
    ensures Inv(Apply(s, a), multiset{})
  {
    match a
    case Wrap(v) =>
    case Drop(v, on) => DropKeeps(s, v, on);
    case SendWork(vs, on) => SendWorkKeeps(s, vs, on);
    case RunHead => RunHeadKeeps(s);
    case Disconnects =>
    case ThreadDies => ThreadDiesKeeps(s);
  }

  lemma {:induction false} RunKeeps(s: State, run: seq<Action>, s': State)
    requires Inv(s, multiset{}) && Reaches(s, run, s')
    ensures Inv(s', multiset{})
    decreases |run|
  {
    if run != [] {
      StepKeeps(s, run[0]);
      RunKeeps(Apply(s, run[0]), run[1..], s');
    }
  }

  /**
   On a Ruby thread a dropped wrapper frees its value at once and queues nothing; on
   another it queues the value for the bridge while that lives, and leaks it otherwise.
   */
  lemma DropDoesAtOnce(s: State, v: Value)
    requires v in s.held
    ensures var s' := Apply(s, Drop(v, RubyThread));
            s'.log == s.log + [Freed(v, RubyThread)] && s'.channel == s.channel && s'.held == s.held - multiset{v}
    ensures var s' := Apply(s, Drop(v, OtherThread));
            && s'.held == s.held - multiset{v}
            && (s.receiverAlive ==> s'.channel == s.channel + [Cleanup(v)] && s'.log == s.log)
            && (!s.receiverAlive ==> s'.channel == s.channel && s'.log == s.log + [Leaked(v, OtherThread)])
  {
    var s1 := s.(held := s.held - multiset{v});
    assert DropWrapper(s1, v, OtherThread) == Send(s1, Cleanup(v), OtherThread);
    if !s.receiverAlive {
      assert Send(s1, Cleanup(v), OtherThread) == DropClosure(s1, Cleanup(v), OtherThread)
          == DropInner(s1, v, OtherThread);
    }
  }

  /** A wrapped value is held. */
  lemma WrapHolds(s: State, v: Value)
    requires Enabled(s, Wrap(v))
    ensures v in Apply(s, Wrap(v)).held && v in Apply(s, Wrap(v)).wrapped
  {
  }

  function ValuesOf(c: Closure): seq<Value> {
    match c
    case Cleanup(v) => [v]
    case Work(vs) => vs
  }

  /** Running the head command takes it off the channel and frees what it owns, each value once and in order. */
  lemma RunHeadFrees(s: State)
    requires s.channel != []
    ensures var s', vs := Apply(s, RunHead), ValuesOf(s.channel[0]);
            && s'.channel == s.channel[1..] && s'.held == s.held
            && s.log <= s'.log && |s'.log| == |s.log| + |vs|
            && forall i :: 0 <= i < |vs| ==> s'.log[|s.log| + i] == Freed(vs[i], RubyThread)
  {
    var s1, c := s.(channel := s.channel[1..]), s.channel[0];
    if c.Work? {
      DropsAreFreeings(s1, c.values);
      FreeingsAreFreed(c.values);
    }
  }

  function Freeings(vs: seq<Value>): seq<Release> {
    if vs == [] then [] else [Freed(vs[0], RubyThread)] + Freeings(vs[1..])
  }

  lemma {:induction false} FreeingsAreFreed(vs: seq<Value>)
    ensures |Freeings(vs)| == |vs| && forall i :: 0 <= i < |vs| ==> Freeings(vs)[i] == Freed(vs[i], RubyThread)
  {
    if vs != [] {
      FreeingsAreFreed(vs[1..]);
    }
  }

  lemma {:induction false} DropsAreFreeings(s: State, vs: seq<Value>)
    ensures DropWrappers(s, vs, RubyThread) == s.(log := s.log + Freeings(vs))
    decreases |vs|
  {
    if vs == [] {
      assert s.log + [] == s.log;
    } else {
      var s1 := DropInner(s, vs[0], RubyThread);
      assert DropWrapper(s, vs[0], RubyThread) == s1;
      DropsAreFreeings(s1, vs[1..]);
      assert (s.log + [Freed(vs[0], RubyThread)]) + Freeings(vs[1..]) == s.log + Freeings(vs);
    }
  }

  /**
   In every run a wrapped value is released at most once, freed only on a Ruby
   thread and leaked only once the bridge has ended; a value whose wrapper is gone
   has been released or waits in the channel.
   */
  lemma ValuesAreReleasedOnce(run: seq<Action>, s: State, v: Value)
    requires Reaches(INITIAL, run, s)
    ensures Released(s.log)[v] <= 1
    ensures forall r | r in s.log :: r.Freed? <==> r.on == RubyThread
    ensures (exists r | r in s.log :: r.Leaked?) ==> !s.receiverAlive
    ensures v in s.wrapped && v !in s.held ==> (v in Released(s.log) <==> v !in OwnedBy(s.channel))
  {
    RunKeeps(INITIAL, run, s);
    assert s.wrapped[v] <= 1;
    assert s.held[v] + OwnedBy(s.channel)[v] + Released(s.log)[v] == s.wrapped[v];
  }

  /** Nothing has leaked; once the senders are gone, nothing is held and nothing waits. */
  ghost predicate Orderly(s: State) {
    && (s.receiverAlive || !s.senders)
    && (forall r | r in s.log :: r.Freed?)
    && (!s.senders ==> s.held == multiset{} && s.channel == [])
  }

  predicate SameBridge(s: State, s': State) { s'.senders == s.senders && s'.receiverAlive == s.receiverAlive }

  lemma DropWrapperKeepsBridge(s: State, v: Value, on: Thread)
    ensures SameBridge(s, DropWrapper(s, v, on))
  {
    if on == OtherThread && !s.receiverAlive {
      assert Send(s, Cleanup(v), on) == DropClosure(s, Cleanup(v), on) == DropInner(s, v, on);
    }
  }

  lemma {:induction false} DropWrappersKeepsBridge(s: State, vs: seq<Value>, on: Thread)
    ensures SameBridge(s, DropWrappers(s, vs, on))
    decreases |vs|
  {
    if vs != [] {
      DropWrapperKeepsBridge(s, vs[0], on);
      DropWrappersKeepsBridge(DropWrapper(s, vs[0], on), vs[1..], on);
    }
  }

  lemma StepKeepsBridge(s: State, a: Action)
    requires Enabled(s, a) && a != ThreadDies && a != Disconnects
    ensures SameBridge(s, Apply(s, a))
  {
    match a
    case Wrap(_) =>
    case Drop(v, on) => DropWrapperKeepsBridge(s.(held := s.held - multiset{v}), v, on);
    case SendWork(vs, on) =>
      var s1 := s.(held := s.held - multiset(vs));
      if !s.receiverAlive {
        assert Send(s1, Work(vs), on) == DropClosure(s1, Work(vs), on) == DropWrappers(s1, vs, on);
        DropWrappersKeepsBridge(s1, vs, on);
      }
    case RunHead =>
      var s1, c := s.(channel := s.channel[1..]), s.channel[0];
      match c {
        case Cleanup(v) => assert DropClosure(s1, c, RubyThread) == DropInner(s1, v, RubyThread);
        case Work(vs) => DropWrappersKeepsBridge(s1, vs, RubyThread);
      }
  }

  /** Where the thread does not die, the only end is the orderly one, and nothing can happen behind it. */
  lemma StepStaysOrderly(s: State, a: Action)
    requires Inv(s, multiset{}) && Orderly(s) && Enabled(s, a) && a != ThreadDies
    ensures Orderly(Apply(s, a))
  {
    if s.senders && a != Disconnects {
      StepKeeps(s, a);
      StepKeepsBridge(s, a);
    }
  }

  lemma {:induction false} RunStaysOrderly(s: State, run: seq<Action>, s': State)
    requires Inv(s, multiset{}) && Orderly(s) && Reaches(s, run, s') && ThreadDies !in run
    ensures Inv(s', multiset{}) && Orderly(s')
    decreases |run|
  {
    if run != [] {
      assert run == [run[0]] + run[1..];
      StepKeeps(s, run[0]);
      StepStaysOrderly(s, run[0]);
      RunStaysOrderly(Apply(s, run[0]), run[1..], s');
    }
  }

  /**
   Unless the bridge thread dies before its orderly end, no value is ever leaked,
   and once it has ended every wrapped value has been freed, exactly once.
   */
  lemma OrderlyEndLeaksNothing(run: seq<Action>, s: State)
    requires Reaches(INITIAL, run, s) && ThreadDies !in run
    ensures forall r | r in s.log :: r.Freed?
    ensures !s.receiverAlive ==> Released(s.log) == s.wrapped
  {
    RunStaysOrderly(INITIAL, run, s);
  }
}
