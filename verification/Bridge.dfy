/**
 The bridge thread of ext/prosody/src/bridge/mod.rs: it drains an unbounded FIFO
 channel in batches and runs each command. Other threads send while it polls, so
 a poll takes a script that says what they do at each point where they can.
 */
module Bridge {
  const POLL_BATCH_SIZE: nat := 16

  /** What the other threads do at one point: sends, and perhaps the drop of the last sender. */
  datatype Burst<T> = Burst(commands: seq<T>, hangUp: bool)

  /**
   One poll's surroundings. `interrupted`: Ruby cancels the poll and `select!`
   picks that branch. `before` happens while the poll waits for its first
   command, `during` before each further receive, `executing` after each command.
   */
  datatype Script<T> = Script(before: Burst<T>, interrupted: bool, during: seq<Burst<T>>, executing: seq<Burst<T>>)

  /** `StillWaiting`: nothing is ready, so the poll goes on waiting. */
  datatype PollResult = Executed | Cancelled | Shutdown | StillWaiting

  /** The channel, the commands run so far, and all commands ever sent. */
  datatype Wire<T> = Wire(channel: seq<T>, connected: bool, executed: seq<T>, sent: seq<T>)

  function Arrive<T>(w: Wire<T>, b: Burst<T>): Wire<T> {
    if !w.connected then w
    else w.(channel := w.channel + b.commands, sent := w.sent + b.commands, connected := !b.hangUp)
  }

  function BurstAt<T>(bursts: seq<Burst<T>>, i: nat): Burst<T> {
    if i < |bursts| then bursts[i] else Burst([], false)
  }

  /** Receives until the batch is full or the channel is found empty. */
  function Collect<T>(w: Wire<T>, batch: seq<T>, bursts: seq<Burst<T>>, i: nat): (seq<T>, Wire<T>)
    decreases POLL_BATCH_SIZE - |batch|
  {
    if |batch| >= POLL_BATCH_SIZE then (batch, w)
    else
      var w' := Arrive(w, BurstAt(bursts, i));
      if w'.channel == [] then (batch, w')
      else Collect(w'.(channel := w'.channel[1..]), batch + [w'.channel[0]], bursts, i + 1)
  }

  /** Runs the batch from its `i`-th command on. */
  function Execute<T>(w: Wire<T>, batch: seq<T>, bursts: seq<Burst<T>>, i: nat): Wire<T>
    requires i <= |batch|
    decreases |batch| - i
  {
    if i == |batch| then w
    else Execute(Arrive(w.(executed := w.executed + [batch[i]]), BurstAt(bursts, i)), batch, bursts, i + 1)
  }

  /** The part of a poll that runs without the GVL: waiting, and gathering a batch. */
  function Gather<T>(w: Wire<T>, script: Script<T>): (PollResult, seq<T>, Wire<T>) {
    var w1 := Arrive(w, script.before);
    if script.interrupted then (Cancelled, [], w1)
    else if w1.channel == [] then (if w1.connected then StillWaiting else Shutdown, [], w1)
    else
      var (batch, w2) := Collect(w1.(channel := w1.channel[1..]), [w1.channel[0]], script.during, 0);
      (Executed, batch, w2)
  }

  function Poll<T>(w: Wire<T>, script: Script<T>): (Wire<T>, PollResult) {
    var (result, batch, w') := Gather(w, script);
    (if result == Executed then Execute(w', batch, script.executing, 0) else w', result)
  }

  /** The thread's loop: only Shutdown ends it. */
  function Polls<T>(w: Wire<T>, scripts: seq<Script<T>>): (Wire<T>, bool)
    decreases |scripts|
  {
    if scripts == [] then (w, false)
    else
      var (w', result) := Poll(w, scripts[0]);
      if result == Shutdown then (w', true) else Polls(w', scripts[1..])
  }

  /** Run, held and waiting commands are together the sent commands, in order. */
  ghost predicate InOrder<T>(w: Wire<T>, batch: seq<T>) {
    w.executed + batch + w.channel == w.sent
  }

  lemma ArriveInOrder<T>(w: Wire<T>, batch: seq<T>, b: Burst<T>)
    requires InOrder(w, batch)
    ensures InOrder(Arrive(w, b), batch) && Arrive(w, b).executed == w.executed && w.sent <= Arrive(w, b).sent
    ensures Arrive(w, b).sent == w.sent + (if w.connected then b.commands else [])
    ensures Arrive(w, b).connected <==> w.connected && !b.hangUp
  {
    if w.connected {
      assert w.executed + batch + (w.channel + b.commands) == w.sent + b.commands;
    }
  }

  /** Collecting moves commands from the head of the channel to the batch and stops full or dry. */
  lemma {:induction false} CollectInOrder<T>(w: Wire<T>, batch: seq<T>, bursts: seq<Burst<T>>, i: nat)
    requires InOrder(w, batch) && |batch| <= POLL_BATCH_SIZE
    ensures var (batch', w') := Collect(w, batch, bursts, i);
            && InOrder(w', batch') && w'.executed == w.executed
            && batch <= batch' && |batch'| <= POLL_BATCH_SIZE
            && (|batch'| < POLL_BATCH_SIZE ==> w'.channel == [])
            && w.sent <= w'.sent
    decreases POLL_BATCH_SIZE - |batch|
  {
    if |batch| < POLL_BATCH_SIZE {
      var w' := Arrive(w, BurstAt(bursts, i));
      ArriveInOrder(w, batch, BurstAt(bursts, i));
      if w'.channel != [] {
        var c, rest := w'.channel[0], w'.channel[1..];
        assert w'.executed + (batch + [c]) + rest == w'.executed + batch + w'.channel;
        CollectInOrder(w'.(channel := rest), batch + [c], bursts, i + 1);
      }
    }
  }

  lemma {:induction false} ExecuteInOrder<T>(w: Wire<T>, batch: seq<T>, bursts: seq<Burst<T>>, i: nat)
    requires i <= |batch| && InOrder(w, batch[i..])
    ensures var w' := Execute(w, batch, bursts, i);
            InOrder(w', []) && w'.executed == w.executed + batch[i..] && w.sent <= w'.sent
    decreases |batch| - i
  {
    if i == |batch| {
      assert w.executed + batch[i..] == w.executed;
      assert w.executed + [] == w.executed;
    } else {
      var ran := w.(executed := w.executed + [batch[i]]);
      assert w.executed + batch[i..] == ran.executed + batch[i + 1..];
      ArriveInOrder(ran, batch[i + 1..], BurstAt(bursts, i));
      ExecuteInOrder(Arrive(ran, BurstAt(bursts, i)), batch, bursts, i + 1);
    }
  }

  /** The commands that a poll adds to those already run. */
  function Ran<T>(w: Wire<T>, w': Wire<T>): seq<T>
    requires w.executed <= w'.executed
  {
    w'.executed[|w.executed|..]
  }

  /** A poll loses nothing: a cancelled one takes nothing, and another runs 1 to 16 commands in order. */
  lemma PollInOrder<T>(w: Wire<T>, script: Script<T>)
    requires InOrder(w, [])
    ensures var (w', result) := Poll(w, script);
            && InOrder(w', []) && w.sent <= w'.sent && w.executed <= w'.executed
            && (result == Cancelled || result == StillWaiting ==> w'.executed == w.executed)
            && (result == Executed ==> 1 <= |Ran(w, w')| <= POLL_BATCH_SIZE)
            && (result == Shutdown ==> !w'.connected && w'.channel == [] && w'.executed == w'.sent)
  {
    var w1 := Arrive(w, script.before);
    ArriveInOrder(w, [], script.before);
    assert w1.executed + [] + w1.channel == w1.executed + w1.channel;
    if !script.interrupted && w1.channel != [] {
      var c, rest := w1.channel[0], w1.channel[1..];
      assert w1.executed + [c] + rest == w1.executed + w1.channel;
      CollectInOrder(w1.(channel := rest), [c], script.during, 0);
      var (batch, w2) := Collect(w1.(channel := rest), [c], script.during, 0);
      assert batch[0..] == batch;
      ExecuteInOrder(w2, batch, script.executing, 0);
    }
  }

  /** What waits for a poll once the others have done what they do in front of it. */
  function Waiting<T>(w: Wire<T>, script: Script<T>): seq<T> {
    if w.connected then w.channel + script.before.commands else w.channel
  }

  /** Nothing arrives while the batch is gathered. */
  predicate Quiet<T(==)>(w: Wire<T>, bursts: seq<Burst<T>>) {
    w.connected ==> forall i :: 0 <= i < |bursts| ==> bursts[i].commands == []
  }

  function UpTo<T>(s: seq<T>, n: nat): seq<T> { if |s| <= n then s else s[..n] }

  lemma {:induction false} QuietCollect<T>(w: Wire<T>, batch: seq<T>, bursts: seq<Burst<T>>, i: nat)
    requires |batch| <= POLL_BATCH_SIZE && Quiet(w, bursts)
    ensures Collect(w, batch, bursts, i).0 == batch + UpTo(w.channel, POLL_BATCH_SIZE - |batch|)
    decreases POLL_BATCH_SIZE - |batch|
  {
    if |batch| < POLL_BATCH_SIZE {
      var w' := Arrive(w, BurstAt(bursts, i));
      assert w'.channel == w.channel;
      if w'.channel != [] {
        QuietCollect(w'.(channel := w'.channel[1..]), batch + [w'.channel[0]], bursts, i + 1);
        assert UpTo(w.channel, POLL_BATCH_SIZE - |batch|)
            == [w.channel[0]] + UpTo(w.channel[1..], POLL_BATCH_SIZE - |batch| - 1);
      }
    }
  }

  /** Without arrivals meanwhile, a batch is the first 16 waiting commands, or all. */
  lemma QuietPoll<T>(w: Wire<T>, script: Script<T>)
    requires InOrder(w, []) && !script.interrupted && Waiting(w, script) != []
    requires !(w.connected && !script.before.hangUp) || Quiet(w, script.during)
    ensures w.executed <= Poll(w, script).0.executed
    ensures Ran(w, Poll(w, script).0) == UpTo(Waiting(w, script), 16)
  {
    var w1 := Arrive(w, script.before);
    ArriveInOrder(w, [], script.before);
    var c, w2 := w1.channel[0], w1.(channel := w1.channel[1..]);
    QuietCollect(w2, [c], script.during, 0);
    assert UpTo(w1.channel, POLL_BATCH_SIZE) == [c] + UpTo(w2.channel, POLL_BATCH_SIZE - 1);
    BatchIsRun(w1, w2, c, script);
  }

  lemma BatchIsRun<T>(w1: Wire<T>, w2: Wire<T>, c: T, script: Script<T>)
    requires InOrder(w1, []) && w1.channel == [c] + w2.channel && w2 == w1.(channel := w2.channel)
    ensures var (batch, w3) := Collect(w2, [c], script.during, 0);
            Execute(w3, batch, script.executing, 0).executed == w1.executed + batch
  {
    assert w1.executed + [] + w1.channel == w1.executed + [c] + w2.channel;
    CollectInOrder(w2, [c], script.during, 0);
    var (batch, w3) := Collect(w2, [c], script.during, 0);
    assert batch[0..] == batch;
    ExecuteInOrder(w3, batch, script.executing, 0);
  }

  /**
   Which result a poll gives: cancelled if it is interrupted, else it runs what waits
   as soon as anything does, and only an empty channel tells whether senders are left.
   Where nothing arrives meanwhile it runs the first 16 waiting commands, or all.
   */
  lemma PollDecides<T>(w: Wire<T>, script: Script<T>)
    requires InOrder(w, [])
    ensures var (w', result) := Poll(w, script);
            var waiting := Waiting(w, script);
            var alive := w.connected && !script.before.hangUp;
            && (result == Cancelled <==> script.interrupted)
            && (result == Executed <==> !script.interrupted && waiting != [])
            && (result == StillWaiting <==> !script.interrupted && waiting == [] && alive)
            && (result == Shutdown <==> !script.interrupted && waiting == [] && !alive)
            && w.executed <= w'.executed
            && (result == Executed && (!alive || Quiet(w, script.during)) ==> Ran(w, w') == UpTo(waiting, 16))
  {
    PollInOrder(w, script);
    var alive := w.connected && !script.before.hangUp;
    if !script.interrupted && Waiting(w, script) != [] && (!alive || Quiet(w, script.during)) {
      QuietPoll(w, script);
    }
  }

  function Uninterrupted<T>(scripts: seq<Script<T>>): nat {
    if scripts == [] then 0 else (if scripts[0].interrupted then 0 else 1) + Uninterrupted(scripts[1..])
  }

  /**
   Once the last sender has gone, the thread ends with every command run, after one
   uninterrupted poll for each 16 commands left, and one more.
   */
  lemma {:induction false} ThreadEnds<T>(w: Wire<T>, scripts: seq<Script<T>>)
    requires InOrder(w, []) && !w.connected && 16 * Uninterrupted(scripts) >= |w.channel| + 16
    ensures var (w', ended) := Polls(w, scripts); ended && w'.executed == w.sent && w'.sent == w.sent
    decreases |scripts|
  {
    PollDecides(w, scripts[0]);
    PollInOrder(w, scripts[0]);
    var (w', result) := Poll(w, scripts[0]);
    DisconnectedStays(w, scripts[0]);
    assert w.executed + [] + w.channel == w.executed + w.channel;
    assert w'.executed + [] + w'.channel == w'.executed + w'.channel;
    if result != Shutdown {
      if result == Executed {
        assert w'.executed == w.executed + UpTo(w.channel, 16);
      }
      ThreadEnds(w', scripts[1..]);
    }
  }

  lemma DisconnectedStays<T>(w: Wire<T>, script: Script<T>)
    requires !w.connected
    ensures !Poll(w, script).0.connected && Poll(w, script).0.sent == w.sent
  {
    if !script.interrupted && w.channel != [] {
      DisconnectedCollect(w.(channel := w.channel[1..]), [w.channel[0]], script.during, 0);
      var (batch, w2) := Collect(w.(channel := w.channel[1..]), [w.channel[0]], script.during, 0);
      DisconnectedExecute(w2, batch, script.executing, 0);
    }
  }

  lemma {:induction false} DisconnectedCollect<T>(w: Wire<T>, batch: seq<T>, bursts: seq<Burst<T>>, i: nat)
    requires !w.connected && |batch| <= POLL_BATCH_SIZE
    ensures !Collect(w, batch, bursts, i).1.connected && Collect(w, batch, bursts, i).1.sent == w.sent
    decreases POLL_BATCH_SIZE - |batch|
  {
    if |batch| < POLL_BATCH_SIZE && w.channel != [] {
      DisconnectedCollect(w.(channel := w.channel[1..]), batch + [w.channel[0]], bursts, i + 1);
    }
  }

  lemma {:induction false} DisconnectedExecute<T>(w: Wire<T>, batch: seq<T>, bursts: seq<Burst<T>>, i: nat)
    requires !w.connected && i <= |batch|
    ensures !Execute(w, batch, bursts, i).connected && Execute(w, batch, bursts, i).sent == w.sent
    decreases |batch| - i
  {
    if i < |batch| {
      DisconnectedExecute(w.(executed := w.executed + [batch[i]]), batch, bursts, i + 1);
    }
  }

  /** In every run the commands are run in the order they were sent, and an ended thread has run them all. */
  lemma {:induction false} BridgeLosesNothing<T>(w: Wire<T>, scripts: seq<Script<T>>)
    requires InOrder(w, [])
    ensures var (w', ended) := Polls(w, scripts);
            && InOrder(w', []) && w'.executed <= w'.sent && w.sent <= w'.sent
            && (ended ==> w'.executed == w'.sent && !w'.connected)
    decreases |scripts|
  {
    if scripts == [] {
      assert w.executed + [] == w.executed;
    } else {
      PollInOrder(w, scripts[0]);
      var (w', result) := Poll(w, scripts[0]);
      assert w'.executed + [] == w'.executed;
      if result != Shutdown {
        BridgeLosesNothing(w', scripts[1..]);
      }
    }
  }

  /** The thread itself. `sent` records what the other threads have sent. */
  class BridgeThread<T> {
    var channel: seq<T>
    var connected: bool
    var executed: seq<T>
    ghost var sent: seq<T>

    ghost function View(): Wire<T> reads this {
      Wire(channel, connected, executed, sent)
    }

    constructor ()
      ensures View() == Wire([], true, [], []) && InOrder(View(), [])
    {
      channel, connected, executed, sent := [], true, [], [];
    }

    /** The other threads send, and the last of them may drop its sender. */
    method Interfere(b: Burst<T>)
      modifies this
      ensures View() == Arrive(old(View()), b)
    {
      if connected {
        channel := channel + b.commands;
        sent := sent + b.commands;
        connected := !b.hangUp;
      }
    }

    /** The closure that runs without the GVL. */
    method PollFunction(script: Script<T>) returns (result: PollResult, commands: seq<T>)
      modifies this
      ensures (result, commands, View()) == Gather(old(View()), script)
    {
      commands := [];
      Interfere(script.before);
      if script.interrupted {
        return Cancelled, [];
      }
      if channel == [] {
        return if connected then StillWaiting else Shutdown, [];
      }
      ghost var w1 := View();
      ghost var goal := Collect(w1.(channel := w1.channel[1..]), [w1.channel[0]], script.during, 0);
      commands, channel := [channel[0]], channel[1..];
      var i: nat := 0;
      while |commands| < POLL_BATCH_SIZE
        invariant |commands| <= POLL_BATCH_SIZE
        invariant Collect(View(), commands, script.during, i) == goal
      {
        Interfere(BurstAt(script.during, i));
        if channel == [] {
          break;
        }
        commands, channel := commands + [channel[0]], channel[1..];
        i := i + 1;
      }
      result := Executed;
    }

    method PollOnce(script: Script<T>) returns (result: PollResult)
      requires InOrder(View(), [])
      modifies this
      ensures (View(), result) == Poll(old(View()), script)
      ensures InOrder(View(), [])
      ensures result == Cancelled <==> script.interrupted
      ensures result == Executed <==> !script.interrupted && Waiting(old(View()), script) != []
      ensures result == Shutdown ==> !connected && executed == sent
    {
      PollDecides(View(), script);
      PollInOrder(View(), script);
      var commands;
      result, commands := PollFunction(script);
      if result == Executed {
        ghost var goal := Execute(View(), commands, script.executing, 0);
        for i := 0 to |commands|
          invariant Execute(View(), commands, script.executing, i) == goal
        {
          executed := executed + [commands[i]];
          Interfere(BurstAt(script.executing, i));
        }
      }
    }

    /** The loop of the thread, for as many polls as there are scripts. */
    method Run(scripts: seq<Script<T>>) returns (ended: bool)
      requires InOrder(View(), [])
      modifies this
      ensures (View(), ended) == Polls(old(View()), scripts)
      ensures InOrder(View(), []) && executed <= sent && old(sent) <= sent
      ensures ended ==> executed == sent
    {
      BridgeLosesNothing(View(), scripts);
      ended := false;
      var i := 0;
      while i < |scripts| && !ended
        invariant i <= |scripts| && InOrder(View(), [])
        invariant ended ==> (View(), true) == Polls(old(View()), scripts)
        invariant !ended ==> Polls(View(), scripts[i..]) == Polls(old(View()), scripts)
      {
        var result := PollOnce(scripts[i]);
        assert scripts[i..][0] == scripts[i] && scripts[i..][1..] == scripts[i + 1..];
        ended := result == Shutdown;
        i := i + 1;
      }
    }
  }
}
