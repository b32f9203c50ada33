/**
 The objects behind the transition system: the Ruby processor with its queue and the
 cancel tokens it hands out (lib/prosody/processor.rb), and the Rust side with its
 shutdown flag and run-once blocks (ext/prosody/src/scheduler/processor.rs). Their
 methods perform operations on a view of the objects, and every step of the
 transition system is one of these operations, or none.
 */
module Processor {
  import opened Options
  import opened ResultChannel
  import opened Lifecycle

  /** The objects as the system sees them: signals in each accepted task's token, runs of its block. */
  datatype View = View(isShutdown: bool, queue: seq<Command>, alive: bool, signals: map<nat, nat>, runs: map<nat, nat>)

  /** What the methods below do; `PopQueue` is `AsyncTaskProcessor.Pop`. */
  datatype Operation =
    | SubmitTask(task: nat)
    | SignalToken(task: nat)
    | TakeSignal(task: nat)
    | StopLoop(logRaises: bool)
    | PopQueue
    | CallBlock(task: nat)
    | Nothing

  function AfterSubmit(v: View, t: nat): View {
    if v.isShutdown then v
    else v.(queue := v.queue + [Execute(t)], signals := v.signals[t := 0], runs := v.runs[t := 0])
  }

  function AfterSignal(v: View, t: nat): View {
    if t in v.signals then v.(signals := v.signals[t := v.signals[t] + 1]) else v
  }

  function AfterTake(v: View, t: nat): View {
    if t in v.signals && v.signals[t] > 0 then v.(signals := v.signals[t := v.signals[t] - 1]) else v
  }

  function AfterStop(v: View, logRaises: bool): View {
    if v.isShutdown then v
    else v.(isShutdown := true, queue := if v.alive && !logRaises then v.queue + [Shutdown] else v.queue)
  }

  function AfterPop(v: View): View { if v.queue == [] then v else v.(queue := v.queue[1..]) }

  function AfterRun(v: View, t: nat): View { if t in v.runs then v.(runs := v.runs[t := 1]) else v }

  function Perform(v: View, op: Operation): View {
    match op
    case SubmitTask(t) => AfterSubmit(v, t)
    case SignalToken(t) => AfterSignal(v, t)
    case TakeSignal(t) => AfterTake(v, t)
    case StopLoop(logRaises) => AfterStop(v, logRaises)
    case PopQueue => AfterPop(v)
    case CallBlock(t) => AfterRun(v, t)
    case Nothing => v
  }

  // ------------------------------------------------------------------ the objects

  /** A token's queue holds indistinguishable signals. */
  class CancellationToken {
    ghost const task: nat
    var signals: nat

    constructor (ghost t: nat)
      ensures signals == 0 && task == t
    {
      task, signals := t, 0;
    }

    method Cancel()
      modifies this
      ensures signals == old(signals) + 1
    {
      signals := signals + 1;
    }

    /** Popping an empty queue blocks, so a wait that returns has found a signal. */
    method Wait() returns (cancelled: bool)
      requires signals > 0
      modifies this
      ensures cancelled && signals == old(signals) - 1
    {
      signals := signals - 1;
      return true;
    }
  }

  /** A handler function, by what calling it gives; how it yields or raises is the subject of the transition system. */
  datatype Handler = Handler(value: Returned)

  function Invoke(handler: Handler): Returned { handler.value }

  /** The block handed to Ruby: it runs the handler function on the first call and answers nil afterwards. */
  class RunOnce {
    ghost const task: nat
    var maybeFunction: Option<Handler>

    function Runs(): nat reads this {
      if maybeFunction.Some? then 0 else 1
    }

    constructor (handler: Handler, ghost t: nat)
      ensures Runs() == 0 && maybeFunction == Some(handler) && task == t
    {
      task, maybeFunction := t, Some(handler);
    }

    method Call() returns (result: Option<Returned>)
      modifies this
      ensures Runs() == 1
      ensures result == if old(maybeFunction).Some? then Some(Invoke(old(maybeFunction).value)) else None
    {
      match maybeFunction
      case Some(f) =>
        result := Some(Invoke(f));
        maybeFunction := None;
      case None =>
        result := None;
    }
  }

  function Startable(queue: seq<Command>): seq<nat> {
    if queue == [] || queue[0].Shutdown? then [] else [queue[0].task] + Startable(queue[1..])
  }

  lemma {:induction false} StartableAppends(queue: seq<Command>, c: Command)
    requires Shutdown !in queue
    ensures Startable(queue + [c]) == Startable(queue) + (if c.Execute? then [c.task] else [])
  {
    if queue == [] {
      assert queue + [c] == [c];
    } else {
      assert (queue + [c])[0] == queue[0] && (queue + [c])[1..] == queue[1..] + [c];
      StartableAppends(queue[1..], c);
    }
  }

  function Concat<T>(parts: seq<seq<T>>): seq<T> {
    if parts == [] then [] else Concat(parts[..|parts| - 1]) + parts[|parts| - 1]
  }

  lemma ConcatNext(arrivals: seq<seq<Command>>, rounds: nat, popped: seq<Command>, queue: seq<Command>, first: seq<Command>)
    requires rounds < |arrivals| && popped + queue == first + Concat(arrivals[..rounds])
    ensures popped + (queue + arrivals[rounds]) == first + Concat(arrivals[..rounds + 1])
  {
    assert arrivals[..rounds + 1][..rounds] == arrivals[..rounds];
    assert popped + (queue + arrivals[rounds]) == (popped + queue) + arrivals[rounds];
  }

  class AsyncTaskProcessor {
    var commandQueue: seq<Command>
    var alive: bool
    var started: seq<nat>

    constructor ()
      ensures commandQueue == [] && !alive && started == []
    {
      commandQueue, alive, started := [], false, [];
    }

    method Start()
      modifies this`alive
      ensures alive
    {
      if !alive {
        alive := true;
      }
    }

    /** The log call stands in front of the push. */
    method Stop(logRaises: bool) returns (raised: bool)
      modifies this`commandQueue
      ensures raised <==> alive && logRaises
      ensures commandQueue == old(commandQueue) + (if alive && !logRaises then [Shutdown] else [])
    {
      if !alive {
        return false;
      }
      if logRaises {
        return true;
      }
      commandQueue := commandQueue + [Shutdown];
      raised := false;
    }

    method Submit(t: nat) returns (token: CancellationToken)
      modifies this`commandQueue
      ensures commandQueue == old(commandQueue) + [Execute(t)]
      ensures fresh(token) && token.signals == 0 && token.task == t
    {
      token := new CancellationToken(t);
      commandQueue := commandQueue + [Execute(t)];
    }

    method Pop() returns (command: Command)
      requires commandQueue != []
      modifies this`commandQueue
      ensures [command] + commandQueue == old(commandQueue)
    {
      command, commandQueue := commandQueue[0], commandQueue[1..];
    }

    /** One turn of the loop. `popped` are the commands of the turns before. */
    method HandleNext(ghost popped: seq<Command>, ghost before: seq<nat>) returns (command: Command)
      requires commandQueue != [] && Shutdown !in popped && started == before + Startable(popped)
      modifies this`commandQueue, this`started
      ensures popped + old(commandQueue) == (popped + [command]) + commandQueue
      ensures |commandQueue| < |old(commandQueue)|
      ensures started == before + Startable(popped + [command])
    {
      command := Pop();
      StartableAppends(popped, command);
      if command.Execute? {
        started := started + [command.task];
      }
    }

    /**
     The command loop. `arrivals` are the commands that other threads push in front of
     each pop; the loop blocks when it runs out of them. Commands are popped in the
     order of their arrival, the tasks in front of the first Shutdown are started,
     and nothing behind it is popped.
     */
    method ProcessCommands(arrivals: seq<seq<Command>>) returns (popped: seq<Command>, rounds: nat, ended: bool)
      modifies this
      ensures rounds <= |arrivals|
      ensures popped + commandQueue == old(commandQueue) + Concat(arrivals[..rounds])
      ensures started == old(started) + Startable(popped)
      ensures ended <==> Shutdown in popped
      ensures ended ==> popped[|popped| - 1] == Shutdown && Shutdown !in popped[..|popped| - 1] && !alive
      ensures !ended ==> commandQueue == [] && rounds == |arrivals| && alive == old(alive)
    {
      popped, rounds, ended := [], 0, false;
      while !ended && (commandQueue != [] || rounds < |arrivals|)
        invariant rounds <= |arrivals|
        invariant popped + commandQueue == old(commandQueue) + Concat(arrivals[..rounds])
        invariant started == old(started) + Startable(popped)
        invariant ended <==> Shutdown in popped
        invariant ended ==> popped[|popped| - 1] == Shutdown && Shutdown !in popped[..|popped| - 1]
        invariant alive == old(alive)
        decreases !ended, |arrivals| - rounds, |commandQueue|
      {
        if rounds < |arrivals| {
          ConcatNext(arrivals, rounds, popped, commandQueue, old(commandQueue));
          commandQueue, rounds := commandQueue + arrivals[rounds], rounds + 1;
        }
        if commandQueue != [] {
          var command := HandleNext(popped, old(started));
          popped, ended := popped + [command], command == Shutdown;
        }
      }
      if ended {
        alive := false;
      }
    }
  }

  /**
   The flag in front of the processor, with the tokens and blocks of the accepted
   tasks. `signals` and `runs` record their state, and `handlers` what was submitted.
   */
  class RubyProcessor {
    const processor: AsyncTaskProcessor
    var isShutdown: bool
    var tokens: map<nat, CancellationToken>
    var blocks: map<nat, RunOnce>
    ghost var signals: map<nat, nat>
    ghost var runs: map<nat, nat>
    ghost var handlers: map<nat, Handler>

    ghost predicate TokensValid()
      reads this`tokens, this`signals, tokens.Values
    {
      tokens.Keys == signals.Keys &&
      forall t :: t in tokens ==> tokens[t].task == t && tokens[t].signals == signals[t]
    }

    ghost predicate BlocksValid()
      reads this`blocks, this`runs, this`handlers, blocks.Values
    {
      blocks.Keys == runs.Keys && blocks.Keys == handlers.Keys &&
      forall t :: t in blocks ==>
        && blocks[t].task == t && blocks[t].Runs() == runs[t]
        && (blocks[t].maybeFunction.Some? ==> blocks[t].maybeFunction.value == handlers[t])
    }

    ghost predicate Valid()
      reads this, tokens.Values, blocks.Values
    {
      TokensValid() && BlocksValid() && tokens.Keys == blocks.Keys
    }

    ghost function Objects(): View
      reads this, processor
    {
      View(isShutdown, processor.commandQueue, processor.alive, signals, runs)
    }

    constructor ()
      ensures Valid() && fresh(processor) && Objects() == View(false, [], true, map[], map[])
    {
      processor := new AsyncTaskProcessor();
      isShutdown, tokens, blocks := false, map[], map[];
      signals, runs, handlers := map[], map[], map[];
      new;
      processor.Start();
    }

    method IssueToken(t: nat) returns (token: CancellationToken)
      requires TokensValid()
      modifies this`tokens, this`signals, processor`commandQueue
      ensures TokensValid() && tokens == old(tokens)[t := token] && signals == old(signals)[t := 0]
      ensures processor.commandQueue == old(processor.commandQueue) + [Execute(t)]
    {
      token := processor.Submit(t);
      tokens, signals := tokens[t := token], signals[t := 0];
    }

    method AddBlock(t: nat, handler: Handler)
      requires BlocksValid()
      modifies this`blocks, this`runs, this`handlers
      ensures BlocksValid() && blocks.Keys == old(blocks).Keys + {t}
      ensures runs == old(runs)[t := 0] && handlers == old(handlers)[t := handler]
    {
      var block := new RunOnce(handler, t);
      blocks, runs, handlers := blocks[t := block], runs[t := 0], handlers[t := handler];
    }

    method Accept(t: nat, handler: Handler) returns (token: CancellationToken)
      requires Valid()
      modifies this`tokens, this`signals, this`blocks, this`runs, this`handlers, processor`commandQueue
      ensures Valid() && tokens == old(tokens)[t := token] && signals == old(signals)[t := 0]
      ensures runs == old(runs)[t := 0] && handlers == old(handlers)[t := handler]
      ensures processor.commandQueue == old(processor.commandQueue) + [Execute(t)]
    {
      AddBlock(t, handler);
      assert TokensValid();
      token := IssueToken(t);
      assert BlocksValid();
    }

    method Submit(t: nat, handler: Handler) returns (token: Option<CancellationToken>)
      requires Valid() && t !in tokens
      modifies this`tokens, this`signals, this`blocks, this`runs, this`handlers, processor`commandQueue
      ensures Valid() && Objects() == AfterSubmit(old(Objects()), t)
      ensures token.None? <==> old(isShutdown)
      ensures token.Some? ==> t in tokens && tokens[t] == token.value
      ensures handlers == if token.Some? then old(handlers)[t := handler] else old(handlers)
    {
      if isShutdown {
        return None;
      }
      var issued := Accept(t, handler);
      return Some(issued);
    }

    /** The flag is set before Ruby is called, and stays set if Ruby raises. */
    method Stop(logRaises: bool) returns (raised: bool)
      requires Valid()
      modifies this`isShutdown, processor`commandQueue
      ensures Valid() && Objects() == AfterStop(old(Objects()), logRaises)
      ensures raised <==> !old(isShutdown) && processor.alive && logRaises
    {
      if isShutdown {
        return false;
      }
      isShutdown := true;
      raised := processor.Stop(logRaises);
    }

    method PushSignal(t: nat)
      requires TokensValid() && t in tokens
      modifies tokens[t], this`signals
      ensures TokensValid() && signals == old(signals)[t := old(signals)[t] + 1]
    {
      tokens[t].Cancel();
      signals := signals[t := signals[t] + 1];
    }

    method PopSignal(t: nat) returns (cancelled: bool)
      requires TokensValid() && t in tokens && tokens[t].signals > 0
      modifies tokens[t], this`signals
      ensures cancelled && TokensValid() && old(signals)[t] > 0 && signals == old(signals)[t := old(signals)[t] - 1]
    {
      cancelled := tokens[t].Wait();
      signals := signals[t := signals[t] - 1];
    }

    method CallBlock(t: nat) returns (result: Option<Returned>)
      requires BlocksValid() && t in blocks
      modifies blocks[t], this`runs
      ensures BlocksValid() && runs == old(runs)[t := 1]
      ensures result == if old(runs)[t] == 0 then Some(Invoke(handlers[t])) else None
    {
      result := blocks[t].Call();
      runs := runs[t := 1];
    }

    /** A cancel from Rust, or the worker's own signal at its end. */
    method Signal(t: nat)
      requires Valid() && t in tokens
      modifies tokens[t], this`signals
      ensures Valid() && Objects() == AfterSignal(old(Objects()), t)
    {
      PushSignal(t);
    }

    /** The watcher's wait, once it returns. */
    method AwaitSignal(t: nat) returns (cancelled: bool)
      requires Valid() && t in tokens && tokens[t].signals > 0
      modifies tokens[t], this`signals
      ensures cancelled && Valid() && Objects() == AfterTake(old(Objects()), t)
    {
      cancelled := PopSignal(t);
    }

    /** The worker calls the block: the first call runs the very handler that was submitted for the task. */
    method RunBlock(t: nat) returns (result: Option<Returned>)
      requires Valid() && t in blocks
      modifies blocks[t], this`runs
      ensures Valid() && Objects() == AfterRun(old(Objects()), t)
      ensures result == if old(runs[t]) == 0 then Some(Invoke(handlers[t])) else None
    {
      result := CallBlock(t);
    }
  }
}
