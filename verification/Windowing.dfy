/**
 The windowing handler of examples/keyed_state_windowing.rb for one key, over runs
 of attempts that may fail anywhere. Keyed-state writes commit only when the
 attempt succeeds; notifications and timer calls take effect at once. Messages
 are numbered in the order in which the key delivers them.
 */
module Windowing {
  import opened Options

  const CAPACITY: nat := 100

  type Message = nat

  /** The two collections of the key: the window value and the pending deque. */
  datatype Kept = Kept(window: bool, pending: seq<Message>)

  const NOTHING := Kept(false, [])

  /** What a handler works on: its view of the collections, and the world outside the transaction. */
  datatype Work = Work(kept: Kept, timers: set<nat>, notifications: seq<seq<Message>>)

  datatype Effect =
    | Notify(batch: seq<Message>)
    | OpenWindow
    | CloseWindow
    | Push(message: Message)
    | ClearPending
    | ClearAndSchedule(time: nat)
    | ClearScheduled

  /** A push keeps at most the last `CAPACITY` elements. */
  function Trim(pending: seq<Message>): seq<Message> {
    if |pending| <= CAPACITY then pending else pending[|pending| - CAPACITY..]
  }

  function Do(w: Work, e: Effect): Work {
    match e
    case Notify(batch) => w.(notifications := w.notifications + [batch])
    case OpenWindow => w.(kept := w.kept.(window := true))
    case CloseWindow => w.(kept := w.kept.(window := false))
    case Push(m) => w.(kept := w.kept.(pending := Trim(w.kept.pending + [m])))
    case ClearPending => w.(kept := w.kept.(pending := []))
    case ClearAndSchedule(time) => w.(timers := {time})
    case ClearScheduled => w.(timers := {})
  }

  function DoAll(w: Work, effects: seq<Effect>): Work
    decreases |effects|
  {
    if effects == [] then w else DoAll(Do(w, effects[0]), effects[1..])
  }

  datatype Event = OnMessage(fireAt: nat) | OnTimer(time: nat) | OnExcise

  /** The effects of an undisturbed attempt, in order. */
  function Effects(event: Event, m: Message, kept: Kept): seq<Effect> {
    match event
    case OnMessage(fireAt) =>
      if kept.window then [Push(m)] else [Notify([m]), OpenWindow, ClearAndSchedule(fireAt)]
    case OnTimer(_) =>
      if kept.pending == [] then [ClearPending, CloseWindow]
      else [Notify(kept.pending), ClearPending, CloseWindow]
    case OnExcise => [ClearPending, CloseWindow, ClearScheduled]
  }

  /** The effects of an attempt that raises after `cut` of them, or of a whole one. */
  function Performed(effects: seq<Effect>, cut: Option<nat>): seq<Effect> {
    match cut
    case Some(n) => if n <= |effects| then effects[..n] else effects
    case None => effects
  }

  /** What one attempt leaves behind, before its keyed-state writes are committed or discarded. */
  function Attempted(w: Work, event: Event, m: Message, cut: Option<nat>): Work {
    DoAll(w, Performed(Effects(event, m, w.kept), cut))
  }

  // ------------------------------------------------------------- the handlers

  /** The event context as the handlers see it. `budget` says after how many effects the attempt raises. */
  class Context {
    var window: bool
    var pending: seq<Message>
    var timers: set<nat>
    var notifications: seq<seq<Message>>
    var budget: Option<nat>

    ghost function View(): Work reads this {
      Work(Kept(window, pending), timers, notifications)
    }

    constructor (w: Work, cut: Option<nat>)
      ensures View() == w && budget == cut
    {
      window, pending := w.kept.window, w.kept.pending;
      timers, notifications, budget := w.timers, w.notifications, cut;
    }

    /** Performs one effect, or raises when the budget is spent. */
    method Perform(e: Effect) returns (raised: bool)
      modifies this
      ensures raised <==> old(budget) == Some(0)
      ensures raised ==> View() == old(View()) && budget == old(budget)
      ensures !raised ==> View() == Do(old(View()), e)
      ensures !raised && old(budget) == None ==> budget == None
      ensures !raised && old(budget).Some? ==> budget == Some(old(budget).value - 1)
    {
      if budget == Some(0) {
        return true;
      }
      if budget.Some? {
        budget := Some(budget.value - 1);
      }
      raised := false;
      match e
      case Notify(batch) => notifications := notifications + [batch];
      case OpenWindow => window := true;
      case CloseWindow => window := false;
      case Push(m) => pending := Trim(pending + [m]);
      case ClearPending => pending := [];
      case ClearAndSchedule(time) => timers := {time};
      case ClearScheduled => timers := {};
    }
  }

  lemma {:induction false} DoAllAppends(w: Work, a: seq<Effect>, b: seq<Effect>)
    ensures DoAll(w, a + b) == DoAll(DoAll(w, a), b)
    decreases |a|
  {
    if a == [] {
      assert a + b == b;
    } else {
      assert (a + b)[1..] == a[1..] + b;
      DoAllAppends(Do(w, a[0]), a[1..], b);
    }
  }

  /** One more effect of an attempt that has got through `k` of them, and where it stops. */
  lemma PerformedSteps(w: Work, effects: seq<Effect>, cut: Option<nat>, k: nat)
    requires k <= |effects|
    ensures DoAll(w, effects[..0]) == w
    ensures k < |effects| ==> DoAll(w, effects[..k + 1]) == Do(DoAll(w, effects[..k]), effects[k])
    ensures cut == Some(k) ==> Performed(effects, cut) == effects[..k]
    ensures k == |effects| && (cut == None || cut.value >= k) ==> Performed(effects, cut) == effects[..k]
  {
    assert effects[..|effects|] == effects;
    if k < |effects| {
      assert effects[..k + 1] == effects[..k] + [effects[k]];
      DoAllAppends(w, effects[..k], [effects[k]]);
      assert [effects[k]][1..] == [];
    }
  }

  /** The handler whose attempts are modelled. `true` stands for a return, `false` for a raise. */
  class ActivityWindowHandler {

    method OnMessage(context: Context, message: Message, fireAt: nat) returns (returned: bool)
      modifies context
      ensures returned <==> old(context.budget) == None
      ensures context.View() == Attempted(old(context.View()), Event.OnMessage(fireAt), message, old(context.budget))
    {
      ghost var w, cut := context.View(), context.budget;
      ghost var effects := Effects(Event.OnMessage(fireAt), message, w.kept);
      var raised;
      if context.window {
        PerformedSteps(w, effects, cut, 0);
        raised := context.Perform(Push(message));
        if raised {
          return false;
        }
        PerformedSteps(w, effects, cut, 1);
      } else {
        PerformedSteps(w, effects, cut, 0);
        raised := context.Perform(Notify([message]));
        if raised {
          return false;
        }
        PerformedSteps(w, effects, cut, 1);
        raised := context.Perform(OpenWindow);
        if raised {
          return false;
        }
        PerformedSteps(w, effects, cut, 2);
        raised := context.Perform(ClearAndSchedule(fireAt));
        if raised {
          return false;
        }
        PerformedSteps(w, effects, cut, 3);
      }
      returned := context.budget == None;
    }

    method OnTimer(context: Context, time: nat) returns (returned: bool)
      modifies context
      ensures returned <==> old(context.budget) == None
      ensures context.View() == Attempted(old(context.View()), Event.OnTimer(time), 0, old(context.budget))
    {
      ghost var w, cut := context.View(), context.budget;
      ghost var effects := Effects(Event.OnTimer(time), 0, w.kept);
      var batch := context.pending;
      var raised;
      PerformedSteps(w, effects, cut, 0);
      if batch != [] {
        raised := context.Perform(Notify(batch));
        if raised {
          return false;
        }
        PerformedSteps(w, effects, cut, 1);
      }
      raised := context.Perform(ClearPending);
      if raised {
        return false;
      }
      PerformedSteps(w, effects, cut, |effects| - 1);
      raised := context.Perform(CloseWindow);
      if raised {
        return false;
      }
      PerformedSteps(w, effects, cut, |effects|);
      returned := context.budget == None;
    }

    method OnExcise(context: Context) returns (returned: bool)
      modifies context
      ensures returned <==> old(context.budget) == None
      ensures context.View() == Attempted(old(context.View()), Event.OnExcise, 0, old(context.budget))
    {
      ghost var w, cut := context.View(), context.budget;
      ghost var effects := Effects(Event.OnExcise, 0, w.kept);
      PerformedSteps(w, effects, cut, 0);
      var raised := context.Perform(ClearPending);
      if raised {
        return false;
      }
      PerformedSteps(w, effects, cut, 1);
      raised := context.Perform(CloseWindow);
      if raised {
        return false;
      }
      PerformedSteps(w, effects, cut, 2);
      raised := context.Perform(ClearScheduled);
      if raised {
        return false;
      }
      PerformedSteps(w, effects, cut, 3);
      returned := context.budget == None;
    }
  }
}
