/**
 The take-once result channel of ext/prosody/src/scheduler/result.rs: a Ruby
 callback reports an outcome, at most one of the reports reaches the Rust
 receiver, and the receiver's error decides whether the event is retried.
 */
module ResultChannel {
  import opened Options

  /** The handler's return value, seen through its JSON form. */
  datatype Returned = Json(text: string) | NoJsonForm(reason: string)

  /**
   A Ruby exception, seen through the calls that the callback makes on it.
   `permanent` is `None` when `permanent?` is undefined or raises; the two
   messages are `None` when `full_message` or `inspect` raises.
   */
  datatype Raised = Raised(permanent: Option<bool>, fullMessage: Option<string>, inspected: Option<string>, plain: string)

  /** One call of the callback. */
  datatype Report = Success(value: Returned) | Failure(error: Raised)

  datatype ProcessingError = Transient(message: string) | Permanent(message: string) | Closed

  datatype Received = Ok(json: string) | Err(error: ProcessingError)

  datatype Category = Retry | NoRetry

  /** `Armed` still holds the one-shot sender; `Lost` sent it to a receiver that had gone away. */
  datatype Slot = Armed | Sent(received: Received) | Lost | Dropped

  datatype Channel = Channel(slot: Slot, receiverOpen: bool)

  const FRESH := Channel(Armed, true)

  function ErrorText(e: Raised): string {
    match e.fullMessage
    case Some(text) => text
    case None =>
      match e.inspected
      case Some(text) => text
      case None => e.plain
  }

  /** What one report means to the receiver. */
  function Translate(r: Report): Received {
    match r
    case Success(Json(text)) => Ok(text)
    case Success(NoJsonForm(reason)) => Err(Transient(reason))
    case Failure(e) =>
      if e.permanent == Some(true) then Err(Permanent(ErrorText(e))) else Err(Transient(ErrorText(e)))
  }

  /**
   What a received result has to be: the JSON text itself, or the reason why there is
   none; an error with the full message of the exception, or else its inspected form,
   or else its plain text, permanent exactly if the exception says so.
   */
  predicate Conveys(r: Report, received: Received) {
    && (r.Success? && r.value.Json? ==> received == Ok(r.value.text))
    && (r.Success? && r.value.NoJsonForm? ==> received == Err(Transient(r.value.reason)))
    && (r.Failure? ==>
          && received.Err? && !received.error.Closed?
          && (received.error.Permanent? <==> r.error.permanent == Some(true))
          && (r.error.fullMessage.Some? ==> received.error.message == r.error.fullMessage.value)
          && (r.error.fullMessage == None && r.error.inspected.Some? ==> received.error.message == r.error.inspected.value)
          && (r.error.fullMessage == None && r.error.inspected == None ==> received.error.message == r.error.plain))
  }

  /** The channel after a report, and the boolean that the callback returns. */
  function AfterReport(c: Channel, r: Report): (Channel, bool) {
    if !c.slot.Armed? then (c, false)
    else if c.receiverOpen then (c.(slot := Sent(Translate(r))), true)
    else (c.(slot := Lost), r.Success?)
  }

  function AfterCollection(c: Channel): Channel {
    if c.slot.Armed? then c.(slot := Dropped) else c
  }

  /** What the awaiting receiver resolves to; `None` while it still waits. */
  function Resolution(c: Channel): Option<Received> {
    match c.slot
    case Sent(received) => Some(received)
    case Dropped => Some(Err(Closed))
    case Armed | Lost => None
  }

  function Classify(e: ProcessingError): Category {
    match e
    case Transient(_) | Closed => Retry
    case Permanent(_) => NoRetry
  }

  /** The sender as the callback's proc owns it, with the channel it writes. */
  class ResultSender {
    var armed: bool
    var wire: Option<Received>
    var dropped: bool
    var receiverOpen: bool

    ghost predicate Valid() reads this {
      && (wire.Some? ==> !armed)
      && (dropped ==> !armed && wire.None?)
    }

    ghost function View(): Channel
      reads this
      requires Valid()
    {
      Channel(if armed then Armed
              else if dropped then Dropped
              else if wire.Some? then Sent(wire.value)
              else Lost,
              receiverOpen)
    }

    constructor ()
      ensures Valid() && View() == FRESH
    {
      armed, wire, dropped, receiverOpen := true, None, false, true;
    }

    method Send(report: Report) returns (sent: bool)
      requires Valid()
      modifies this
      ensures Valid()
      ensures (View(), sent) == AfterReport(old(View()), report)
      ensures old(armed) && receiverOpen ==> wire.Some? && Conveys(report, wire.value)
      ensures !(old(armed) && receiverOpen) ==> wire == old(wire)
    {
      if !armed {
        return false;
      }
      armed := false;
      match report
      case Success(value) =>
        var received := match value case Json(text) => Ok(text) case NoJsonForm(reason) => Err(Transient(reason));
        if receiverOpen {
          wire := Some(received);
        }
        return true;
      case Failure(e) =>
        var text := ErrorText(e);
        var error := if e.permanent == Some(true) then Permanent(text) else Transient(text);
        if !receiverOpen {
          return false;
        }
        wire := Some(Err(error));
        return true;
    }

    /** Ruby collects the proc, and the sender with it. */
    method Collect()
      requires Valid()
      modifies this
      ensures Valid() && View() == AfterCollection(old(View()))
    {
      if armed {
        armed, dropped := false, true;
      }
    }
  }

  /** Everything that can happen to one channel, in any order. */
  datatype Event = Reported(report: Report) | ReceiverGone | ProcCollected

  function Step(c: Channel, e: Event): Channel {
    match e
    case Reported(r) => AfterReport(c, r).0
    case ReceiverGone => c.(receiverOpen := false)
    case ProcCollected => AfterCollection(c)
  }

  function Run(c: Channel, events: seq<Event>): Channel {
    if events == [] then c else Step(Run(c, events[..|events| - 1]), events[|events| - 1])
  }

  /** The first event that decides the channel, if one has happened. */
  ghost predicate DecidedAt(events: seq<Event>, k: nat) {
    && k < |events|
    && !events[k].ReceiverGone?
    && forall i :: 0 <= i < k ==> events[i].ReceiverGone?
  }

  /**
   First outcome wins: whatever is reported, dropped or collected later, the
   receiver resolves as the first report said, or as closed when the proc was
   collected before any report.
   */
  lemma {:induction false} FirstOutcomeWins(events: seq<Event>, k: nat)
    requires DecidedAt(events, k)
    ensures Run(FRESH, events).slot ==
            if events[k].ProcCollected? then Dropped
            else if k == 0 then Sent(Translate(events[k].report))
            else Lost
    ensures events[0].Reported? ==>
              Run(FRESH, events).slot.Sent? && Conveys(events[0].report, Run(FRESH, events).slot.received)
  {
    var front := events[..|events| - 1];
    if k == |events| - 1 {
      Undecided(front);
    } else {
      assert DecidedAt(front, k);
      FirstOutcomeWins(front, k);
    }
  }

  lemma {:induction false} Undecided(events: seq<Event>)
    requires forall i :: 0 <= i < |events| ==> events[i].ReceiverGone?
    ensures Run(FRESH, events) == Channel(Armed, events == [])
  {
    if events != [] {
      Undecided(events[..|events| - 1]);
    }
  }

  /**
   The callback answers whether the report reached the receiver, except for one
   case: the first report is a success and the receiver has gone away.
   */
  lemma AnswerIsDeliveryIff(c: Channel, r: Report)
    ensures var (c', sent) := AfterReport(c, r);
            sent == (c.slot.Armed? && c'.slot.Sent?) <==> !(c.slot.Armed? && !c.receiverOpen && r.Success?)
  {
  }

  /** That case: the answer is true, and nobody receives anything. */
  lemma SuccessIsAnsweredToNobody(value: Returned)
    ensures AfterReport(Channel(Armed, false), Success(value)) == (Channel(Lost, false), true)
    ensures Resolution(Channel(Lost, false)) == None
  {
  }
}
