/**
 The order of the windowing handler's notifications. A retry may notify again, so
 the claim is about first notifications; where nothing fails, it is about all.
 */
module WindowingOrder {
  import opened Windowing
  import opened WindowingRuns

  function Flat(batches: seq<seq<Message>>): seq<Message> {
    if batches == [] then [] else Flat(batches[..|batches| - 1]) + batches[|batches| - 1]
  }

  predicate IsFirst(s: seq<Message>, j: nat)
    requires j < |s|
  {
    s[j] !in s[..j]
  }

  /** A message that is notified for the first time exceeds every message notified before it. */
  predicate FirstsInOrder(s: seq<Message>) {
    forall j :: 0 <= j < |s| && IsFirst(s, j) ==> AllBelow(s[..j], s[j])
  }

  predicate Increasing(s: seq<Message>) {
    forall i, j :: 0 <= i < j < |s| ==> s[i] < s[j]
  }

  predicate AllBelow(s: seq<Message>, bound: Message) {
    forall i :: 0 <= i < |s| ==> s[i] < bound
  }

  /** What has not been notified yet exceeds what has. */
  predicate Fresh(seen: seq<Message>, pending: seq<Message>) {
    forall p | p in pending && p !in seen :: AllBelow(seen, p)
  }

  predicate InOrder(seen: seq<Message>, kept: Kept, next: Message) {
    FirstsInOrder(seen) && Increasing(kept.pending) && AllBelow(kept.pending, next) &&
    Fresh(seen, kept.pending) && AllBelow(seen, next + 1) &&
    (kept.window ==> AllBelow(seen, next)) && (!kept.window ==> kept.pending == [])
  }

  predicate Ordered(s: State) { InOrder(Flat(s.work.notifications), s.work.kept, s.next) }

  lemma FlatAppends(batches: seq<seq<Message>>, batch: seq<Message>)
    ensures Flat(batches + [batch]) == Flat(batches) + batch
  {
    assert (batches + [batch])[..|batches|] == batches;
  }

  lemma FreshBatchKeepsOrder(seen: seq<Message>, batch: seq<Message>)
    requires FirstsInOrder(seen) && Increasing(batch) && Fresh(seen, batch)
    ensures FirstsInOrder(seen + batch)
  {
    var all := seen + batch;
    forall j | 0 <= j < |all| && IsFirst(all, j)
      ensures AllBelow(all[..j], all[j])
    {
      if j < |seen| {
        assert all[..j] == seen[..j];
        assert IsFirst(seen, j);
      } else {
        FirstOfBatch(seen, batch, j - |seen|);
      }
    }
  }

  lemma FirstOfBatch(seen: seq<Message>, batch: seq<Message>, b: nat)
    requires Increasing(batch) && Fresh(seen, batch) && b < |batch| && IsFirst(seen + batch, |seen| + b)
    ensures AllBelow((seen + batch)[..|seen| + b], (seen + batch)[|seen| + b])
  {
    assert (seen + batch)[..|seen| + b] == seen + batch[..b];
    assert batch[b] !in seen;
    assert AllBelow(seen, batch[b]);
  }

  lemma AppendKeepsIncreasing(s: seq<Message>, m: Message)
    requires Increasing(s) && AllBelow(s, m)
    ensures Increasing(s + [m]) && AllBelow(s + [m], m + 1)
  {
    forall i, j | 0 <= i < j <= |s|
      ensures (s + [m])[i] < (s + [m])[j]
    {
      assert s[i] in s;
    }
  }

  /** Trimming behind whatever was notified drops a stretch. */
  lemma TrimKeepsIncreasing(seen: seq<Message>, grown: seq<Message>, bound: Message)
    requires Increasing(seen + grown) && AllBelow(seen + grown, bound)
    ensures Increasing(seen + Trim(grown)) && AllBelow(seen + Trim(grown), bound)
  {
    var was, now := seen + grown, seen + Trim(grown);
    var gap := |was| - |now|;
    forall k | 0 <= k < |now|
      ensures now[k] == was[if k < |seen| then k else k + gap]
    {
    }
  }

  lemma TrimKeepsOrder(pending: seq<Message>, m: Message)
    requires Increasing(pending) && AllBelow(pending, m)
    ensures Increasing(Trim(pending + [m]))
    ensures AllBelow(Trim(pending + [m]), m + 1)
    ensures forall p | p in Trim(pending + [m]) :: p in pending || p == m
  {
    AppendKeepsIncreasing(pending, m);
    var grown := pending + [m];
    forall p | p in Trim(grown)
      ensures p in pending || p == m
    {
      assert p in grown;
    }
  }

  lemma PushStaysFresh(seen: seq<Message>, pending: seq<Message>, m: Message)
    requires Increasing(pending) && AllBelow(pending, m) && AllBelow(seen, m) && Fresh(seen, pending)
    ensures Fresh(seen, Trim(pending + [m]))
  {
    TrimKeepsOrder(pending, m);
  }

  // The handlers' changes, on the data alone.

  lemma PushInOrder(seen: seq<Message>, kept: Kept, m: Message)
    requires InOrder(seen, kept, m) && kept.window
    ensures InOrder(seen, Kept(true, Trim(kept.pending + [m])), m + 1)
  {
    TrimKeepsOrder(kept.pending, m);
    PushStaysFresh(seen, kept.pending, m);
  }

  lemma PassInOrder(seen: seq<Message>, kept: Kept, m: Message)
    requires InOrder(seen, kept, m)
    ensures InOrder(seen, kept, m + 1)
  {
  }

  lemma NothingPendingIsInOrder(seen: seq<Message>)
    ensures Fresh(seen, []) && Increasing([])
  {
  }

  /** The first message of a window is notified, whether or not its attempt opens the window. */
  lemma NotifyInOrder(seen: seq<Message>, m: Message, window: bool)
    requires InOrder(seen, NOTHING, m)
    ensures InOrder(seen + [m], Kept(window, []), m + 1) && InOrder(seen + [m], NOTHING, m)
  {
    forall p | p in [m] && p !in seen
      ensures AllBelow(seen, p)
    {
      forall i | 0 <= i < |seen|
        ensures seen[i] < m
      {
        assert seen[i] != m;
      }
    }
    FreshBatchKeepsOrder(seen, [m]);
    NothingPendingIsInOrder(seen + [m]);
  }

  lemma FlushInOrder(seen: seq<Message>, kept: Kept, next: Message)
    requires InOrder(seen, kept, next)
    ensures InOrder(seen + kept.pending, kept, next)
  {
    FreshBatchKeepsOrder(seen, kept.pending);
    assert Fresh(seen + kept.pending, kept.pending);
  }

  lemma ClearInOrder(seen: seq<Message>, kept: Kept, next: Message)
    requires InOrder(seen, kept, next)
    ensures InOrder(seen, NOTHING, next)
  {
    NothingPendingIsInOrder(seen);
  }

  lemma MessageKeepsOrder(s: State, a: Attempt)
    requires Ordered(s) && a.event.OnMessage?
    ensures Ordered(Step(s, a))
  {
    MessageLeaves(s.work, a.event.fireAt, s.next, Cut(a.outcome));
    var seen, kept := Flat(s.work.notifications), s.work.kept;
    if kept.window {
      PushInOrder(seen, kept, s.next);
      PassInOrder(seen, kept, s.next);
    } else {
      assert kept == NOTHING;
      FlatAppends(s.work.notifications, [s.next]);
      NotifyInOrder(seen, s.next, a.outcome.Success?);
      PassInOrder(seen, kept, s.next);
    }
  }

  lemma TimerKeepsOrder(s: State, a: Attempt)
    requires Ordered(s) && a.event.OnTimer?
    ensures Ordered(Step(s, a))
  {
    TimerLeaves(s.work, a.event.time, s.next, Cut(a.outcome));
    var seen, kept := Flat(s.work.notifications), s.work.kept;
    FlatAppends(s.work.notifications, kept.pending);
    FlushInOrder(seen, kept, s.next);
    ClearInOrder(seen, kept, s.next);
    ClearInOrder(seen + kept.pending, kept, s.next);
  }

  lemma ExciseKeepsOrder(s: State, a: Attempt)
    requires Ordered(s) && a.event.OnExcise?
    ensures Ordered(Step(s, a))
  {
    ExciseLeaves(s.work, s.next, Cut(a.outcome));
    ClearInOrder(Flat(s.work.notifications), s.work.kept, s.next);
  }

  lemma ClosingKeepsOrder(s: State, a: Attempt)
    requires Ordered(s) && !a.event.OnMessage?
    ensures Ordered(Step(s, a))
  {
    if a.event.OnTimer? {
      TimerKeepsOrder(s, a);
    } else {
      ExciseKeepsOrder(s, a);
    }
  }

  lemma {:induction false} RunKeepsOrder(s: State, attempts: seq<Attempt>)
    requires Ordered(s)
    ensures Ordered(Run(s, attempts))
    decreases |attempts|
  {
    if attempts != [] {
      if attempts[0].event.OnMessage? {
        MessageKeepsOrder(s, attempts[0]);
      } else {
        ClosingKeepsOrder(s, attempts[0]);
      }
      RunKeepsOrder(Step(s, attempts[0]), attempts[1..]);
    }
  }

  /** In every run, whatever fails, messages are first notified in the order they were delivered. */
  lemma FirstNotificationsAreInOrder(attempts: seq<Attempt>)
    ensures FirstsInOrder(Flat(Run(START, attempts).work.notifications))
  {
    RunKeepsOrder(START, attempts);
  }

  // ------------------------------------------------------------- without failure

  /** Everything notified, then everything waiting. */
  function All(s: State): seq<Message> {
    Flat(s.work.notifications) + s.work.kept.pending
  }

  /** Each message is notified or waiting at most once, and in order. */
  predicate Exact(s: State) {
    Increasing(All(s)) && AllBelow(All(s), s.next) &&
    (!s.work.kept.window ==> s.work.kept.pending == [])
  }

  lemma MessageIsExact(s: State, fireAt: nat)
    requires Exact(s)
    ensures Exact(Step(s, Attempt.Attempt(OnMessage(fireAt), Success)))
  {
    var t := Step(s, Attempt.Attempt(OnMessage(fireAt), Success));
    MessageLeaves(s.work, fireAt, s.next, Cut(Success));
    var seen, pending := Flat(s.work.notifications), s.work.kept.pending;
    if s.work.kept.window {
      AppendKeepsIncreasing(All(s), s.next);
      assert All(s) + [s.next] == seen + (pending + [s.next]);
      TrimKeepsIncreasing(seen, pending + [s.next], s.next + 1);
    } else {
      FlatAppends(s.work.notifications, [s.next]);
      AppendKeepsIncreasing(All(s), s.next);
      assert All(t) == All(s) + [s.next];
    }
  }

  lemma ClosingIsExact(s: State, event: Event)
    requires Exact(s) && !event.OnMessage?
    ensures Exact(Step(s, Attempt.Attempt(event, Success)))
  {
    var t := Step(s, Attempt.Attempt(event, Success));
    AttemptedIs(s.work, event, s.next, Cut(Success));
    var seen := Flat(s.work.notifications);
    if event.OnTimer? {
      FlatAppends(s.work.notifications, s.work.kept.pending);
      assert All(t) == All(s);
    } else {
      assert All(t) == All(s)[..|seen|];
    }
  }

  lemma {:induction false} RunIsExact(s: State, attempts: seq<Attempt>)
    requires Exact(s) && forall a | a in attempts :: a.outcome.Success?
    ensures Exact(Run(s, attempts))
    decreases |attempts|
  {
    if attempts != [] {
      if attempts[0].event.OnMessage? {
        MessageIsExact(s, attempts[0].event.fireAt);
      } else {
        ClosingIsExact(s, attempts[0].event);
      }
      RunIsExact(Step(s, attempts[0]), attempts[1..]);
    }
  }

  /** Where no attempt fails, every message is notified at most once and all in delivery order. */
  lemma NoFailureNoDuplicate(attempts: seq<Attempt>)
    requires forall a | a in attempts :: a.outcome.Success?
    ensures Increasing(All(Run(START, attempts)))
  {
    RunIsExact(START, attempts);
  }
}
