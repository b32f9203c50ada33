/**
 Runs of the windowing handler: any sequence of attempts for one key, each of which
 succeeds, fails and will be tried again, or fails and is given up.
 */
module WindowingRuns {
  import opened Options
  import opened Windowing

  datatype Outcome =
    | Success
    | Retry(cut: nat)
    | GiveUp(cut: nat)

  /** A timer attempt names any timer, armed or not, so a late retry of a cleared timer is covered. */
  datatype Attempt = Attempt(event: Event, outcome: Outcome)

  /**
   `work.kept` is what is committed. The rest records history: the messages whose
   attempt succeeded, those pushed since the window opened, and the windows that a
   timer or an excise closed.
   */
  datatype State = State(
    work: Work,
    next: Message,
    exciseRetrying: bool,
    done: set<Message>,
    pushed: seq<Message>,
    flushed: seq<seq<Message>>,
    excised: seq<seq<Message>>)

  const START := State(Work(NOTHING, {}, []), 0, false, {}, [], [], [])

  function Cut(outcome: Outcome): Option<nat> {
    match outcome
    case Success => None
    case Retry(n) => Some(n)
    case GiveUp(n) => Some(n)
  }

  /**
   Only a success commits. Timer calls and notifications stand whatever happens. A
   timer disarms, a message is passed and an excise is over once it will not be retried.
   */
  function Step(s: State, a: Attempt): State {
    var w := Attempted(s.work, a.event, s.next, Cut(a.outcome));
    var success := a.outcome.Success?;
    var over := !a.outcome.Retry?;
    var kept := if success then w.kept else s.work.kept;
    match a.event
    case OnMessage(_) =>
      s.(work := w.(kept := kept),
        next := if over then s.next + 1 else s.next,
        done := if success then s.done + {s.next} else s.done,
        pushed := if success then (if s.work.kept.window then s.pushed + [s.next] else []) else s.pushed)
    case OnTimer(time) =>
      s.(work := w.(kept := kept, timers := if over then w.timers - {time} else w.timers),
        flushed := if success then s.flushed + [s.pushed] else s.flushed,
        pushed := if success then [] else s.pushed)
    case OnExcise =>
      s.(work := w.(kept := kept),
        exciseRetrying := !over,
        excised := if success then s.excised + [s.pushed] else s.excised,
        pushed := if success then [] else s.pushed)
  }

  function Run(s: State, attempts: seq<Attempt>): State
    decreases |attempts|
  {
    if attempts == [] then s else Run(Step(s, attempts[0]), attempts[1..])
  }

  // ---------------------------------------------------------- one attempt's work

  /** Three effects unfold by hand. */
  lemma DoAllUnfolds(w: Work, effects: seq<Effect>)
    requires |effects| <= 3
    ensures |effects| == 0 ==> DoAll(w, effects) == w
    ensures |effects| == 1 ==> DoAll(w, effects) == Do(w, effects[0])
    ensures |effects| == 2 ==> DoAll(w, effects) == Do(Do(w, effects[0]), effects[1])
    ensures |effects| == 3 ==> DoAll(w, effects) == Do(Do(Do(w, effects[0]), effects[1]), effects[2])
  {
    if |effects| > 1 {
      var v, rest := Do(w, effects[0]), effects[1..];
      assert DoAll(v, rest) == DoAll(Do(v, rest[0]), rest[1..]);
      if |effects| == 3 {
        var u, last := Do(v, rest[0]), rest[1..];
        assert DoAll(u, last) == DoAll(Do(u, last[0]), last[1..]);
      }
    }
  }

  /** An attempt gets as far as its `k`-th effect unless it raises before. */
  predicate Gets(cut: Option<nat>, k: nat) { cut == None || cut.value >= k }

  /** What an attempt leaves outside the collections, and in them if it is whole. */
  predicate Leaves(w: Work, event: Event, m: Message, cut: Option<nat>, r: Work) {
    match event
    case OnMessage(fireAt) =>
      && r.timers == (if !w.kept.window && Gets(cut, 3) then {fireAt} else w.timers)
      && r.notifications == (if !w.kept.window && Gets(cut, 1) then w.notifications + [[m]] else w.notifications)
      && (cut == None ==> r.kept == Kept(true, if w.kept.window then Trim(w.kept.pending + [m]) else w.kept.pending))
    case OnTimer(_) =>
      && r.timers == w.timers
      && r.notifications
         == (if w.kept.pending != [] && Gets(cut, 1) then w.notifications + [w.kept.pending] else w.notifications)
      && (cut == None ==> r.kept == NOTHING)
    case OnExcise =>
      && r.timers == (if Gets(cut, 3) then {} else w.timers)
      && r.notifications == w.notifications
      && (cut == None ==> r.kept == NOTHING)
  }

  lemma MessageLeaves(w: Work, fireAt: nat, m: Message, cut: Option<nat>)
    ensures Leaves(w, OnMessage(fireAt), m, cut, Attempted(w, OnMessage(fireAt), m, cut))
  {
    DoAllUnfolds(w, Performed(Effects(OnMessage(fireAt), m, w.kept), cut));
  }

  lemma TimerLeaves(w: Work, time: nat, m: Message, cut: Option<nat>)
    ensures Leaves(w, OnTimer(time), m, cut, Attempted(w, OnTimer(time), m, cut))
  {
    DoAllUnfolds(w, Performed(Effects(OnTimer(time), m, w.kept), cut));
  }

  lemma ExciseLeaves(w: Work, m: Message, cut: Option<nat>)
    ensures Leaves(w, OnExcise, m, cut, Attempted(w, OnExcise, m, cut))
  {
    DoAllUnfolds(w, Performed(Effects(OnExcise, m, w.kept), cut));
  }

  lemma AttemptedIs(w: Work, event: Event, m: Message, cut: Option<nat>)
    ensures Leaves(w, event, m, cut, Attempted(w, event, m, cut))
  {
    match event
    case OnMessage(fireAt) => MessageLeaves(w, fireAt, m, cut);
    case OnTimer(time) => TimerLeaves(w, time, m, cut);
    case OnExcise => ExciseLeaves(w, m, cut);
  }

  /** Only a success changes the collections or counts as processed; the effects of a failure outside them stand. */
  lemma OnlySuccessCommits(s: State, a: Attempt)
    ensures var t, w := Step(s, a), Attempted(s.work, a.event, s.next, Cut(a.outcome));
            && t.work.notifications == w.notifications
            && (a.outcome.Success? ==> t.work.kept == w.kept)
            && (!a.outcome.Success? ==> t.work.kept == s.work.kept && t.done == s.done && t.pushed == s.pushed)
            && (a.outcome.Success? && a.event.OnMessage? ==> t.done == s.done + {s.next} && t.next == s.next + 1)
            && (a.outcome.Retry? ==> t.next == s.next && t.work.timers == w.timers)
  {
  }

  // ------------------------------------------------------------------- safety

  /** A backlog sits in an open window, and an open window has something coming that will close it. */
  predicate Safe(s: State) {
    (s.work.kept.pending != [] ==> s.work.kept.window) &&
    (s.work.kept.window ==> s.work.timers != {} || s.exciseRetrying)
  }

  /** Giving up on this attempt takes away the last thing that would close the window. */
  predicate Strands(s: State, a: Attempt) {
    s.work.kept.window && a.outcome.GiveUp? &&
    match a.event
    case OnMessage(_) => false
    case OnTimer(time) => s.work.timers <= {time} && !s.exciseRetrying
    case OnExcise => a.outcome.cut >= 3 || s.work.timers == {}
  }

  /** From a safe state, an attempt leads out of safety exactly when it strands the window. */
  lemma StepStaysSafeIff(s: State, a: Attempt)
    requires Safe(s)
    ensures Safe(Step(s, a)) <==> !Strands(s, a)
  {
    AttemptedIs(s.work, a.event, s.next, Cut(a.outcome));
    if a.event.OnTimer? {
      assert s.work.timers <= {a.event.time} <==> s.work.timers - {a.event.time} == {};
    }
  }

  predicate NeverStrands(s: State, attempts: seq<Attempt>)
    decreases |attempts|
  {
    attempts == [] || (!Strands(s, attempts[0]) && NeverStrands(Step(s, attempts[0]), attempts[1..]))
  }

  /** Safety at every point of a run, and so for every prefix of it. */
  ghost predicate AlwaysSafe(s: State, attempts: seq<Attempt>) {
    forall n | 0 <= n <= |attempts| :: Safe(Run(s, attempts[..n]))
  }

  lemma RunUnfolds(s: State, attempts: seq<Attempt>, n: nat)
    requires n < |attempts|
    ensures Run(s, attempts[..n + 1]) == Run(Step(s, attempts[0]), attempts[1..][..n])
    ensures Run(s, attempts[..0]) == s
  {
    assert attempts[..n + 1][1..] == attempts[1..][..n];
  }

  /** A run is safe throughout exactly when none of its attempts strands the window. */
  lemma {:induction false} RunIsSafeIff(s: State, attempts: seq<Attempt>)
    requires Safe(s)
    ensures AlwaysSafe(s, attempts) <==> NeverStrands(s, attempts)
    decreases |attempts|
  {
    assert Run(s, attempts[..0]) == s;
    if attempts != [] {
      var t, rest := Step(s, attempts[0]), attempts[1..];
      StepStaysSafeIff(s, attempts[0]);
      forall n | 0 <= n < |attempts|
        ensures Run(s, attempts[..n + 1]) == Run(t, rest[..n])
      {
        RunUnfolds(s, attempts, n);
      }
      assert Run(t, rest[..0]) == t;
      if AlwaysSafe(s, attempts) {
        assert Safe(Run(s, attempts[..0 + 1]));
        forall n | 0 <= n <= |rest|
          ensures Safe(Run(t, rest[..n]))
        {
          assert Safe(Run(s, attempts[..n + 1]));
        }
      }
      if Safe(t) {
        RunIsSafeIff(t, rest);
        if AlwaysSafe(t, rest) {
          forall n | 0 <= n <= |attempts|
            ensures Safe(Run(s, attempts[..n]))
          {
            if n > 0 {
              assert Safe(Run(t, rest[..n - 1]));
            }
          }
        }
      }
    }
  }

  predicate Persistent(attempts: seq<Attempt>) {
    forall a | a in attempts :: a.outcome.GiveUp? ==> a.event.OnMessage?
  }

  lemma {:induction false} PersistentNeverStrands(s: State, attempts: seq<Attempt>)
    requires Persistent(attempts)
    ensures NeverStrands(s, attempts)
    decreases |attempts|
  {
    if attempts != [] {
      PersistentNeverStrands(Step(s, attempts[0]), attempts[1..]);
    }
  }

  /** As long as timers and excises are retried until they succeed, every reachable state is safe. */
  lemma SafeWhileRetried(attempts: seq<Attempt>)
    requires Persistent(attempts)
    ensures AlwaysSafe(START, attempts)
  {
    PersistentNeverStrands(START, attempts);
    RunIsSafeIff(START, attempts);
  }

  /** A timer that is given up once strands the window: the next message waits with nothing to flush it. */
  lemma GivingUpCanStrand()
    ensures var s := Run(START, [
                Attempt(OnMessage(300), Success), Attempt(OnTimer(300), GiveUp(0)), Attempt(OnMessage(400), Success)]);
            !Safe(s) && s.work.kept == Kept(true, [1]) && s.work.timers == {}
  {
    var a, b, c := Attempt(OnMessage(300), Success), Attempt(OnTimer(300), GiveUp(0)), Attempt(OnMessage(400), Success);
    var s1 := Step(START, a);
    AttemptedIs(START.work, a.event, 0, Cut(a.outcome));
    var s2 := Step(s1, b);
    AttemptedIs(s1.work, b.event, 1, Cut(b.outcome));
    var s3 := Step(s2, c);
    AttemptedIs(s2.work, c.event, 1, Cut(c.outcome));
    assert [a, b, c][1..] == [b, c] && [b, c][1..] == [c] && [c][1..] == [];
    assert Run(s3, []) == s3;
    assert Run(s2, [c]) == Run(s3, []);
    assert Run(s1, [b, c]) == Run(s2, [c]);
  }

  /** A stranded window stays open: its messages pile up and nobody is ever notified of them. */
  lemma {:induction false} StrandedMeansSilence(s: State, attempts: seq<Attempt>)
    requires s.work.kept.window && s.work.timers == {} && !s.exciseRetrying
    requires forall a | a in attempts :: a.event.OnMessage?
    ensures var t := Run(s, attempts);
            t.work.kept.window && t.work.timers == {} && !t.exciseRetrying &&
            t.work.notifications == s.work.notifications && s.pushed <= t.pushed
    decreases |attempts|
  {
    if attempts != [] {
      AttemptedIs(s.work, attempts[0].event, s.next, Cut(attempts[0].outcome));
      StrandedMeansSilence(Step(s, attempts[0]), attempts[1..]);
    }
  }

  lemma {:induction false} RunKeepsOneTimer(s: State, attempts: seq<Attempt>)
    requires |s.work.timers| <= 1
    ensures |Run(s, attempts).work.timers| <= 1
    decreases |attempts|
  {
    if attempts != [] {
      var a := attempts[0];
      AttemptedIs(s.work, a.event, s.next, Cut(a.outcome));
      if a.event.OnTimer? && a.event.time in s.work.timers {
        assert |s.work.timers - {a.event.time}| == |s.work.timers| - 1;
      } else if a.event.OnTimer? {
        assert s.work.timers - {a.event.time} == s.work.timers;
      }
      RunKeepsOneTimer(Step(s, a), attempts[1..]);
    }
  }

  /** `clear_and_schedule` does not pile up timers, however often an attempt is repeated. */
  lemma NeverTwoTimers(attempts: seq<Attempt>)
    ensures |Run(START, attempts).work.timers| <= 1
  {
    RunKeepsOneTimer(START, attempts);
  }

  // ------------------------------------------------------------- conservation

  predicate Notified(s: State, m: Message) {
    exists i :: 0 <= i < |s.work.notifications| && m in s.work.notifications[i]
  }

  predicate InSome(windows: seq<seq<Message>>, m: Message) {
    exists i :: 0 <= i < |windows| && m in windows[i]
  }

  /** The messages of a window that its last `CAPACITY` ones pushed out. */
  function Overflow(window: seq<Message>): seq<Message> {
    if |window| <= CAPACITY then [] else window[..|window| - CAPACITY]
  }

  predicate Flushed(s: State, window: seq<Message>) {
    Trim(window) == [] || Trim(window) in s.work.notifications
  }

  predicate Books(s: State) {
    s.work.kept.pending == Trim(s.pushed) &&
    (!s.work.kept.window ==> s.pushed == []) &&
    (forall w | w in s.flushed :: Flushed(s, w)) &&
    (forall m | m in s.done :: Notified(s, m) || m in s.pushed || InSome(s.flushed, m) || InSome(s.excised, m))
  }

  lemma TrimTwice(s: seq<Message>, m: Message)
    ensures Trim(Trim(s) + [m]) == Trim(s + [m])
  {
    if |s| > CAPACITY {
      assert Trim(s) + [m] == (s + [m])[|s| - CAPACITY..];
    }
  }

  lemma InSomeGrows(windows: seq<seq<Message>>, w: seq<Message>, m: Message)
    ensures InSome(windows + [w], m) <==> InSome(windows, m) || m in w
  {
    var all := windows + [w];
    if InSome(windows, m) {
      var i :| 0 <= i < |windows| && m in windows[i];
      assert m in all[i];
    }
    if m in w {
      assert m in all[|windows|];
    }
  }

  /** History only grows: no step takes back a notification, and windows stay closed. */
  lemma HistoryGrows(s: State, a: Attempt)
    ensures var t := Step(s, a);
            s.work.notifications <= t.work.notifications && s.flushed <= t.flushed && s.excised <= t.excised &&
            s.done <= t.done
    ensures forall m | Notified(s, m) :: Notified(Step(s, a), m)
    ensures forall m | InSome(s.flushed, m) :: InSome(Step(s, a).flushed, m)
    ensures forall m | InSome(s.excised, m) :: InSome(Step(s, a).excised, m)
  {
    AttemptedIs(s.work, a.event, s.next, Cut(a.outcome));
    var t := Step(s, a);
    forall m | Notified(s, m)
      ensures Notified(t, m)
    {
      var i :| 0 <= i < |s.work.notifications| && m in s.work.notifications[i];
      assert m in t.work.notifications[i];
    }
    forall m | InSome(s.flushed, m)
      ensures InSome(t.flushed, m)
    {
      InSomeGrows(s.flushed, s.pushed, m);
    }
    forall m | InSome(s.excised, m)
      ensures InSome(t.excised, m)
    {
      InSomeGrows(s.excised, s.pushed, m);
    }
  }

  lemma MessageKeepsBooks(s: State, a: Attempt)
    requires Books(s) && a.event.OnMessage?
    ensures Books(Step(s, a))
  {
    AttemptedIs(s.work, a.event, s.next, Cut(a.outcome));
    HistoryGrows(s, a);
    TrimTwice(s.pushed, s.next);
    var t := Step(s, a);
    if a.outcome.Success? && !s.work.kept.window {
      assert t.work.notifications == s.work.notifications + [[s.next]];
      assert s.next in t.work.notifications[|s.work.notifications|];
      assert Notified(t, s.next);
    }
  }

  lemma ClosingKeepsBooks(s: State, a: Attempt)
    requires Books(s) && !a.event.OnMessage?
    ensures Books(Step(s, a))
  {
    AttemptedIs(s.work, a.event, s.next, Cut(a.outcome));
    HistoryGrows(s, a);
    var t := Step(s, a);
    if a.outcome.Success? {
      forall m | m in s.pushed
        ensures InSome(t.flushed, m) || InSome(t.excised, m)
      {
        InSomeGrows(s.flushed, s.pushed, m);
        InSomeGrows(s.excised, s.pushed, m);
      }
      if a.event.OnTimer? && Trim(s.pushed) != [] {
        assert t.work.notifications == s.work.notifications + [Trim(s.pushed)];
      }
    }
  }

  lemma {:induction false} RunKeepsBooks(s: State, attempts: seq<Attempt>)
    requires Books(s)
    ensures Books(Run(s, attempts))
    decreases |attempts|
  {
    if attempts != [] {
      if attempts[0].event.OnMessage? {
        MessageKeepsBooks(s, attempts[0]);
      } else {
        ClosingKeepsBooks(s, attempts[0]);
      }
      RunKeepsBooks(Step(s, attempts[0]), attempts[1..]);
    }
  }

  lemma TrimOrOverflow(window: seq<Message>, m: Message)
    requires m in window
    ensures m in Overflow(window) || m in Trim(window)
    ensures Overflow(window) + Trim(window) == window
  {
    assert Overflow(window) + Trim(window) == window;
  }

  predicate Overflowed(s: State, m: Message) {
    m in Overflow(s.pushed) || exists i :: 0 <= i < |s.flushed| && m in Overflow(s.flushed[i])
  }

  /**
   In every run, with any failures, a message whose attempt succeeded has been notified,
   is in the backlog, was pushed out of its window by `CAPACITY` later ones, or was in
   a window that an excise removed. The backlog is the last messages of the current window.
   */
  lemma NothingIsForgotten(attempts: seq<Attempt>)
    ensures var s := Run(START, attempts);
            s.work.kept.pending == (if |s.pushed| <= 100 then s.pushed else s.pushed[|s.pushed| - 100..]) &&
            forall m | m in s.done ::
              Notified(s, m) || m in s.work.kept.pending || Overflowed(s, m) || InSome(s.excised, m)
  {
    RunKeepsBooks(START, attempts);
    var s := Run(START, attempts);
    forall m | m in s.done
      ensures Notified(s, m) || m in s.work.kept.pending || Overflowed(s, m) || InSome(s.excised, m)
    {
      if m in s.pushed {
        TrimOrOverflow(s.pushed, m);
      } else if InSome(s.flushed, m) {
        var i :| 0 <= i < |s.flushed| && m in s.flushed[i];
        var w := s.flushed[i];
        TrimOrOverflow(w, m);
        if m in Trim(w) {
          assert Flushed(s, w);
          var j :| 0 <= j < |s.work.notifications| && s.work.notifications[j] == Trim(w);
        }
      }
    }
  }

  lemma {:induction false} NoExciseRemovesNothing(s: State, attempts: seq<Attempt>)
    requires forall a | a in attempts :: !a.event.OnExcise?
    ensures Run(s, attempts).excised == s.excised
    decreases |attempts|
  {
    if attempts != [] {
      NoExciseRemovesNothing(Step(s, attempts[0]), attempts[1..]);
    }
  }

  /** Without an excise, capacity is the only way to lose a message. */
  lemma OnlyCapacityLoses(attempts: seq<Attempt>)
    requires forall a | a in attempts :: !a.event.OnExcise?
    ensures var s := Run(START, attempts);
            forall m | m in s.done :: Notified(s, m) || m in s.work.kept.pending || Overflowed(s, m)
  {
    NothingIsForgotten(attempts);
    NoExciseRemovesNothing(START, attempts);
  }
}
