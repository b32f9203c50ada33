/**
 Timer times of ext/prosody/src/handler/context/mod.rs: a Ruby Time, which is an
 exact rational number of seconds, is rounded to the unsigned 32-bit seconds in
 which timers are kept.
 */
module TimerRounding {

  const ROUNDING_THRESHOLD: nat := 500_000_000
  const NANOS: nat := 1_000_000_000
  const MAX_SECONDS: nat := 0xFFFF_FFFF

  type Seconds = s: nat | s <= MAX_SECONDS

  /** `NotAnInteger64` is the failed conversion of `to_i` itself. */
  datatype TimeError = NotAnInteger64 | OutsideRange | RoundingOverflow

  datatype Converted = Ok(seconds: Seconds) | Err(error: TimeError)

  function ToI(time: real): int { time.Floor }

  /** Nanoseconds of the second, truncated. */
  function Nsec(time: real): nat {
    ((time - ToI(time) as real) * 1_000_000_000.0).Floor
  }

  /** `time_to_compact_datetime`. */
  function ToCompact(time: real): Converted {
    var seconds := ToI(time);
    if !(-0x8000_0000_0000_0000 <= seconds < 0x8000_0000_0000_0000) then Err(NotAnInteger64)
    else if !(0 <= seconds <= MAX_SECONDS) then Err(OutsideRange)
    else if Nsec(time) < ROUNDING_THRESHOLD then Ok(seconds)
    else if seconds + 1 <= MAX_SECONDS then Ok(seconds + 1)
    else Err(RoundingOverflow)
  }

  /** `compact_datetime_to_time`. */
  function FromCompact(seconds: Seconds): real { seconds as real }

  /** The nanoseconds decide the same as the exact fraction, although they are truncated. */
  lemma ThresholdIsHalf(time: real)
    ensures 0 <= Nsec(time) < NANOS
    ensures Nsec(time) >= ROUNDING_THRESHOLD <==> time - ToI(time) as real >= 0.5
  {
    var fraction := time - ToI(time) as real;
    assert 0.0 <= fraction < 1.0;
    var scaled := fraction * 1_000_000_000.0;
    assert scaled.Floor as real <= scaled < scaled.Floor as real + 1.0;
  }

  /** Conversion succeeds exactly on the times whose nearest second, ties up, fits, from the epoch on. */
  lemma AcceptedIff(time: real)
    ensures ToCompact(time).Ok? <==> 0.0 <= time < MAX_SECONDS as real + 0.5
    ensures ToCompact(time) == Err(RoundingOverflow)
            <==> MAX_SECONDS as real + 0.5 <= time < MAX_SECONDS as real + 1.0
    ensures ToCompact(time) == Err(NotAnInteger64)
            <==> time < -9223372036854775808.0 || 9223372036854775808.0 <= time
    ensures MAX_SECONDS as real == 4294967295.0
  {
  }

  /** The result is the one second within half a second of the time, the later one of a tie. */
  lemma IsNearest(time: real, s: Seconds)
    requires 0.0 <= time
    ensures ToCompact(time) == Ok(s) <==> s as real - 0.5 <= time < s as real + 0.5
  {
  }

  lemma IsMonotone(a: real, b: real)
    requires a <= b && ToCompact(a).Ok? && ToCompact(b).Ok?
    ensures ToCompact(a).seconds <= ToCompact(b).seconds
  {
  }

  lemma WholeSecondsRoundTrip(s: Seconds)
    ensures ToCompact(FromCompact(s)) == Ok(s)
  {
  }

  /** Two accepted times name the same timer exactly when the same second is nearest to both. */
  lemma SameTimerIff(a: real, b: real)
    requires ToCompact(a).Ok? && ToCompact(b).Ok?
    ensures ToCompact(a) == ToCompact(b) <==> (a + 0.5).Floor == (b + 0.5).Floor
  {
    AcceptedIff(a);
    AcceptedIff(b);
    IsNearest(a, ToCompact(a).seconds);
    IsNearest(b, ToCompact(b).seconds);
    assert (a + 0.5).Floor == ToCompact(a).seconds by {
      FloorIs(a + 0.5, ToCompact(a).seconds);
    }
    assert (b + 0.5).Floor == ToCompact(b).seconds by {
      FloorIs(b + 0.5, ToCompact(b).seconds);
    }
  }

  lemma FloorIs(x: real, n: int)
    requires n as real <= x < n as real + 1.0
    ensures x.Floor == n
  {
  }

  // ------------------------------------------------------------- the timer calls

  function Scheduled(timers: set<Seconds>): set<real> {
    set s | s in timers :: FromCompact(s)
  }

  /** The timers of one key behind an event context. */
  class TimerContext {
    var timers: set<Seconds>

    constructor ()
      ensures timers == {}
    {
      timers := {};
    }

    method Schedule(time: real) returns (result: Converted)
      modifies this
      ensures result == ToCompact(time)
      ensures timers == old(timers) + if result.Ok? then {result.seconds} else {}
      ensures result.Ok? ==> exists listed: real ::
                listed in Scheduled(timers) && listed - 0.5 <= time < listed + 0.5
    {
      result := ToCompact(time);
      if result.Ok? {
        ScheduledIsListed(timers, time);
        timers := timers + {result.seconds};
      }
    }

    method Unschedule(time: real) returns (result: Converted)
      modifies this
      ensures result == ToCompact(time)
      ensures timers == old(timers) - if result.Ok? then {result.seconds} else {}
      ensures time in Scheduled(old(timers)) ==> Scheduled(timers) == Scheduled(old(timers)) - {time}
    {
      result := ToCompact(time);
      if time in Scheduled(timers) {
        UnscheduleNamesExactly(timers, time);
      }
      if result.Ok? {
        timers := timers - {result.seconds};
      }
    }

    /** Afterwards the time is listed, as its nearest second and alone; one that does not convert clears nothing. */
    method ClearAndSchedule(time: real) returns (result: Converted)
      modifies this
      ensures result == ToCompact(time)
      ensures timers == if result.Ok? then {result.seconds} else old(timers)
      ensures result.Ok? ==> exists listed: real ::
                Scheduled(timers) == {listed} && listed - 0.5 <= time < listed + 0.5
      ensures result.Err? ==> Scheduled(timers) == Scheduled(old(timers))
    {
      result := ToCompact(time);
      if result.Ok? {
        IsNearestListed(time);
        timers := {result.seconds};
      }
    }

    method ClearScheduled()
      modifies this
      ensures timers == {}
    {
      timers := {};
    }

    /** Every listed time names its own timer, and every timer is named. */
    method ScheduledTimes() returns (times: set<real>)
      ensures times == Scheduled(timers)
      ensures forall time | time in times :: ToCompact(time).Ok? && ToCompact(time).seconds in timers
      ensures forall s | s in timers :: exists time :: time in times && ToCompact(time) == Ok(s)
    {
      forall s | s in timers
        ensures ToCompact(FromCompact(s)) == Ok(s) && FromCompact(s) in Scheduled(timers)
      {
        WholeSecondsRoundTrip(s);
      }
      times := set s | s in timers :: FromCompact(s);
    }
  }

  /** Unscheduling a listed time takes exactly that time off the list. */
  lemma UnscheduleNamesExactly(timers: set<Seconds>, time: real)
    requires time in Scheduled(timers)
    ensures ToCompact(time).Ok?
    ensures Scheduled(timers - {ToCompact(time).seconds}) == Scheduled(timers) - {time}
  {
    var s :| s in timers && FromCompact(s) == time;
    WholeSecondsRoundTrip(s);
    forall other | other in Scheduled(timers) - {time}
      ensures other in Scheduled(timers - {s})
    {
      var r :| r in timers && FromCompact(r) == other;
      assert r in timers - {s};
    }
  }

  /** Alone among the timers, an accepted time is listed alone, within half a second. */
  lemma IsNearestListed(time: real)
    requires ToCompact(time).Ok?
    ensures exists listed: real ::
              Scheduled({ToCompact(time).seconds}) == {listed} && listed - 0.5 <= time < listed + 0.5
  {
    AcceptedIff(time);
    var s := ToCompact(time).seconds;
    IsNearest(time, s);
    assert Scheduled({s}) == {FromCompact(s)};
  }

  /** A scheduled time is listed as its nearest second, within half a second of it. */
  lemma ScheduledIsListed(timers: set<Seconds>, time: real)
    requires ToCompact(time).Ok?
    ensures exists listed: real ::
              listed in Scheduled(timers + {ToCompact(time).seconds}) && listed - 0.5 <= time < listed + 0.5
  {
    AcceptedIff(time);
    var s := ToCompact(time).seconds;
    IsNearest(time, s);
    assert s in timers + {s};
    assert FromCompact(s) in Scheduled(timers + {s});
  }
}
