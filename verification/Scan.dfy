/**
 Chunked traversal: the native cursor of ext/prosody/src/handler/state/scan.rs and
 the loop of `State::Scanning#traverse` (lib/prosody/state.rb) over it.
 */
module Scan {
  import opened Options

  const SCAN_READY_CHUNK_SIZE: nat := 256

  /** How many items are ready when a chunk is asked for, or that the read fails. */
  datatype Pull = Ready(count: nat) | Fails

  datatype ChunkResult<T> = Chunk(items: seq<T>) | End | ReadError

  /** What the consumer's block does with an item. */
  datatype Verdict = Continue | Break | Raise

  datatype Outcome = Exhausted | Broken | Raised | ReadFailed | OpenFailed

  datatype Event<T> = Yielded(item: T) | Closed

  function Min(a: nat, b: nat): nat { if a <= b then a else b }

  function ChunkSize(remaining: nat, pulls: seq<Pull>): nat {
    Min(remaining, if pulls != [] && pulls[0].Ready? then Min(pulls[0].count, SCAN_READY_CHUNK_SIZE)
                   else SCAN_READY_CHUNK_SIZE)
  }

  /** The next chunk and the items left behind it. */
  function Pulled<T>(remaining: seq<T>, pulls: seq<Pull>): (ChunkResult<T>, seq<T>) {
    if pulls != [] && pulls[0].Fails? then (ReadError, remaining)
    else if remaining == [] then (End, remaining)
    else
      var n := ChunkSize(|remaining|, pulls);
      (Chunk(remaining[..n]), remaining[n..])
  }

  function Rest<T>(s: seq<T>): seq<T> { if s == [] then [] else s[1..] }

  /** The items that the cursor serves in all, and whether a read fails first. */
  function Served<T>(remaining: seq<T>, pulls: seq<Pull>): (seq<T>, bool)
    decreases |remaining| + |pulls|
  {
    if pulls != [] && pulls[0].Fails? then ([], true)
    else if remaining == [] then ([], false)
    else
      var n := ChunkSize(|remaining|, pulls);
      var (items, failed) := Served(remaining[n..], Rest(pulls));
      (remaining[..n] + items, failed)
  }

  /** However the items are chunked, they are served in order; without a failed read, all of them. */
  lemma {:induction false} ChunkingIsInvisible<T>(remaining: seq<T>, pulls: seq<Pull>)
    ensures Served(remaining, pulls).0 <= remaining
    ensures Served(remaining, pulls).1 ==> Fails in pulls
    ensures Fails !in pulls ==> Served(remaining, pulls) == (remaining, false)
    decreases |remaining| + |pulls|
  {
    if remaining != [] && !(pulls != [] && pulls[0].Fails?) {
      var n := ChunkSize(|remaining|, pulls);
      ChunkingIsInvisible(remaining[n..], Rest(pulls));
      assert remaining == remaining[..n] + remaining[n..];
      assert pulls != [] ==> pulls == [pulls[0]] + pulls[1..];
    }
  }

  ghost predicate AllGo(judge: nat -> Verdict, from: nat, to: nat) {
    forall j :: from <= j < to ==> judge(j) == Continue
  }

  /** How many of the available items a consumer sees that judges its `i`-th item by `judge(i)`. */
  function Seen(available: nat, judge: nat -> Verdict, i: nat): (seen: nat)
    requires i <= available
    ensures i <= seen <= available
    decreases available - i
  {
    if i == available then available
    else if judge(i) != Continue then i + 1
    else Seen(available, judge, i + 1)
  }

  /** The traversal ends with the first item whose verdict is not to continue. */
  lemma {:induction false} SeenEndsAtFirstRefusal(available: nat, judge: nat -> Verdict, i: nat, k: nat)
    requires i <= k < available && judge(k) != Continue && AllGo(judge, i, k)
    ensures Seen(available, judge, i) == k + 1
    decreases k - i
  {
    if i < k {
      SeenEndsAtFirstRefusal(available, judge, i + 1, k);
    }
  }

  lemma {:induction false} SeenAllWithoutRefusal(available: nat, judge: nat -> Verdict, i: nat)
    requires i <= available && AllGo(judge, i, available)
    ensures Seen(available, judge, i) == available
    decreases available - i
  {
    if i < available {
      SeenAllWithoutRefusal(available, judge, i + 1);
    }
  }

  /** The last verdict, or how the cursor ended if every verdict was to continue. */
  function OutcomeOf(seen: nat, judge: nat -> Verdict, failed: bool): Outcome {
    if seen > 0 && judge(seen - 1) == Break then Broken
    else if seen > 0 && judge(seen - 1) == Raise then Raised
    else if failed then ReadFailed
    else Exhausted
  }

  function Yields<T>(items: seq<T>): seq<Event<T>> {
    if items == [] then [] else Yields(items[..|items| - 1]) + [Yielded(items[|items| - 1])]
  }

  class Cursor<T> {
    var remaining: seq<T>
    var pulls: seq<Pull>
    var log: seq<Event<T>>

    constructor (items: seq<T>, pulls: seq<Pull>)
      ensures remaining == items && this.pulls == pulls && log == []
    {
      remaining, this.pulls, log := items, pulls, [];
    }

    /** An Array of at most 256 items, perhaps empty, or nil behind the end. */
    method NextChunk() returns (chunk: ChunkResult<T>)
      modifies this`remaining, this`pulls
      ensures pulls == Rest(old(pulls))
      ensures (chunk, remaining) == Pulled(old(remaining), old(pulls))
      ensures chunk.ReadError? <==> old(pulls) != [] && old(pulls)[0].Fails?
      ensures !chunk.ReadError? ==> (chunk.End? <==> old(remaining) == [])
      ensures chunk.Chunk? ==> old(remaining) == chunk.items + remaining && |chunk.items| <= 256
      ensures chunk.Chunk? && old(pulls) != [] && remaining != [] ==>
                |chunk.items| == if old(pulls)[0].count <= 256 then old(pulls)[0].count else 256
      ensures !chunk.Chunk? ==> remaining == old(remaining)
    {
      var ready := pulls;
      pulls := Rest(pulls);
      if ready != [] && ready[0].Fails? {
        return ReadError;
      }
      if remaining == [] {
        return End;
      }
      var n := ChunkSize(|remaining|, ready);
      chunk := Chunk(remaining[..n]);
      remaining := remaining[n..];
    }

    method Close()
      modifies this`log
      ensures log == old(log) + [Closed]
    {
      log := log + [Closed];
    }
  }

  /** `chunk.each(&block)`: items go to the consumer until one is refused. */
  method YieldChunk<T>(scan: Cursor<T>, chunk: seq<T>, start: seq<T>, judge: nat -> Verdict, ghost before: seq<Event<T>>)
    returns (yielded: seq<T>, verdict: Verdict)
    requires scan.log == before + Yields(start)
    modifies scan`log
    ensures start <= yielded <= start + chunk && scan.log == before + Yields(yielded)
    ensures verdict == Continue ==> yielded == start + chunk && AllGo(judge, |start|, |yielded|)
    ensures verdict != Continue ==>
              |start| < |yielded| && judge(|yielded| - 1) == verdict && AllGo(judge, |start|, |yielded| - 1)
  {
    yielded, verdict := start, Continue;
    for i := 0 to |chunk|
      invariant yielded == start + chunk[..i] && scan.log == before + Yields(yielded)
      invariant verdict == Continue && AllGo(judge, |start|, |yielded|)
    {
      assert (yielded + [chunk[i]])[..|yielded|] == yielded;
      scan.log := scan.log + [Yielded(chunk[i])];
      yielded := yielded + [chunk[i]];
      assert yielded == start + chunk[..i + 1];
      assert yielded <= start + chunk;
      verdict := judge(|yielded| - 1);
      if verdict != Continue {
        return;
      }
    }
  }

  /** Nothing has been refused, and the cursor still holds what the consumer has not seen. */
  ghost predicate UnderWay<T>(items: seq<T>, failed: bool, yielded: seq<T>, remaining: seq<T>, pulls: seq<Pull>,
                              judge: nat -> Verdict)
  {
    && yielded + Served(remaining, pulls).0 == items && Served(remaining, pulls).1 == failed
    && AllGo(judge, 0, |yielded|)
  }

  lemma ServedFirstChunk<T>(remaining: seq<T>, pulls: seq<Pull>, chunk: seq<T>, rest: seq<T>)
    requires Pulled(remaining, pulls) == (Chunk(chunk), rest)
    ensures Served(remaining, pulls) == (chunk + Served(rest, Rest(pulls)).0, Served(rest, Rest(pulls)).1)
    ensures |rest| + |Rest(pulls)| < |remaining| + |pulls|
  {
  }

  lemma ChunkComesNext<T>(items: seq<T>, failed: bool, yielded: seq<T>, remaining: seq<T>, pulls: seq<Pull>,
                          judge: nat -> Verdict, chunk: seq<T>, rest: seq<T>)
    requires UnderWay(items, failed, yielded, remaining, pulls, judge)
    requires Pulled(remaining, pulls) == (Chunk(chunk), rest)
    ensures yielded + chunk <= items && |rest| + |Rest(pulls)| < |remaining| + |pulls|
    ensures AllGo(judge, 0, |yielded| + |chunk|) ==>
              UnderWay(items, failed, yielded + chunk, rest, Rest(pulls), judge)
  {
    ServedFirstChunk(remaining, pulls, chunk, rest);
    var later := Served(rest, Rest(pulls)).0;
    assert yielded + (chunk + later) == yielded + chunk + later;
  }

  /** What the traversal has yielded and how it ended. */
  ghost predicate EndedWell<T>(items: seq<T>, failed: bool, yielded: seq<T>, outcome: Outcome, judge: nat -> Verdict) {
    && yielded == items[..Seen(|items|, judge, 0)]
    && outcome == OutcomeOf(|yielded|, judge, failed)
  }

  lemma NothingComesNext<T>(items: seq<T>, failed: bool, yielded: seq<T>, remaining: seq<T>, pulls: seq<Pull>,
                            judge: nat -> Verdict)
    requires UnderWay(items, failed, yielded, remaining, pulls, judge)
    requires !Pulled(remaining, pulls).0.Chunk?
    ensures EndedWell(items, failed, yielded, if Pulled(remaining, pulls).0.End? then Exhausted else ReadFailed, judge)
  {
    assert yielded == items;
    SeenAllWithoutRefusal(|items|, judge, 0);
  }

  lemma RefusalEnds<T>(items: seq<T>, failed: bool, yielded: seq<T>, judge: nat -> Verdict)
    requires 0 < |yielded| && yielded <= items
    requires AllGo(judge, 0, |yielded| - 1) && judge(|yielded| - 1) != Continue
    ensures EndedWell(items, failed, yielded, if judge(|yielded| - 1) == Break then Broken else Raised, judge)
  {
    SeenEndsAtFirstRefusal(|items|, judge, 0, |yielded| - 1);
  }

  /** One chunk of the loop of `traverse`; `None` when the loop goes on. */
  method DriveChunk<T>(scan: Cursor<T>, chunk: seq<T>, start: seq<T>, judge: nat -> Verdict,
                       ghost items: seq<T>, ghost failed: bool, ghost before: seq<Event<T>>)
    returns (yielded: seq<T>, outcome: Option<Outcome>)
    requires start + chunk <= items && AllGo(judge, 0, |start|) && scan.log == before + Yields(start)
    modifies scan`log
    ensures scan.log == before + Yields(yielded)
    ensures outcome == None ==> yielded == start + chunk && AllGo(judge, 0, |start| + |chunk|)
    ensures outcome.Some? ==> EndedWell(items, failed, yielded, outcome.value, judge)
  {
    var verdict;
    yielded, verdict := YieldChunk(scan, chunk, start, judge, before);
    if verdict == Continue {
      return yielded, None;
    }
    RefusalEnds(items, failed, yielded, judge);
    return yielded, Some(if verdict == Break then Broken else Raised);
  }

  /** The loop of `traverse` over an opened cursor. */
  method Drive<T>(scan: Cursor<T>, judge: nat -> Verdict) returns (yielded: seq<T>, outcome: Outcome)
    modifies scan
    ensures var (items, failed) := Served(old(scan.remaining), old(scan.pulls));
            EndedWell(items, failed, yielded, outcome, judge)
    ensures scan.log == old(scan.log) + Yields(yielded)
  {
    yielded := [];
    ghost var (items, failed) := Served(scan.remaining, scan.pulls);
    ghost var before := scan.log;
    while true
      modifies scan
      invariant scan.log == before + Yields(yielded)
      invariant UnderWay(items, failed, yielded, scan.remaining, scan.pulls, judge)
      decreases |scan.remaining| + |scan.pulls|
    {
      ghost var remaining, pulls := scan.remaining, scan.pulls;
      var next := scan.NextChunk();
      if !next.Chunk? {
        NothingComesNext(items, failed, yielded, remaining, pulls, judge);
        return yielded, if next.End? then Exhausted else ReadFailed;
      }
      ChunkComesNext(items, failed, yielded, remaining, pulls, judge, next.items, scan.remaining);
      var ended;
      yielded, ended := DriveChunk(scan, next.items, yielded, judge, items, failed, before);
      if ended.Some? {
        return yielded, ended.value;
      }
    }
  }

  /**
   `traverse`: every item of every chunk goes to the consumer, until it breaks or
   raises; the cursor is closed once, behind the last yield. An opener that raises
   leaves nothing to close.
   */
  method Traverse<T>(opener: Option<Cursor<T>>, judge: nat -> Verdict) returns (yielded: seq<T>, outcome: Outcome)
    modifies if opener.Some? then {opener.value} else {}
    ensures opener == None ==> yielded == [] && outcome == OpenFailed
    ensures opener.Some? ==>
              var (items, failed) := Served(old(opener.value.remaining), old(opener.value.pulls));
              && EndedWell(items, failed, yielded, outcome, judge)
              && opener.value.log == old(opener.value.log) + Yields(yielded) + [Closed]
    ensures outcome == Broken <==> yielded != [] && judge(|yielded| - 1) == Break
    ensures outcome == Outcome.Raised <==> yielded != [] && judge(|yielded| - 1) == Raise
    ensures opener.Some? && Fails !in old(opener.value.pulls) ==>
              EndedWell(old(opener.value.remaining), false, yielded, outcome, judge)
  {
    if opener == None {
      return [], OpenFailed;
    }
    ChunkingIsInvisible(opener.value.remaining, opener.value.pulls);
    yielded, outcome := Drive(opener.value, judge);
    opener.value.Close();
  }

  /** `traverse_values`: the same traversal, projected to the second part of each entry. */
  method TraverseValues<K, V>(opener: Option<Cursor<(K, V)>>, judge: nat -> Verdict)
    returns (values: seq<V>, outcome: Outcome)
    modifies if opener.Some? then {opener.value} else {}
    ensures opener == None ==> values == [] && outcome == OpenFailed
    ensures opener.Some? ==>
              var (items, failed) := Served(old(opener.value.remaining), old(opener.value.pulls));
              && |values| == Seen(|items|, judge, 0)
              && (forall i :: 0 <= i < |values| ==> values[i] == items[i].1)
              && outcome == OutcomeOf(|values|, judge, failed)
              && |opener.value.log| == |old(opener.value.log)| + |values| + 1
              && old(opener.value.log) <= opener.value.log && opener.value.log[|opener.value.log| - 1] == Closed
              && forall i :: 0 <= i < |values| ==> opener.value.log[|old(opener.value.log)| + i] == Yielded(items[i])
  {
    var entries;
    entries, outcome := Traverse(opener, judge);
    values := seq(|entries|, i requires 0 <= i < |entries| => entries[i].1);
    YieldsLength(entries);
  }

  lemma {:induction false} YieldsLength<T>(items: seq<T>)
    ensures |Yields(items)| == |items|
    ensures forall i :: 0 <= i < |items| ==> Yields(items)[i] == Yielded(items[i])
  {
    if items != [] {
      YieldsLength(items[..|items| - 1]);
    }
  }
}
