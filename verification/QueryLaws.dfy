/** Laws of the query keywords: duality of the directions, narrowing, and paging. */
module QueryLaws {
  import opened Options
  import opened Sequences
  import opened Keys
  import opened Query
  import opened QueryMeaning

  // ----------------------------------------------------------------- duality

  function Opposite(d: Direction): Direction { if d == Forward then Backward else Forward }

  /** The same edges, seen from the other end. */
  function SwapSides(k: Keywords): Keywords {
    k.(from := k.to, after := k.before, to := k.from, before := k.after)
  }

  /** A traversal with its edges swapped is the reverse of the opposite traversal. */
  lemma DirectionsAreDual(d: Direction, k: Keywords, keys: seq<Key>)
    requires Sorted(Forward, keys)
    ensures Unlimited(Opposite(d), k, keys) == Reverse(Unlimited(d, SwapSides(k), keys))
  {
    UnlimitedIsFilter(Opposite(d), k, keys);
    UnlimitedIsFilter(d, SwapSides(k), keys);
    ReverseTwice(keys);
    FilterSame(Walk(Opposite(d), keys), Passing(Opposite(d), k), Passing(d, SwapSides(k)));
    FilterReverse(Walk(d, keys), Passing(d, SwapSides(k)));
  }

  /** A descending range selects nothing, in either direction. */
  lemma DescendingRangeIsEmpty(d: Direction, k: Keywords, keys: seq<Key>, low: RubyValue, high: RubyValue, excl: bool)
    requires Sorted(Forward, keys)
    requires k.range == Some(RangeOf(low, high, excl)) && low != Nil && high != Nil
    requires Less(AsKey(high), AsKey(low))
    ensures Wanted(d, k, keys) == []
  {
    UnlimitedIsFilter(d, k, keys);
    forall x | x in Walk(d, keys)
      ensures !Passing(d, k)(x)
    {
      var l, h := AsKey(low), AsKey(high);
      Order(x, l);
      Order(h, x);
      if Less(h, l) && Less(l, x) {
        Transitive(h, l, x);
      }
    }
    FilterNone(Walk(d, keys), Passing(d, k));
  }

  // --------------------------------------------------------------- narrowing

  predicate Adds(old': Option<RubyValue>, new': Option<RubyValue>) { old'.Some? ==> new' == old' }

  /** `k'` has the keywords of `k` and perhaps more, the limit aside. */
  predicate Extends(k: Keywords, k': Keywords) {
    && Adds(k.from, k'.from) && Adds(k.after, k'.after) && Adds(k.to, k'.to) && Adds(k.before, k'.before)
    && Adds(k.range, k'.range) && Adds(k.prefix, k'.prefix)
  }

  lemma ExtensionFilters(d: Direction, k: Keywords, k': Keywords, keys: seq<Key>)
    requires Sorted(Forward, keys) && Extends(k, k')
    ensures Unlimited(d, k', keys) == Filter(Unlimited(d, k, keys), Passing(d, k'))
  {
    UnlimitedIsFilter(d, k, keys);
    UnlimitedIsFilter(d, k', keys);
    FilterAnd(Walk(d, keys), Passing(d, k), Passing(d, k'));
    FilterSame(Walk(d, keys), And(Passing(d, k), Passing(d, k')), Passing(d, k'));
  }

  /** Without a limit, keywords narrow and never widen. */
  lemma KeywordsNarrow(d: Direction, k: Keywords, k': Keywords, keys: seq<Key>)
    requires Sorted(Forward, keys) && Extends(k, k')
    ensures Subsequence(Unlimited(d, k', keys), Unlimited(d, k, keys))
  {
    ExtensionFilters(d, k, k', keys);
    FilterSubsequence(Unlimited(d, k, keys), Passing(d, k'));
  }

  /** Adding any keywords to a traversal without a limit narrows it, `limit:` among them. */
  lemma KeywordsAndLimitNarrow(d: Direction, k: Keywords, k': Keywords, keys: seq<Key>)
    requires Sorted(Forward, keys) && Extends(k, k') && k.limit == None
    ensures Subsequence(Wanted(d, k', keys), Wanted(d, k, keys))
  {
    var all' := Unlimited(d, k', keys);
    KeywordsNarrow(d, k, k', keys);
    match k'.limit
    case Some(Integer(n)) =>
      if n >= 0 {
        TakeSubsequence(all', n);
        SubsequenceTrans(Take(all', n), all', Unlimited(d, k, keys));
      }
    case _ =>
  }

  /** A limit cuts the traversal to a prefix in iteration order. */
  lemma LimitIsPrefix(d: Direction, k: Keywords, keys: seq<Key>, n: nat)
    requires k.limit == Some(Integer(n))
    ensures Wanted(d, k, keys) <= Unlimited(d, k, keys)
    ensures |Wanted(d, k, keys)| == if n <= |Unlimited(d, k, keys)| then n else |Unlimited(d, k, keys)|
  {
  }

  /** The items that a limit of `n` cuts off. */
  function CutOff<T>(s: seq<T>, n: nat): seq<T> { if n <= |s| then s[n..] else [] }

  lemma {:induction false} FilterShortens(s: seq<Key>, p: Key -> bool)
    ensures |Filter(s, p)| <= |s|
    ensures (exists x | x in s :: !p(x)) ==> |Filter(s, p)| < |s|
  {
    if s != [] {
      FilterShortens(s[1..], p);
      assert s == [s[0]] + s[1..];
    }
  }

  ghost predicate AllPass(s: seq<Key>, p: Key -> bool) { forall x | x in s :: p(x) }

  ghost predicate NonePass(s: seq<Key>, p: Key -> bool) { forall x | x in s :: !p(x) }

  lemma TakeOfFilterFits(head: seq<Key>, tail: seq<Key>, p: Key -> bool)
    requires AllPass(head, p) || NonePass(tail, p)
    ensures Subsequence(Take(Filter(head + tail, p), |head|), head)
  {
    FilterConcat(head, tail, p);
    if NonePass(tail, p) {
      FilterNone(tail, p);
      assert Filter(head + tail, p) == Filter(head, p);
      FilterShortens(head, p);
      FilterSubsequence(head, p);
    } else {
      FilterAll(head, p);
      assert Take(head + Filter(tail, p), |head|) == head;
      SubsequenceSelf(head);
    }
  }

  /** The first kept item behind the limit moves up into the limited selection. */
  lemma SpiltItem(head: seq<Key>, tail: seq<Key>, p: Key -> bool) returns (spilt: Key)
    requires !AllPass(head, p) && !NonePass(tail, p)
    ensures spilt in Take(Filter(head + tail, p), |head|) && spilt in tail
  {
    FilterConcat(head, tail, p);
    FilterShortens(head, p);
    var y :| y in tail && p(y);
    FilterKeeps(tail, p, y);
    spilt := Filter(tail, p)[0];
    FilterKeeps(tail, p, spilt);
    assert Filter(head + tail, p)[|Filter(head, p)|] == spilt;
    assert Take(Filter(head + tail, p), |head|)[|Filter(head, p)|] == spilt;
  }

  lemma TakeOfFilterSpills(head: seq<Key>, tail: seq<Key>, p: Key -> bool)
    requires forall x | x in head :: x !in tail
    requires !AllPass(head, p) && !NonePass(tail, p)
    ensures !Subsequence(Take(Filter(head + tail, p), |head|), head)
  {
    var spilt := SpiltItem(head, tail, p);
    var taken := Take(Filter(head + tail, p), |head|);
    if Subsequence(taken, head) {
      SubsequenceMembers(taken, head, spilt);
    }
  }

  lemma HeadAndTailApart(d: Direction, a: seq<Key>, n: nat)
    requires Sorted(d, a) && n <= |a|
    ensures forall x | x in a[..n] :: x !in a[n..]
  {
    forall i, j | 0 <= i < n <= j < |a|
      ensures a[i] != a[j]
    {
      AheadOrder(d, a[i], a[j], a[j]);
    }
  }

  lemma TakeOfFilterNarrows(d: Direction, a: seq<Key>, n: nat, p: Key -> bool)
    requires Sorted(d, a)
    ensures Subsequence(Take(Filter(a, p), n), Take(a, n)) <==> AllPass(Take(a, n), p) || NonePass(CutOff(a, n), p)
  {
    if n > |a| {
      FilterShortens(a, p);
      FilterSubsequence(a, p);
    } else {
      assert a == a[..n] + a[n..];
      if AllPass(a[..n], p) || NonePass(a[n..], p) {
        TakeOfFilterFits(a[..n], a[n..], p);
      } else {
        HeadAndTailApart(d, a, n);
        TakeOfFilterSpills(a[..n], a[n..], p);
      }
    }
  }

  /**
   Under a limit, an added keyword narrows exactly when it keeps all the items
   that were selected, or none of those that the limit had cut off.
   */
  lemma NarrowingUnderALimit(d: Direction, k: Keywords, k': Keywords, keys: seq<Key>, n: nat)
    requires Sorted(Forward, keys) && Extends(k, k')
    requires k.limit == k'.limit == Some(Integer(n))
    ensures Subsequence(Wanted(d, k', keys), Wanted(d, k, keys))
            <==> AllPass(Wanted(d, k, keys), Passing(d, k'))
                 || NonePass(CutOff(Unlimited(d, k, keys), n), Passing(d, k'))
  {
    ExtensionFilters(d, k, k', keys);
    UnlimitedSorted(d, k, keys);
    TakeOfFilterNarrows(d, Unlimited(d, k, keys), n, Passing(d, k'));
  }

  /** A closer stop narrows under any limit: what it drops lies behind what it keeps. */
  lemma StopsNarrowUnderALimit(d: Direction, k: Keywords, k': Keywords, keys: seq<Key>, n: nat)
    requires Sorted(Forward, keys) && Extends(k, k') && k' == k.(to := k'.to, before := k'.before)
    requires k.limit == Some(Integer(n))
    ensures Subsequence(Wanted(d, k', keys), Wanted(d, k, keys))
  {
    var all, p := Unlimited(d, k, keys), Passing(d, k');
    UnlimitedSorted(d, k, keys);
    assert OnceFalse(all, p) by {
      forall i, j | 0 <= i < j < |all| && p(all[j])
        ensures p(all[i])
      {
        StopPassesInFront(d, k, k', keys, i, j);
      }
    }
    PassesBeforeTheCut(all, p, n);
    NarrowingUnderALimit(d, k, k', keys, n);
  }

  lemma PassesBeforeTheCut(s: seq<Key>, p: Key -> bool, n: nat)
    requires OnceFalse(s, p)
    ensures AllPass(Take(s, n), p) || NonePass(CutOff(s, n), p)
  {
  }

  lemma StopPassesInFront(d: Direction, k: Keywords, k': Keywords, keys: seq<Key>, i: nat, j: nat)
    requires Sorted(Forward, keys) && Extends(k, k') && k' == k.(to := k'.to, before := k'.before)
    requires i < j < |Unlimited(d, k, keys)| && Passes(d, k', Unlimited(d, k, keys)[j])
    ensures Passes(d, k', Unlimited(d, k, keys)[i])
  {
    var all := Unlimited(d, k, keys);
    UnlimitedSorted(d, k, keys);
    UnlimitedIsFilter(d, k, keys);
    FilterKeeps(Walk(d, keys), Passing(d, k), all[i]);
    if k'.to.Some? {
      AheadOrder(d, AsKey(k'.to.value), all[i], all[j]);
    }
    if k'.before.Some? {
      AheadOrder(d, all[i], all[j], AsKey(k'.before.value));
    }
  }

  lemma UnlimitedSorted(d: Direction, k: Keywords, keys: seq<Key>)
    requires Sorted(Forward, keys)
    ensures Sorted(d, Unlimited(d, k, keys))
  {
    UnlimitedIsFilter(d, k, keys);
    WalkSorted(d, keys);
    FilterSorted(d, Walk(d, keys), Passing(d, k));
  }

  /** A limited traversal can widen: `limit: 1` gives the first key, `from:` with it another. */
  lemma KeywordsCanWidenUnderALimit()
    ensures var keys := [Name("a"), Name("b")];
            var k := NO_KEYWORDS.(limit := Some(Integer(1)));
            && Wanted(Forward, k, keys) == [Name("a")]
            && Wanted(Forward, k.(from := Some(Text("b"))), keys) == [Name("b")]
  {
    var keys := [Name("a"), Name("b")];
    assert Less(Name("a"), Name("b")) && !Less(Name("b"), Name("b"));
    assert keys[1..] == [Name("b")];
    assert DropWhile(keys, InFront(Forward, Name("b"))) == [Name("b")];
  }
}
