/**
 What a query selects. The promise is the keyword table of the README, read as a
 walk in iteration order; the core query is an interval of the ascending keys.
 */
module QueryMeaning {
  import opened Options
  import opened Sequences
  import opened Keys
  import opened Query

  function AsKey(v: RubyValue): Key {
    match v
    case Text(text) => Name(text)
    case Integer(i) => if i < 0 then Position(0) else Position(i)
    case _ => Name("")
  }

  function Walk(d: Direction, keys: seq<Key>): seq<Key> {
    if d == Forward then keys else Reverse(keys)
  }

  // ------------------------------------------------- the promise, step by step

  /** The keys before `key` in iteration order, and those up to and including it. */
  function InFront(d: Direction, key: Key): Key -> bool { x => Ahead(d, x, key) }

  function UpTo(d: Direction, key: Key): Key -> bool { x => !Ahead(d, key, x) }

  /** `from:` starts at the key, `after:` just behind it. */
  function StartAt(d: Direction, k: Keywords, s: seq<Key>): seq<Key> {
    var s1 := match k.from case Some(v) => DropWhile(s, InFront(d, AsKey(v))) case None => s;
    match k.after case Some(v) => DropWhile(s1, UpTo(d, AsKey(v))) case None => s1
  }

  /** `to:` stops behind the key, `before:` in front of it. */
  function StopAt(d: Direction, k: Keywords, s: seq<Key>): seq<Key> {
    var s1 := match k.to case Some(v) => TakeWhile(s, UpTo(d, AsKey(v))) case None => s;
    match k.before case Some(v) => TakeWhile(s1, InFront(d, AsKey(v))) case None => s1
  }

  /** A Ruby Range covers `x`; a missing end does not bound. */
  predicate Covers(r: RubyValue, x: Key) {
    r.RangeOf? ==>
      && (r.low != Nil ==> !Less(x, AsKey(r.low)))
      && (r.high != Nil ==> if r.exclusive then Less(x, AsKey(r.high)) else !Less(AsKey(r.high), x))
  }

  predicate HasPrefix(p: RubyValue, x: Key) {
    p.Text? ==> x.Name? && StartsWith(x.text, p.text)
  }

  function Covered(r: RubyValue): Key -> bool { x => Covers(r, x) }

  function Prefixed(p: RubyValue): Key -> bool { x => HasPrefix(p, x) }

  /** What the keywords other than `limit:` ask for. */
  function Unlimited(d: Direction, k: Keywords, keys: seq<Key>): seq<Key> {
    var s1 := StopAt(d, k, StartAt(d, k, Walk(d, keys)));
    var s2 := match k.range case Some(r) => Filter(s1, Covered(r)) case None => s1;
    match k.prefix case Some(p) => Filter(s2, Prefixed(p)) case None => s2
  }

  function Limited(k: Keywords, s: seq<Key>): seq<Key> {
    match k.limit case Some(Integer(n)) => if n < 0 then s else Take(s, n) case _ => s
  }

  /** What an options hash asks for, by the keyword table. */
  function Wanted(d: Direction, k: Keywords, keys: seq<Key>): seq<Key> {
    Limited(k, Unlimited(d, k, keys))
  }

  // ------------------------------------------------------------ the core query

  predicate AboveLow(low: Bound, x: Key) {
    match low
    case Included(key) => !Less(x, key)
    case Excluded(key) => Less(key, x)
    case Unbounded => true
  }

  predicate BelowHigh(high: Bound, x: Key) {
    match high
    case Included(key) => !Less(key, x)
    case Excluded(key) => Less(x, key)
    case Unbounded => true
  }

  /** The core query as an ascending interval: a backward query has its start at the high end. */
  predicate Admits(q: CoreQuery, x: Key) {
    && AboveLow(if q.direction == Forward then q.start else q.end, x)
    && BelowHigh(if q.direction == Forward then q.end else q.start, x)
    && (q.range.Some? ==> AboveLow(q.range.value.0, x) && BelowHigh(q.range.value.1, x))
    && (q.prefix.Some? ==> x.Name? && StartsWith(x.text, q.prefix.value))
  }

  function Admitted(q: CoreQuery): Key -> bool { x => Admits(q, x) }

  function Select(q: CoreQuery, keys: seq<Key>): seq<Key> {
    var found := Walk(q.direction, Filter(keys, Admitted(q)));
    match q.limit case Some(n) => Take(found, n) case None => found
  }

  // --------------------------------------------------------------- the keywords

  predicate Passes(d: Direction, k: Keywords, x: Key) {
    && (k.from.Some? ==> !Ahead(d, x, AsKey(k.from.value)))
    && (k.after.Some? ==> Ahead(d, AsKey(k.after.value), x))
    && (k.to.Some? ==> !Ahead(d, AsKey(k.to.value), x))
    && (k.before.Some? ==> Ahead(d, x, AsKey(k.before.value)))
    && (k.range.Some? ==> Covers(k.range.value, x))
    && (k.prefix.Some? ==> HasPrefix(k.prefix.value, x))
  }

  lemma AheadOrder(d: Direction, a: Key, b: Key, c: Key)
    ensures !(Ahead(d, a, b) && Ahead(d, b, a))
    ensures a == b || Ahead(d, a, b) || Ahead(d, b, a)
    ensures a == b ==> !Ahead(d, a, b)
    ensures Ahead(d, a, b) && Ahead(d, b, c) ==> Ahead(d, a, c)
  {
    Order(a, b);
    if Less(a, b) && Less(b, c) { Transitive(a, b, c); }
    if Less(c, b) && Less(b, a) { Transitive(c, b, a); }
  }

  lemma {:induction false} FilterSorted(d: Direction, s: seq<Key>, p: Key -> bool)
    requires Sorted(d, s)
    ensures Sorted(d, Filter(s, p))
  {
    if s != [] {
      FilterSorted(d, s[1..], p);
      var rest := Filter(s[1..], p);
      forall i | 0 <= i < |rest|
        ensures Ahead(d, s[0], rest[i])
      {
        FilterKeeps(s[1..], p, rest[i]);
        var j :| 0 <= j < |s[1..]| && s[1..][j] == rest[i];
        assert s[j + 1] == rest[i];
      }
    }
  }

  lemma WalkSorted(d: Direction, keys: seq<Key>)
    requires Sorted(Forward, keys)
    ensures Sorted(d, Walk(d, keys)) && |Walk(d, keys)| == |keys|
  {
    ReverseAt(keys);
  }

  /** Forward is the stored order, backward its reverse. */
  lemma WalkIs(keys: seq<Key>)
    ensures Walk(Forward, keys) == keys && |Walk(Backward, keys)| == |keys|
    ensures forall i :: 0 <= i < |keys| ==> Walk(Backward, keys)[i] == keys[|keys| - 1 - i]
  {
    ReverseAt(keys);
  }

  /** On a sorted walk, the keys before a key come first. */
  lemma EdgesScan(d: Direction, s: seq<Key>, key: Key)
    requires Sorted(d, s)
    ensures OnceFalse(s, InFront(d, key)) && OnceFalse(s, UpTo(d, key))
  {
    forall i, j | 0 <= i < j < |s|
      ensures Ahead(d, s[j], key) ==> Ahead(d, s[i], key)
      ensures Ahead(d, key, s[i]) ==> Ahead(d, key, s[j])
    {
      AheadOrder(d, s[i], s[j], key);
      AheadOrder(d, key, s[i], s[j]);
    }
  }

  /** One more condition, or none: the shape of every step of the promise. */
  function And(p: Key -> bool, q: Key -> bool): Key -> bool { x => p(x) && q(x) }

  function Not(p: Key -> bool): Key -> bool { x => !p(x) }

  function Everything(): Key -> bool { x => true }

  lemma FilterAnd(s: seq<Key>, p: Key -> bool, q: Key -> bool)
    ensures Filter(Filter(s, p), q) == Filter(s, And(p, q))
  {
    FilterTwice(s, p, q);
    FilterSame(s, x => p(x) && q(x), And(p, q));
  }

  lemma DropIsFilter(d: Direction, s: seq<Key>, p: Key -> bool)
    requires OnceFalse(s, p)
    ensures DropWhile(s, p) == Filter(s, Not(p))
  {
    DropWhileIsFilter(s, p);
    FilterSame(s, x => !p(x), Not(p));
  }

  function FromTest(d: Direction, k: Keywords): Key -> bool {
    match k.from case Some(v) => Not(InFront(d, AsKey(v))) case None => Everything()
  }

  function AfterTest(d: Direction, k: Keywords): Key -> bool {
    match k.after case Some(v) => Not(UpTo(d, AsKey(v))) case None => Everything()
  }

  function ToTest(d: Direction, k: Keywords): Key -> bool {
    match k.to case Some(v) => UpTo(d, AsKey(v)) case None => Everything()
  }

  function BeforeTest(d: Direction, k: Keywords): Key -> bool {
    match k.before case Some(v) => InFront(d, AsKey(v)) case None => Everything()
  }

  function RangeTest(k: Keywords): Key -> bool {
    match k.range case Some(r) => Covered(r) case None => Everything()
  }

  function PrefixTest(k: Keywords): Key -> bool {
    match k.prefix case Some(p) => Prefixed(p) case None => Everything()
  }

  lemma StartIsFilter(d: Direction, k: Keywords, s: seq<Key>)
    requires Sorted(d, s)
    ensures StartAt(d, k, s) == Filter(Filter(s, FromTest(d, k)), AfterTest(d, k))
  {
    var s1 := Filter(s, FromTest(d, k));
    FilterSorted(d, s, FromTest(d, k));
    if k.from.Some? {
      EdgesScan(d, s, AsKey(k.from.value));
      DropIsFilter(d, s, InFront(d, AsKey(k.from.value)));
    } else {
      FilterAll(s, Everything());
    }
    if k.after.Some? {
      EdgesScan(d, s1, AsKey(k.after.value));
      DropIsFilter(d, s1, UpTo(d, AsKey(k.after.value)));
    } else {
      FilterAll(s1, Everything());
    }
  }

  lemma StopIsFilter(d: Direction, k: Keywords, s: seq<Key>)
    requires Sorted(d, s)
    ensures StopAt(d, k, s) == Filter(Filter(s, ToTest(d, k)), BeforeTest(d, k))
  {
    var s1 := Filter(s, ToTest(d, k));
    FilterSorted(d, s, ToTest(d, k));
    if k.to.Some? {
      EdgesScan(d, s, AsKey(k.to.value));
      TakeWhileIsFilter(s, UpTo(d, AsKey(k.to.value)));
    } else {
      FilterAll(s, Everything());
    }
    if k.before.Some? {
      EdgesScan(d, s1, AsKey(k.before.value));
      TakeWhileIsFilter(s1, InFront(d, AsKey(k.before.value)));
    } else {
      FilterAll(s1, Everything());
    }
  }

  lemma NarrowIsFilter(k: Keywords, s: seq<Key>)
    ensures var s2 := match k.range case Some(r) => Filter(s, Covered(r)) case None => s;
            (match k.prefix case Some(p) => Filter(s2, Prefixed(p)) case None => s2)
            == Filter(Filter(s, RangeTest(k)), PrefixTest(k))
  {
    FilterAll(s, Everything());
    FilterAll(Filter(s, RangeTest(k)), Everything());
  }

  function Passing(d: Direction, k: Keywords): Key -> bool { x => Passes(d, k, x) }

  function AllTests(d: Direction, k: Keywords): Key -> bool {
    And(And(And(FromTest(d, k), AfterTest(d, k)), And(ToTest(d, k), BeforeTest(d, k))),
        And(RangeTest(k), PrefixTest(k)))
  }

  lemma UnlimitedTests(d: Direction, k: Keywords, s: seq<Key>)
    requires Sorted(d, s)
    ensures StopAt(d, k, StartAt(d, k, s))
            == Filter(s, And(And(FromTest(d, k), AfterTest(d, k)), And(ToTest(d, k), BeforeTest(d, k))))
  {
    var p := And(FromTest(d, k), AfterTest(d, k));
    StartIsFilter(d, k, s);
    FilterAnd(s, FromTest(d, k), AfterTest(d, k));
    FilterSorted(d, s, p);
    StopIsFilter(d, k, Filter(s, p));
    FilterAnd(Filter(s, p), ToTest(d, k), BeforeTest(d, k));
    FilterAnd(s, p, And(ToTest(d, k), BeforeTest(d, k)));
  }

  lemma AllTestsArePasses(d: Direction, k: Keywords, x: Key)
    ensures AllTests(d, k)(x) <==> Passes(d, k, x)
  {
    assert FromTest(d, k)(x) <==> (k.from.Some? ==> !Ahead(d, x, AsKey(k.from.value)));
    assert AfterTest(d, k)(x) <==> (k.after.Some? ==> Ahead(d, AsKey(k.after.value), x));
    assert ToTest(d, k)(x) <==> (k.to.Some? ==> !Ahead(d, AsKey(k.to.value), x));
    assert BeforeTest(d, k)(x) <==> (k.before.Some? ==> Ahead(d, x, AsKey(k.before.value)));
    assert RangeTest(k)(x) <==> (k.range.Some? ==> Covers(k.range.value, x));
    assert PrefixTest(k)(x) <==> (k.prefix.Some? ==> HasPrefix(k.prefix.value, x));
  }

  /** The walk of the keyword table keeps exactly the keys that pass each keyword by itself. */
  lemma UnlimitedIsFilter(d: Direction, k: Keywords, keys: seq<Key>)
    requires Sorted(Forward, keys)
    ensures Unlimited(d, k, keys) == Filter(Walk(d, keys), Passing(d, k))
  {
    var s := Walk(d, keys);
    WalkSorted(d, keys);
    UnlimitedTests(d, k, s);
    var s1 := StopAt(d, k, StartAt(d, k, s));
    NarrowIsFilter(k, s1);
    FilterAnd(s1, RangeTest(k), PrefixTest(k));
    FilterAnd(s, And(And(FromTest(d, k), AfterTest(d, k)), And(ToTest(d, k), BeforeTest(d, k))),
              And(RangeTest(k), PrefixTest(k)));
    forall x | x in s
      ensures AllTests(d, k)(x) == Passing(d, k)(x)
    {
      AllTestsArePasses(d, k, x);
    }
    FilterSame(s, AllTests(d, k), Passing(d, k));
  }

  /** Both readings of one side's edge: as a low bound and as a high bound. */
  lemma EdgeTestsAlike(kind: Kind, d: Direction, inclusive: Option<RubyValue>, exclusive: Option<RubyValue>,
                       b: Bound, x: Key)
    requires Edge(kind, inclusive, exclusive) == Ok(b)
    ensures AboveLow(b, x)
            <==> (inclusive.Some? ==> !Less(x, AsKey(inclusive.value)))
                 && (exclusive.Some? ==> Less(AsKey(exclusive.value), x))
    ensures BelowHigh(b, x)
            <==> (inclusive.Some? ==> !Less(AsKey(inclusive.value), x))
                 && (exclusive.Some? ==> Less(x, AsKey(exclusive.value)))
  {
  }

  lemma RangeTestsAlike(kind: Kind, r: RubyValue, bounds: (Bound, Bound), x: Key)
    requires RangeBounds(kind, r) == Ok(bounds)
    ensures AboveLow(bounds.0, x) && BelowHigh(bounds.1, x) <==> Covers(r, x)
  {
  }

  /** Valid keywords and the core query built from them test a key alike. */
  lemma BuiltQueryTestsAlike(kind: Kind, d: Direction, k: Keywords, x: Key)
    requires Build(kind, d, k).Ok? && (kind == ByPosition ==> k.prefix == None)
    ensures Admits(Build(kind, d, k).value, x) <==> Passes(d, k, x)
  {
    var q := Build(kind, d, k).value;
    EdgeTestsAlike(kind, d, k.from, k.after, q.start, x);
    EdgeTestsAlike(kind, d, k.to, k.before, q.end, x);
    if k.range.Some? {
      RangeTestsAlike(kind, k.range.value, q.range.value, x);
    }
  }

  lemma BuiltQueryFinds(kind: Kind, d: Direction, k: Keywords, keys: seq<Key>)
    requires Sorted(Forward, keys)
    requires Build(kind, d, k).Ok? && (kind == ByPosition ==> k.prefix == None)
    ensures Walk(d, Filter(keys, Admitted(Build(kind, d, k).value))) == Unlimited(d, k, keys)
  {
    var q := Build(kind, d, k).value;
    forall x | x in keys
      ensures Admitted(q)(x) == Passing(d, k)(x)
    {
      BuiltQueryTestsAlike(kind, d, k, x);
    }
    FilterSame(keys, Admitted(q), Passing(d, k));
    FilterReverse(keys, Passing(d, k));
    UnlimitedIsFilter(d, k, keys);
  }

  lemma BuiltLimit(kind: Kind, d: Direction, k: Keywords)
    requires Build(kind, d, k).Ok?
    ensures var q := Build(kind, d, k).value;
            && q.direction == d
            && (q.limit == None ==> k.limit == None)
            && (q.limit.Some? ==> k.limit == Some(Integer(q.limit.value)))
  {
  }

  /** The accepted query selects what the keyword table promises. */
  lemma TranslationIsExact(kind: Kind, token: string, options: seq<Entry>, keys: seq<Key>)
    requires Sorted(Forward, keys) && Translate(kind, token, options).Ok?
    ensures ParseDirection(token).Ok? && (token == "forward" || token == "backward")
    ensures Select(Translate(kind, token, options).value, keys)
         == Wanted(if token == "forward" then Forward else Backward, GivenKeywords(options), keys)
    ensures Select(Translate(kind, token, options).value, keys)
         == Wanted(ParseDirection(token).value, GivenKeywords(options), keys)
  {
    var d, k := ParseDirection(token).value, GivenKeywords(options);
    if kind == ByPosition {
      UnknownIsNotGiven(kind, options, "prefix");
    }
    BuiltQueryFinds(kind, d, k, keys);
    BuiltLimit(kind, d, k);
  }

  lemma {:induction false} UnknownIsNotGiven(kind: Kind, options: seq<Entry>, name: string)
    requires AllKnown(kind, options) && !Known(kind, name)
    ensures Given(options, name) == None
  {
    if options != [] {
      assert Known(kind, options[|options| - 1].name);
      UnknownIsNotGiven(kind, options[..|options| - 1], name);
    }
  }
}
