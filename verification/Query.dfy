/** The total order of collection keys and deque positions. */
module Keys {
  /** Maps and sets have names, deques have positions from the front. */
  datatype Key = Name(text: string) | Position(index: nat)

  predicate TextLess(a: string, b: string) {
    b != [] && (a == [] || a[0] < b[0] || (a[0] == b[0] && TextLess(a[1..], b[1..])))
  }

  predicate Less(a: Key, b: Key) {
    match (a, b)
    case (Name(s), Name(t)) => TextLess(s, t)
    case (Position(i), Position(j)) => i < j
    case (Name(_), Position(_)) => true
    case (Position(_), Name(_)) => false
  }

  lemma {:induction false} TextOrder(a: string, b: string)
    ensures !(TextLess(a, b) && TextLess(b, a))
    ensures a == b || TextLess(a, b) || TextLess(b, a)
    ensures a == b ==> !TextLess(a, b)
  {
    if a != [] && b != [] && a[0] == b[0] {
      TextOrder(a[1..], b[1..]);
      assert a == [a[0]] + a[1..] && b == [b[0]] + b[1..];
    }
  }

  /** Text is ordered by its first difference, and a text comes before its extensions. */
  lemma {:induction false} TextLessIff(a: string, b: string)
    ensures TextLess(a, b) <==>
            exists n :: 0 <= n <= |a| && n < |b| && a[..n] == b[..n] && (n == |a| || a[n] < b[n])
  {
    if a != [] && b != [] && a[0] == b[0] {
      TextLessIff(a[1..], b[1..]);
      if TextLess(a, b) {
        var n :| 0 <= n <= |a[1..]| && n < |b[1..]| && a[1..][..n] == b[1..][..n]
                 && (n == |a[1..]| || a[1..][n] < b[1..][n]);
        assert a[..n + 1] == [a[0]] + a[1..][..n] && b[..n + 1] == [b[0]] + b[1..][..n];
      }
      if n :| 0 <= n <= |a| && n < |b| && a[..n] == b[..n] && (n == |a| || a[n] < b[n]) {
        assert n > 0;
        assert a[1..][..n - 1] == a[..n][1..] && b[1..][..n - 1] == b[..n][1..];
      }
    } else if a != [] && b != [] {
      assert forall n :: 0 < n <= |a| && n < |b| ==> a[..n][0] == a[0] && b[..n][0] == b[0];
      assert a[0] < b[0] ==> a[..0] == b[..0];
    } else if b != [] {
      assert a[..0] == b[..0];
    }
  }

  lemma StartsWithIff(text: string, prefix: string)
    ensures StartsWith(text, prefix) <==> exists rest :: text == prefix + rest
  {
    if StartsWith(text, prefix) {
      assert text == prefix + text[|prefix|..];
    }
  }

  /** Positions ascend from the front, whatever the texts of names are. */
  lemma PositionsAscend(i: nat, j: nat)
    ensures Less(Position(i), Position(j)) <==> i < j
    ensures Ahead(Forward, Position(i), Position(j)) <==> i < j
    ensures Ahead(Backward, Position(i), Position(j)) <==> j < i
  {
  }

  lemma {:induction false} TextTransitive(a: string, b: string, c: string)
    requires TextLess(a, b) && TextLess(b, c)
    ensures TextLess(a, c)
  {
    if a != [] && a[0] == b[0] && b[0] == c[0] {
      TextTransitive(a[1..], b[1..], c[1..]);
    }
  }

  lemma Order(a: Key, b: Key)
    ensures !(Less(a, b) && Less(b, a))
    ensures a == b || Less(a, b) || Less(b, a)
    ensures a == b ==> !Less(a, b)
  {
    if a.Name? && b.Name? {
      TextOrder(a.text, b.text);
    }
  }

  lemma Transitive(a: Key, b: Key, c: Key)
    requires Less(a, b) && Less(b, c)
    ensures Less(a, c)
  {
    if a.Name? && b.Name? && c.Name? {
      TextTransitive(a.text, b.text, c.text);
    }
  }

  datatype Direction = Forward | Backward

  /** `a` comes before `b` when iterating in direction `d`. */
  predicate Ahead(d: Direction, a: Key, b: Key) {
    if d == Forward then Less(a, b) else Less(b, a)
  }

  /** The keys of a collection are distinct and stored in ascending order. */
  ghost predicate Sorted(d: Direction, keys: seq<Key>) {
    forall i, j :: 0 <= i < j < |keys| ==> Ahead(d, keys[i], keys[j])
  }

  predicate StartsWith(text: string, prefix: string) {
    |prefix| <= |text| && text[..|prefix|] == prefix
  }
}

/**
 Translation of Ruby query keywords into a core query
 (ext/prosody/src/handler/state/query.rs).
 */
module Query {
  import opened Options
  import opened Keys

  const USIZE_MAX: nat := 0xFFFF_FFFF_FFFF_FFFF

  /** The Ruby values that the translation tells apart. */
  datatype RubyValue =
    | Nil
    | Text(text: string)
    | Integer(value: int)
    | RangeOf(low: RubyValue, high: RubyValue, exclusive: bool)
    | Other

  /** One entry of the options hash, in hash order. */
  datatype Entry = Entry(name: string, value: RubyValue)

  datatype Error = ArgumentError | TypeError | TransientStateError

  datatype Result<+T> = Ok(value: T) | Err(error: Error)

  /** Which collection is queried: map or set keys, or deque positions. */
  datatype Kind = ByKey | ByPosition

  datatype Keywords = Keywords(
    from: Option<RubyValue>,
    after: Option<RubyValue>,
    to: Option<RubyValue>,
    before: Option<RubyValue>,
    range: Option<RubyValue>,
    prefix: Option<RubyValue>,
    limit: Option<RubyValue>)

  const NO_KEYWORDS := Keywords(None, None, None, None, None, None, None)

  datatype Bound = Included(key: Key) | Excluded(key: Key) | Unbounded

  /** A core query. `start` and `end` are in iteration order, `range` is ascending. */
  datatype CoreQuery = CoreQuery(
    direction: Direction,
    start: Bound,
    end: Bound,
    range: Option<(Bound, Bound)>,
    prefix: Option<string>,
    limit: Option<nat>)

  predicate Known(kind: Kind, name: string) {
    || name == "from" || name == "after" || name == "to" || name == "before" || name == "range"
    || (name == "prefix" && kind == ByKey) || name == "limit"
  }

  /** What the hash gives for `name`; nil counts as absent. */
  function Given(options: seq<Entry>, name: string): Option<RubyValue> {
    if options == [] then None
    else
      var last := options[|options| - 1];
      if last.name == name then (if last.value == Nil then None else Some(last.value))
      else Given(options[..|options| - 1], name)
  }

  function GivenKeywords(options: seq<Entry>): Keywords {
    Keywords(Given(options, "from"), Given(options, "after"), Given(options, "to"), Given(options, "before"),
             Given(options, "range"), Given(options, "prefix"), Given(options, "limit"))
  }

  predicate AllKnown(kind: Kind, options: seq<Entry>) {
    forall i :: 0 <= i < |options| ==> Known(kind, options[i].name)
  }

  /** Fills the slots in hash order; the first unknown keyword ends the walk. */
  method Collect(kind: Kind, options: seq<Entry>) returns (result: Result<Keywords>)
    ensures result == if AllKnown(kind, options) then Ok(GivenKeywords(options)) else Err(ArgumentError)
  {
    var keywords := NO_KEYWORDS;
    for i := 0 to |options|
      invariant AllKnown(kind, options[..i])
      invariant keywords == GivenKeywords(options[..i])
    {
      var Entry(name, value) := options[i];
      assert options[..i + 1][..i] == options[..i];
      var slot := if value == Nil then None else Some(value);
      if name == "from" {
        keywords := keywords.(from := slot);
      } else if name == "after" {
        keywords := keywords.(after := slot);
      } else if name == "to" {
        keywords := keywords.(to := slot);
      } else if name == "before" {
        keywords := keywords.(before := slot);
      } else if name == "range" {
        keywords := keywords.(range := slot);
      } else if name == "prefix" && kind == ByKey {
        keywords := keywords.(prefix := slot);
      } else if name == "limit" {
        keywords := keywords.(limit := slot);
      } else {
        return Err(ArgumentError);
      }
    }
    assert options[..|options|] == options;
    result := Ok(keywords);
  }

  /** A map key must be a String, a position a non-negative Integer that fits a machine word. */
  function Convert(kind: Kind, value: RubyValue): Result<Key> {
    match kind
    case ByKey => if value.Text? then Ok(Name(value.text)) else Err(TypeError)
    case ByPosition =>
      if value.Integer? && 0 <= value.value <= USIZE_MAX then Ok(Position(value.value)) else Err(ArgumentError)
  }

  function Edge(kind: Kind, inclusive: Option<RubyValue>, exclusive: Option<RubyValue>): Result<Bound> {
    match (inclusive, exclusive)
    case (Some(_), Some(_)) => Err(ArgumentError)
    case (Some(value), None) =>
      (match Convert(kind, value) case Ok(key) => Ok(Included(key)) case Err(e) => Err(e))
    case (None, Some(value)) =>
      (match Convert(kind, value) case Ok(key) => Ok(Excluded(key)) case Err(e) => Err(e))
    case (None, None) => Ok(Unbounded)
  }

  function RangeBounds(kind: Kind, value: RubyValue): Result<(Bound, Bound)> {
    if !value.RangeOf? then Err(TypeError)
    else
      var low := if value.low == Nil then Ok(Unbounded)
                 else match Convert(kind, value.low) case Ok(key) => Ok(Included(key)) case Err(e) => Err(e);
      if low.Err? then Err(low.error)
      else if value.high == Nil then Ok((low.value, Unbounded))
      else match Convert(kind, value.high)
        case Err(e) => Err(e)
        case Ok(key) => Ok((low.value, if value.exclusive then Excluded(key) else Included(key)))
  }

  function Limit(value: RubyValue): Result<nat> {
    if value.Integer? && 1 <= value.value <= USIZE_MAX then Ok(value.value) else Err(ArgumentError)
  }

  function PrefixText(value: RubyValue): Result<string> {
    if value.Text? then Ok(value.text) else Err(TypeError)
  }

  function ParseDirection(token: string): Result<Direction> {
    if token == "forward" then Ok(Forward)
    else if token == "backward" then Ok(Backward)
    else Err(TransientStateError)
  }

  /** An optional part: absent is fine, present must convert. */
  function Optional<T>(value: Option<RubyValue>, convert: RubyValue -> Result<T>): Result<Option<T>> {
    match value
    case None => Ok(None)
    case Some(v) =>
      match convert(v)
      case Ok(t) => Ok(Some(t))
      case Err(e) => Err(e)
  }

  /** The query of translated keywords, or the first error in the order of translation. */
  function Build(kind: Kind, direction: Direction, k: Keywords): Result<CoreQuery> {
    var prefix := if kind == ByKey then Optional(k.prefix, PrefixText) else Ok(None);
    if prefix.Err? then Err(prefix.error)
    else
      var start := Edge(kind, k.from, k.after);
      if start.Err? then Err(start.error)
      else
        var end := Edge(kind, k.to, k.before);
        if end.Err? then Err(end.error)
        else
          var range := Optional(k.range, v => RangeBounds(kind, v));
          if range.Err? then Err(range.error)
          else
            var limit := Optional(k.limit, Limit);
            if limit.Err? then Err(limit.error)
            else Ok(CoreQuery(direction, start.value, end.value, range.value, prefix.value, limit.value))
  }

  function Translate(kind: Kind, token: string, options: seq<Entry>): Result<CoreQuery> {
    match ParseDirection(token)
    case Err(e) => Err(e)
    case Ok(direction) =>
      if AllKnown(kind, options) then Build(kind, direction, GivenKeywords(options)) else Err(ArgumentError)
  }

  /** `key_query` and `position_query`: collect, translate, and set the parts of the query one by one. */
  method BuildQuery(kind: Kind, token: string, options: seq<Entry>) returns (result: Result<CoreQuery>)
    ensures result == Translate(kind, token, options)
  {
    var direction := ParseDirection(token);
    if direction.Err? {
      return Err(direction.error);
    }
    var collected := Collect(kind, options);
    if collected.Err? {
      return Err(collected.error);
    }
    var keywords := collected.value;
    var prefix := if kind == ByKey then Optional(keywords.prefix, PrefixText) else Ok(None);
    if prefix.Err? {
      return Err(prefix.error);
    }
    var start := Edge(kind, keywords.from, keywords.after);
    if start.Err? {
      return Err(start.error);
    }
    var end := Edge(kind, keywords.to, keywords.before);
    if end.Err? {
      return Err(end.error);
    }
    var range := Optional(keywords.range, v => RangeBounds(kind, v));
    if range.Err? {
      return Err(range.error);
    }
    var limit := Optional(keywords.limit, Limit);
    if limit.Err? {
      return Err(limit.error);
    }
    var query := CoreQuery(direction.value, Unbounded, Unbounded, None, None, None);
    query := query.(start := start.value);
    query := query.(end := end.value);
    if range.value.Some? {
      query := query.(range := range.value);
    }
    if prefix.value.Some? {
      query := query.(prefix := prefix.value);
    }
    if limit.value.Some? {
      query := query.(limit := limit.value);
    }
    result := Ok(query);
  }

  // ------------------------------------------------------------- acceptance

  predicate IsKey(kind: Kind, v: RubyValue) {
    match kind
    case ByKey => v.Text?
    case ByPosition => v.Integer? && 0 <= v.value <= USIZE_MAX
  }

  predicate IsKeyIfGiven(kind: Kind, v: Option<RubyValue>) { v.Some? ==> IsKey(kind, v.value) }

  predicate IsRangeOfKeys(kind: Kind, v: RubyValue) {
    v.RangeOf? && (v.low != Nil ==> IsKey(kind, v.low)) && (v.high != Nil ==> IsKey(kind, v.high))
  }

  /** Every present value is in its keyword's domain. */
  predicate InDomain(kind: Kind, k: Keywords) {
    && IsKeyIfGiven(kind, k.from) && IsKeyIfGiven(kind, k.after)
    && IsKeyIfGiven(kind, k.to) && IsKeyIfGiven(kind, k.before)
    && (k.range.Some? ==> IsRangeOfKeys(kind, k.range.value))
    && (k.prefix.Some? && kind == ByKey ==> k.prefix.value.Text?)
    && (k.limit.Some? ==> k.limit.value.Integer? && 1 <= k.limit.value.value <= USIZE_MAX)
  }

  predicate OneEdgePerSide(k: Keywords) {
    !(k.from.Some? && k.after.Some?) && !(k.to.Some? && k.before.Some?)
  }

  predicate Valid(kind: Kind, k: Keywords) { InDomain(kind, k) && OneEdgePerSide(k) }

  /** An options hash is accepted exactly when its keywords are known, unambiguous and in their domains. */
  lemma AcceptedIffValid(kind: Kind, token: string, options: seq<Entry>)
    requires token == "forward" || token == "backward"
    ensures Translate(kind, token, options).Ok?
            <==> AllKnown(kind, options) && Valid(kind, GivenKeywords(options))
  {
    var k := GivenKeywords(options);
    assert Build(kind, if token == "forward" then Forward else Backward, k).Ok? <==> Valid(kind, k);
  }

  // ------------------------------------------------------------- refusal

  function KnownTo(kind: Kind): set<string> {
    match kind
    case ByKey => {"from", "after", "to", "before", "range", "prefix", "limit"}
    case ByPosition => {"from", "after", "to", "before", "range", "limit"}
  }

  /** A value that is no key: the wrong type for a map or set, a wrong argument for a deque. */
  function NoKey(kind: Kind): Error { if kind == ByKey then TypeError else ArgumentError }

  function SideFault(kind: Kind, inclusive: Option<RubyValue>, exclusive: Option<RubyValue>): Option<Error> {
    if inclusive.Some? && exclusive.Some? then Some(ArgumentError)
    else if IsKeyIfGiven(kind, inclusive) && IsKeyIfGiven(kind, exclusive) then None
    else Some(NoKey(kind))
  }

  function RangeFault(kind: Kind, range: Option<RubyValue>): Option<Error> {
    if range == None then None
    else if !range.value.RangeOf? then Some(TypeError)
    else if IsRangeOfKeys(kind, range.value) then None
    else Some(NoKey(kind))
  }

  /** The first fault of the parts, in the order in which they are read. */
  function PartFault(kind: Kind, k: Keywords): Option<Error> {
    var start, end, range := SideFault(kind, k.from, k.after), SideFault(kind, k.to, k.before), RangeFault(kind, k.range);
    if kind == ByKey && k.prefix.Some? && !k.prefix.value.Text? then Some(TypeError)
    else if start.Some? then start
    else if end.Some? then end
    else if range.Some? then range
    else if k.limit.Some? && !(k.limit.value.Integer? && 1 <= k.limit.value.value <= 0xFFFF_FFFF_FFFF_FFFF)
    then Some(ArgumentError)
    else None
  }

  /** The error that refuses a query. */
  function Refusal(kind: Kind, token: string, options: seq<Entry>): Option<Error> {
    if token != "forward" && token != "backward" then Some(TransientStateError)
    else if exists i :: 0 <= i < |options| && options[i].name !in KnownTo(kind) then Some(ArgumentError)
    else PartFault(kind, GivenKeywords(options))
  }

  lemma EdgeFaulty(kind: Kind, inclusive: Option<RubyValue>, exclusive: Option<RubyValue>)
    ensures match SideFault(kind, inclusive, exclusive)
            case Some(e) => Edge(kind, inclusive, exclusive) == Err(e)
            case None => Edge(kind, inclusive, exclusive).Ok?
  {
  }

  lemma RangeFaulty(kind: Kind, range: RubyValue)
    ensures match RangeFault(kind, Some(range))
            case Some(e) => RangeBounds(kind, range) == Err(e)
            case None => RangeBounds(kind, range).Ok?
  {
  }

  lemma LimitFaulty(limit: RubyValue)
    ensures Limit(limit) == if limit.Integer? && 1 <= limit.value <= 0xFFFF_FFFF_FFFF_FFFF then Ok(limit.value)
                            else Err(ArgumentError)
  {
  }

  lemma BuildFaulty(kind: Kind, d: Direction, k: Keywords)
    ensures match PartFault(kind, k)
            case Some(e) => Build(kind, d, k) == Err(e)
            case None => Build(kind, d, k).Ok?
  {
    EdgeFaulty(kind, k.from, k.after);
    EdgeFaulty(kind, k.to, k.before);
    if k.range.Some? {
      RangeFaulty(kind, k.range.value);
    }
    if k.limit.Some? {
      LimitFaulty(k.limit.value);
    }
  }

  /** Every query is accepted or refused as the faults of its options say. */
  lemma RefusedAsFaulty(kind: Kind, token: string, options: seq<Entry>)
    ensures match Refusal(kind, token, options)
            case Some(e) => Translate(kind, token, options) == Err(e)
            case None => Translate(kind, token, options).Ok?
  {
    KnownByName(kind, options);
    if token == "forward" || token == "backward" {
      BuildFaulty(kind, ParseDirection(token).value, GivenKeywords(options));
    }
  }

  lemma KnownByName(kind: Kind, options: seq<Entry>)
    ensures AllKnown(kind, options) <==> forall i :: 0 <= i < |options| ==> options[i].name in KnownTo(kind)
  {
    assert forall i | 0 <= i < |options| :: Known(kind, options[i].name) <==> options[i].name in KnownTo(kind);
  }

  predicate UniqueNames(options: seq<Entry>) {
    forall i, j :: 0 <= i < j < |options| ==> options[i].name != options[j].name
  }

  lemma {:induction false} GivenIsMembership(options: seq<Entry>, name: string, value: RubyValue)
    requires UniqueNames(options) && value != Nil
    ensures Given(options, name) == Some(value) <==> Entry(name, value) in options
  {
    if options != [] {
      var n := |options| - 1;
      assert options == options[..n] + [options[n]];
      GivenIsMembership(options[..n], name, value);
      if options[n].name == name {
        assert forall i :: 0 <= i < n ==> options[i].name != name;
      }
    }
  }

  lemma GivenIgnoresHashOrder(options: seq<Entry>, options': seq<Entry>, name: string)
    requires UniqueNames(options) && UniqueNames(options')
    requires forall e: Entry :: e.value != Nil ==> (e in options <==> e in options')
    ensures Given(options, name) == Given(options', name)
  {
    var a, b := Given(options, name), Given(options', name);
    GivenIsNotNil(options, name);
    GivenIsNotNil(options', name);
    if a.Some? {
      GivenIsMembership(options, name, a.value);
      GivenIsMembership(options', name, a.value);
    } else if b.Some? {
      GivenIsMembership(options, name, b.value);
      GivenIsMembership(options', name, b.value);
    }
  }

  lemma {:induction false} GivenIsNotNil(options: seq<Entry>, name: string)
    ensures Given(options, name) != Some(Nil)
  {
    if options != [] {
      GivenIsNotNil(options[..|options| - 1], name);
    }
  }

  /** Neither the order of the hash nor its nil entries change the query; nil only names a keyword. */
  lemma HashOrderIsIrrelevant(kind: Kind, token: string, options: seq<Entry>, options': seq<Entry>)
    requires UniqueNames(options) && UniqueNames(options')
    requires forall e: Entry :: e.value != Nil ==> (e in options <==> e in options')
    requires AllKnown(kind, options) <==> AllKnown(kind, options')
    ensures Translate(kind, token, options) == Translate(kind, token, options')
  {
    GivenIgnoresHashOrder(options, options', "from");
    GivenIgnoresHashOrder(options, options', "after");
    GivenIgnoresHashOrder(options, options', "to");
    GivenIgnoresHashOrder(options, options', "before");
    GivenIgnoresHashOrder(options, options', "range");
    GivenIgnoresHashOrder(options, options', "prefix");
    GivenIgnoresHashOrder(options, options', "limit");
  }
}
