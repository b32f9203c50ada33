/**
 Keyset paging, as the README describes it: read a page, pass its last key as
 `after:`, and go on until a page is empty.
 */
module Paging {
  import opened Options
  import opened Sequences
  import opened Keys
  import opened Query
  import opened QueryMeaning
  import opened QueryLaws

  function ToRuby(key: Key): RubyValue {
    match key
    case Name(text) => Text(text)
    case Position(i) => Integer(i)
  }

  /** Behind a key that passes, the remaining keywords decide; an earlier `after:` is already met. */
  lemma PassesBehind(d: Direction, k: Keywords, last: Key, x: Key)
    requires k.from == None && Passes(d, k, last)
    ensures Passes(d, k.(after := Some(ToRuby(last))), x) <==> Passes(d, k, x) && Ahead(d, last, x)
  {
    assert AsKey(ToRuby(last)) == last;
    if k.after.Some? {
      AheadOrder(d, AsKey(k.after.value), last, x);
    }
  }

  /** What a page that starts behind the `i`-th selected key would select without its limit. */
  lemma AfterLastKeyIsTheRest(d: Direction, k: Keywords, keys: seq<Key>, i: nat)
    requires Sorted(Forward, keys) && k.from == None && 0 < i <= |Unlimited(d, k, keys)|
    ensures Unlimited(d, k.(after := Some(ToRuby(Unlimited(d, k, keys)[i - 1]))), keys) == Unlimited(d, k, keys)[i..]
  {
    var a := Unlimited(d, k, keys);
    var last := a[i - 1];
    var k' := k.(after := Some(ToRuby(last)));
    UnlimitedIsFilter(d, k, keys);
    UnlimitedIsFilter(d, k', keys);
    FilterKeeps(Walk(d, keys), Passing(d, k), last);
    BehindIsFilter(d, k, Walk(d, keys), last);
    UnlimitedSorted(d, k, keys);
    SplitBehind(d, a, i, Not(UpTo(d, last)));
  }

  lemma BehindIsFilter(d: Direction, k: Keywords, s: seq<Key>, last: Key)
    requires k.from == None && Passes(d, k, last)
    ensures Filter(s, Passing(d, k.(after := Some(ToRuby(last)))))
            == Filter(Filter(s, Passing(d, k)), Not(UpTo(d, last)))
  {
    var behind := Not(UpTo(d, last));
    var k' := k.(after := Some(ToRuby(last)));
    forall x | x in s
      ensures And(Passing(d, k), behind)(x) == Passing(d, k')(x)
    {
      PassesBehind(d, k, last, x);
    }
    FilterAnd(s, Passing(d, k), behind);
    FilterSame(s, And(Passing(d, k), behind), Passing(d, k'));
  }

  lemma SplitBehind(d: Direction, a: seq<Key>, i: nat, behind: Key -> bool)
    requires Sorted(d, a) && 0 < i <= |a|
    requires forall x :: behind(x) <==> Ahead(d, a[i - 1], x)
    ensures Filter(a, behind) == a[i..]
  {
    assert a == a[..i] + a[i..];
    forall j | 0 <= j < |a|
      ensures behind(a[j]) <==> i <= j
    {
      AheadOrder(d, a[i - 1], a[j], a[j]);
      AheadOrder(d, a[j], a[i - 1], a[i - 1]);
    }
    FilterConcat(a[..i], a[i..], behind);
    FilterNone(a[..i], behind);
    FilterAll(a[i..], behind);
  }

  /** The keywords of one page: the caller's, a limit, and the last key read so far. */
  function PageQuery(k: Keywords, last: Option<Key>, size: int): Keywords {
    match last
    case None => k.(limit := Some(Integer(size)))
    case Some(key) => k.(after := Some(ToRuby(key)), limit := Some(Integer(size)))
  }

  lemma PageIsNextPart(d: Direction, k: Keywords, keys: seq<Key>, read: nat, size: nat)
    requires Sorted(Forward, keys) && k.from == None && read <= |Unlimited(d, k, keys)|
    ensures var all := Unlimited(d, k, keys);
            Wanted(d, PageQuery(k, if read == 0 then None else Some(all[read - 1]), size), keys)
            == Take(all[read..], size)
  {
    var all := Unlimited(d, k, keys);
    if read == 0 {
      assert all[0..] == all;
      assert Unlimited(d, k.(limit := Some(Integer(size))), keys) == all;
    } else {
      var behind := k.(after := Some(ToRuby(all[read - 1])));
      AfterLastKeyIsTheRest(d, k, keys, read);
      assert Unlimited(d, behind.(limit := Some(Integer(size))), keys) == Unlimited(d, behind, keys);
    }
  }

  function Concat<T>(pages: seq<seq<T>>): seq<T> {
    if pages == [] then [] else Concat(pages[..|pages| - 1]) + pages[|pages| - 1]
  }

  /** The option hash of one page. A keyword that is given again overrides the earlier value. */
  function PageOptions(options: seq<Entry>, last: Option<Key>, size: int): seq<Entry> {
    var limited := options + [Entry("limit", Integer(size))];
    match last
    case None => limited
    case Some(key) => limited + [Entry("after", ToRuby(key))]
  }

  lemma GivenOverridden(options: seq<Entry>, e: Entry, name: string)
    requires e.value != Nil
    ensures Given(options + [e], name) == if e.name == name then Some(e.value) else Given(options, name)
  {
    assert (options + [e])[..|options|] == options;
  }

  lemma KeywordsOverridden(options: seq<Entry>, e: Entry)
    requires e.value != Nil && (e.name == "limit" || e.name == "after")
    ensures var k := GivenKeywords(options);
            GivenKeywords(options + [e])
            == if e.name == "limit" then k.(limit := Some(e.value)) else k.(after := Some(e.value))
  {
    GivenOverridden(options, e, "from");
    GivenOverridden(options, e, "after");
    GivenOverridden(options, e, "to");
    GivenOverridden(options, e, "before");
    GivenOverridden(options, e, "range");
    GivenOverridden(options, e, "prefix");
    GivenOverridden(options, e, "limit");
  }

  lemma PageKeywords(kind: Kind, options: seq<Entry>, last: Option<Key>, size: int)
    ensures GivenKeywords(PageOptions(options, last, size)) == PageQuery(GivenKeywords(options), last, size)
    ensures AllKnown(kind, PageOptions(options, last, size)) <==> AllKnown(kind, options)
  {
    var limited := options + [Entry("limit", Integer(size))];
    KeywordsOverridden(options, Entry("limit", Integer(size)));
    AllKnownAppended(kind, options, Entry("limit", Integer(size)));
    if last.Some? {
      KeywordsOverridden(limited, Entry("after", ToRuby(last.value)));
      AllKnownAppended(kind, limited, Entry("after", ToRuby(last.value)));
    }
  }

  lemma AllKnownAppended(kind: Kind, options: seq<Entry>, e: Entry)
    ensures AllKnown(kind, options + [e]) <==> AllKnown(kind, options) && Known(kind, e.name)
  {
    var more := options + [e];
    assert more[|options|] == e;
    if AllKnown(kind, more) {
      forall i | 0 <= i < |options|
        ensures Known(kind, options[i].name)
      {
        assert more[i] == options[i];
      }
    }
  }

  /** A page is accepted exactly when its limit is, and no `from:` stands beside its `after:`. */
  lemma PageAcceptedIff(kind: Kind, token: string, options: seq<Entry>, last: Option<Key>, size: int)
    requires Translate(kind, token, options).Ok? && (last.Some? ==> IsKey(kind, ToRuby(last.value)))
    ensures Translate(kind, token, PageOptions(options, last, size)).Ok?
            <==> 1 <= size <= USIZE_MAX && (last == None || Given(options, "from") == None)
  {
    PageKeywords(kind, options, last, size);
    AcceptedIffValid(kind, token, options);
    AcceptedIffValid(kind, token, PageOptions(options, last, size));
  }

  /** Every key of the store is a key of its kind. */
  predicate StoreOf(kind: Kind, keys: seq<Key>) { forall x | x in keys :: IsKey(kind, ToRuby(x)) }

  lemma SelectedAreKeys(kind: Kind, d: Direction, k: Keywords, keys: seq<Key>, i: nat)
    requires Sorted(Forward, keys) && StoreOf(kind, keys) && i < |Unlimited(d, k, keys)|
    ensures IsKey(kind, ToRuby(Unlimited(d, k, keys)[i]))
  {
    UnlimitedIsFilter(d, k, keys);
    var x := Unlimited(d, k, keys)[i];
    FilterKeeps(Walk(d, keys), Passing(d, k), x);
    InWalk(d, keys, x);
  }

  lemma InWalk(d: Direction, keys: seq<Key>, x: Key)
    ensures x in Walk(d, keys) <==> x in keys
  {
    if d == Backward {
      InReverse(keys, x);
    }
  }

  lemma {:induction false} InReverse(keys: seq<Key>, x: Key)
    ensures x in Reverse(keys) <==> x in keys
  {
    if keys != [] {
      InReverse(keys[1..], x);
    }
  }

  /** What `to_a` gives for one page: its items, or the error that refuses its options. */
  function Fetch(kind: Kind, token: string, options: seq<Entry>, keys: seq<Key>, last: Option<Key>, size: int):
    Result<seq<Key>>
  {
    match Translate(kind, token, PageOptions(options, last, size))
    case Ok(q) => Ok(Select(q, keys))
    case Err(e) => Err(e)
  }

  lemma FetchIsWanted(kind: Kind, token: string, options: seq<Entry>, keys: seq<Key>, last: Option<Key>, size: int)
    requires Sorted(Forward, keys) && Fetch(kind, token, options, keys, last, size).Ok?
    ensures ParseDirection(token).Ok?
    ensures Fetch(kind, token, options, keys, last, size).value
         == Wanted(ParseDirection(token).value, PageQuery(GivenKeywords(options), last, size), keys)
  {
    PageKeywords(kind, options, last, size);
    TranslationIsExact(kind, token, PageOptions(options, last, size), keys);
  }

  lemma FirstPageIsFirstPart(d: Direction, k: Keywords, keys: seq<Key>, size: nat)
    ensures Wanted(d, PageQuery(k, None, size), keys) == Take(Unlimited(d, k, keys), size)
  {
  }

  /** The last key of the first `read` keys. */
  function LastRead(all: seq<Key>, read: nat): Option<Key>
    requires read <= |all|
  {
    if read == 0 then None else Some(all[read - 1])
  }

  /** Behind `read` keys, a page is fetched exactly if `accepted`, and then it is the next part. */
  ghost predicate IsPart(page: Result<seq<Key>>, all: seq<Key>, read: nat, size: int, accepted: bool) {
    && (page.Ok? <==> 1 <= size && accepted)
    && (page.Ok? ==> read <= |all| && page.value == Take(all[read..], size))
  }

  lemma FirstFetch(kind: Kind, token: string, options: seq<Entry>, keys: seq<Key>, size: int)
    requires Sorted(Forward, keys) && Translate(kind, token, options).Ok?
    ensures ParseDirection(token).Ok?
    ensures IsPart(Fetch(kind, token, options, keys, None, size),
                   Unlimited(ParseDirection(token).value, GivenKeywords(options), keys), 0, size, size <= USIZE_MAX)
  {
    PageAcceptedIff(kind, token, options, None, size);
    if Fetch(kind, token, options, keys, None, size).Ok? {
      FetchIsWanted(kind, token, options, keys, None, size);
      FirstPageIsFirstPart(ParseDirection(token).value, GivenKeywords(options), keys, size);
    }
    var all := Unlimited(ParseDirection(token).value, GivenKeywords(options), keys);
    assert all[0..] == all;
  }

  lemma LaterFetch(kind: Kind, token: string, options: seq<Entry>, keys: seq<Key>, read: nat, size: int)
    requires Sorted(Forward, keys) && StoreOf(kind, keys) && Translate(kind, token, options).Ok?
    requires 0 < read <= |Unlimited(ParseDirection(token).value, GivenKeywords(options), keys)|
    ensures var all := Unlimited(ParseDirection(token).value, GivenKeywords(options), keys);
            IsPart(Fetch(kind, token, options, keys, Some(all[read - 1]), size), all, read, size,
                   size <= USIZE_MAX && Given(options, "from") == None)
  {
    var d, k := ParseDirection(token).value, GivenKeywords(options);
    var last := Some(Unlimited(d, k, keys)[read - 1]);
    SelectedAreKeys(kind, d, k, keys, read - 1);
    PageAcceptedIff(kind, token, options, last, size);
    if Fetch(kind, token, options, keys, last, size).Ok? {
      FetchIsWanted(kind, token, options, keys, last, size);
      PageIsNextPart(d, k, keys, read, size);
    }
  }

  /** A page source: the first page is fetched if `first`, later ones if `later`. */
  ghost predicate ServesPages(fetch: Option<Key> -> Result<seq<Key>>, all: seq<Key>, size: int, first: bool, later: bool) {
    forall read: nat :: read <= |all| ==>
      IsPart(fetch(LastRead(all, read)), all, read, size, if read == 0 then first else later)
  }

  /** Pages of a size, of any page source: pass the last key of a page until a page is empty. */
  method ReadAll(fetch: Option<Key> -> Result<seq<Key>>, ghost all: seq<Key>, ghost size: int,
                 ghost first: bool, ghost later: bool)
    returns (result: Result<seq<seq<Key>>>)
    requires ServesPages(fetch, all, size, first, later)
    ensures result.Ok? <==> 1 <= size && first && (later || all == [])
    ensures result.Ok? ==> Concat(result.value) == all && forall p | p in result.value :: 0 < |p| <= size
  {
    ghost var read: nat := 0;
    assert IsPart(fetch(LastRead(all, 0)), all, 0, size, first);
    var fetched := fetch(None);
    if fetched.Err? {
      return Err(fetched.error);
    }
    var pages, page := [], fetched.value;
    while page != []
      invariant read <= |all| && 1 <= size && first && (read > 0 ==> later)
      invariant Concat(pages) == all[..read] && page == Take(all[read..], size)
      invariant forall p | p in pages :: 0 < |p| <= size
      decreases |all| - read
    {
      AddPage(all, read, pages, page);
      pages, read := pages + [page], read + |page|;
      assert IsPart(fetch(LastRead(all, read)), all, read, size, later);
      fetched := fetch(Some(page[|page| - 1]));
      if fetched.Err? {
        return Err(fetched.error);
      }
      page := fetched.value;
    }
    assert all[read..] == [] && all[..read] == all;
    result := Ok(pages);
  }

  /**
   The paging loop: pass the last key of a page as `after:` until a page is
   empty. Its pages are the unpaged traversal, cut without gap or repetition. It
   is refused exactly for a limit that is no limit, and for a `from:` with
   anything to page behind.
   */
  method ReadInPages(kind: Kind, token: string, options: seq<Entry>, keys: seq<Key>, size: int)
    returns (result: Result<seq<seq<Key>>>)
    requires Sorted(Forward, keys) && StoreOf(kind, keys)
    requires Translate(kind, token, options).Ok? && Given(options, "limit") == None
    ensures var unpaged := Select(Translate(kind, token, options).value, keys);
            && (result.Ok? <==> 1 <= size <= USIZE_MAX && (Given(options, "from") == None || unpaged == []))
            && (result.Ok? ==> Concat(result.value) == unpaged && forall p | p in result.value :: 0 < |p| <= size)
  {
    ghost var all := Select(Translate(kind, token, options).value, keys);
    ghost var open := size <= USIZE_MAX && Given(options, "from") == None;
    var fetch := last => Fetch(kind, token, options, keys, last, size);
    PagesAreServed(kind, token, options, keys, size);
    result := ReadAll(fetch, all, size, size <= USIZE_MAX, open);
  }

  lemma PagesAreServed(kind: Kind, token: string, options: seq<Entry>, keys: seq<Key>, size: int)
    requires Sorted(Forward, keys) && StoreOf(kind, keys)
    requires Translate(kind, token, options).Ok? && Given(options, "limit") == None
    ensures ServesPages(last => Fetch(kind, token, options, keys, last, size),
                        Select(Translate(kind, token, options).value, keys), size,
                        size <= USIZE_MAX, size <= USIZE_MAX && Given(options, "from") == None)
  {
    TranslationIsExact(kind, token, options, keys);
    var all := Unlimited(ParseDirection(token).value, GivenKeywords(options), keys);
    forall read: nat | read <= |all|
      ensures IsPart(Fetch(kind, token, options, keys, LastRead(all, read), size), all, read, size,
                     if read == 0 then size <= USIZE_MAX else size <= USIZE_MAX && Given(options, "from") == None)
    {
      if read == 0 {
        FirstFetch(kind, token, options, keys, size);
      } else {
        LaterFetch(kind, token, options, keys, read, size);
      }
    }
  }

  lemma AddPage(all: seq<Key>, read: nat, pages: seq<seq<Key>>, page: seq<Key>)
    requires read <= |all| && Concat(pages) == all[..read] && page <= all[read..]
    ensures read + |page| <= |all| && Concat(pages + [page]) == all[..read + |page|]
    ensures page != [] ==> page[|page| - 1] == all[read + |page| - 1]
  {
    assert (pages + [page])[..|pages|] == pages;
    assert all[..read + |page|] == all[..read] + page;
  }
}
