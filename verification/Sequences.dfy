/** Filters, scans and subsequences, as the query and windowing modules use them. */
module Sequences {

  function Filter<T>(s: seq<T>, p: T -> bool): seq<T> {
    if s == [] then [] else if p(s[0]) then [s[0]] + Filter(s[1..], p) else Filter(s[1..], p)
  }

  function DropWhile<T>(s: seq<T>, p: T -> bool): seq<T> {
    if s == [] || !p(s[0]) then s else DropWhile(s[1..], p)
  }

  function TakeWhile<T>(s: seq<T>, p: T -> bool): seq<T> {
    if s == [] || !p(s[0]) then [] else [s[0]] + TakeWhile(s[1..], p)
  }

  function Reverse<T>(s: seq<T>): seq<T> {
    if s == [] then [] else Reverse(s[1..]) + [s[0]]
  }

  function Take<T>(s: seq<T>, n: nat): seq<T> {
    if n <= |s| then s[..n] else s
  }

  ghost predicate Subsequence<T>(a: seq<T>, b: seq<T>) {
    if a == [] then true
    else if b == [] then false
    else (a[0] == b[0] && Subsequence(a[1..], b[1..])) || Subsequence(a, b[1..])
  }

  lemma {:induction false} FilterSame<T>(s: seq<T>, p: T -> bool, q: T -> bool)
    requires forall x | x in s :: p(x) == q(x)
    ensures Filter(s, p) == Filter(s, q)
  {
    if s != [] {
      FilterSame(s[1..], p, q);
    }
  }

  lemma {:induction false} FilterTwice<T>(s: seq<T>, p: T -> bool, q: T -> bool)
    ensures Filter(Filter(s, p), q) == Filter(s, x => p(x) && q(x))
  {
    if s != [] {
      FilterTwice(s[1..], p, q);
      if p(s[0]) {
        assert Filter(s, p) == [s[0]] + Filter(s[1..], p);
        assert Filter(s, p)[1..] == Filter(s[1..], p);
      }
    }
  }

  lemma {:induction false} FilterKeeps<T>(s: seq<T>, p: T -> bool, x: T)
    ensures x in Filter(s, p) <==> x in s && p(x)
  {
    if s != [] {
      FilterKeeps(s[1..], p, x);
      assert s == [s[0]] + s[1..];
    }
  }

  lemma {:induction false} FilterAll<T>(s: seq<T>, p: T -> bool)
    requires forall x | x in s :: p(x)
    ensures Filter(s, p) == s
  {
    if s != [] {
      FilterAll(s[1..], p);
    }
  }

  lemma {:induction false} FilterNone<T>(s: seq<T>, p: T -> bool)
    requires forall x | x in s :: !p(x)
    ensures Filter(s, p) == []
  {
    if s != [] {
      FilterNone(s[1..], p);
    }
  }

  lemma {:induction false} FilterConcat<T>(a: seq<T>, b: seq<T>, p: T -> bool)
    ensures Filter(a + b, p) == Filter(a, p) + Filter(b, p)
  {
    if a == [] {
      assert a + b == b;
    } else {
      assert (a + b)[1..] == a[1..] + b;
      FilterConcat(a[1..], b, p);
    }
  }

  lemma {:induction false} FilterReverse<T>(s: seq<T>, p: T -> bool)
    ensures Filter(Reverse(s), p) == Reverse(Filter(s, p))
  {
    if s != [] {
      FilterReverse(s[1..], p);
      FilterConcat(Reverse(s[1..]), [s[0]], p);
      assert Filter([s[0]], p) == if p(s[0]) then [s[0]] else [];
      if p(s[0]) {
        assert Filter(s, p)[1..] == Filter(s[1..], p);
      }
    }
  }

  lemma {:induction false} ReverseConcat<T>(a: seq<T>, b: seq<T>)
    ensures Reverse(a + b) == Reverse(b) + Reverse(a)
  {
    if a == [] {
      assert a + b == b;
    } else {
      assert (a + b)[1..] == a[1..] + b;
      ReverseConcat(a[1..], b);
    }
  }

  lemma {:induction false} ReverseTwice<T>(s: seq<T>)
    ensures Reverse(Reverse(s)) == s
  {
    if s != [] {
      ReverseTwice(s[1..]);
      ReverseConcat(Reverse(s[1..]), [s[0]]);
      assert Reverse([s[0]]) == [s[0]];
    }
  }

  lemma {:induction false} ReverseAt<T>(s: seq<T>)
    ensures |Reverse(s)| == |s|
    ensures forall i :: 0 <= i < |s| ==> Reverse(s)[i] == s[|s| - 1 - i]
  {
    if s != [] {
      ReverseAt(s[1..]);
    }
  }

  /** Once `p` fails it fails for good: a scan that stops at the first failure is a filter. */
  ghost predicate OnceFalse<T>(s: seq<T>, p: T -> bool) {
    forall i, j :: 0 <= i < j < |s| && p(s[j]) ==> p(s[i])
  }

  lemma {:induction false} TakeWhileIsFilter<T>(s: seq<T>, p: T -> bool)
    requires OnceFalse(s, p)
    ensures TakeWhile(s, p) == Filter(s, p)
  {
    if s != [] {
      if p(s[0]) {
        TakeWhileIsFilter(s[1..], p);
      } else {
        FilterNone(s, p);
      }
    }
  }

  lemma {:induction false} DropWhileIsFilter<T>(s: seq<T>, p: T -> bool)
    requires OnceFalse(s, p)
    ensures DropWhile(s, p) == Filter(s, x => !p(x))
  {
    if s != [] {
      if p(s[0]) {
        DropWhileIsFilter(s[1..], p);
      } else {
        FilterAll(s, x => !p(x));
      }
    }
  }

  lemma {:induction false} FilterSubsequence<T>(s: seq<T>, p: T -> bool)
    ensures Subsequence(Filter(s, p), s)
  {
    if s != [] {
      FilterSubsequence(s[1..], p);
      if p(s[0]) {
        assert Filter(s, p)[1..] == Filter(s[1..], p);
      }
    }
  }

  lemma {:induction false} SubsequenceMembers<T>(a: seq<T>, b: seq<T>, x: T)
    requires Subsequence(a, b) && x in a
    ensures x in b
    decreases |b|
  {
    if a[0] == b[0] && Subsequence(a[1..], b[1..]) && x != a[0] {
      SubsequenceMembers(a[1..], b[1..], x);
    } else if !(a[0] == b[0] && Subsequence(a[1..], b[1..])) {
      SubsequenceMembers(a, b[1..], x);
    }
  }

  lemma {:induction false} SubsequenceSelf<T>(a: seq<T>)
    ensures Subsequence(a, a)
  {
    if a != [] {
      SubsequenceSelf(a[1..]);
    }
  }

  lemma {:induction false} SubsequenceTrans<T>(a: seq<T>, b: seq<T>, c: seq<T>)
    requires Subsequence(a, b) && Subsequence(b, c)
    ensures Subsequence(a, c)
    decreases |b| + |c|
  {
    if a != [] {
      if b[0] == c[0] && Subsequence(b[1..], c[1..]) {
        if a[0] == b[0] && Subsequence(a[1..], b[1..]) {
          SubsequenceTrans(a[1..], b[1..], c[1..]);
        } else {
          SubsequenceTrans(a, b[1..], c[1..]);
        }
      } else {
        SubsequenceTrans(a, b, c[1..]);
      }
    }
  }

  lemma {:induction false} TakeSubsequence<T>(s: seq<T>, n: nat)
    ensures Subsequence(Take(s, n), s)
  {
    if s != [] && n > 0 {
      TakeSubsequence(s[1..], n - 1);
      assert Take(s, n)[1..] == Take(s[1..], n - 1);
    }
  }
}
