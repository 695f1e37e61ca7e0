/** Generic sequence operations that mirror the JavaScript array methods the
    cart, the menu page and the product modal are written with:
    `filter`, `find`, `forEach` + `push` of the found elements, and `reduce`
    with `+`. */
module Seqs {
  import opened Wrappers

  /** `a` can be obtained from `b` by deleting elements: `a` keeps the
      relative order of the elements it takes from `b`. */
  predicate IsSubseq<T(==)>(a: seq<T>, b: seq<T>)
    decreases |b|
  {
    if |a| == 0 then true
    else if |b| == 0 then false
    else (a[0] == b[0] && IsSubseq(a[1..], b[1..])) || IsSubseq(a, b[1..])
  }

  /** No element occurs twice. */
  predicate NoDup<T(==)>(s: seq<T>) {
    |s| == 0 || (s[0] !in s[1..] && NoDup(s[1..]))
  }

  /** `Array.prototype.filter`: keep, in order, the elements satisfying `p`. */
  function Filter<T(==,!new)>(p: T -> bool, s: seq<T>): (r: seq<T>)
    ensures |r| <= |s|
    ensures forall x :: x in r <==> x in s && p(x)
    ensures forall x :: multiset(r)[x] == if p(x) then multiset(s)[x] else 0
    ensures IsSubseq(r, s)
    ensures NoDup(s) ==> NoDup(r)
  {
    if |s| == 0 then []
    else
      var rest := Filter(p, s[1..]);
      assert s == [s[0]] + s[1..];
      if p(s[0]) then
        assert ([s[0]] + rest)[1..] == rest;
        [s[0]] + rest
      else
        rest
  }

  /** `Array.prototype.find`: the first element satisfying `p`, if any. */
  function Find<T(==)>(p: T -> bool, s: seq<T>): (r: Option<T>)
    ensures r.None? <==> forall i :: 0 <= i < |s| ==> !p(s[i])
    ensures r.Some? ==> exists i :: 0 <= i < |s| && s[i] == r.value && p(s[i]) && forall j :: 0 <= j < i ==> !p(s[j])
  {
    if |s| == 0 then None
    else if p(s[0]) then Some(s[0])
    else
      var r := Find(p, s[1..]);
      if r.Some? then
        var i :| 0 <= i < |s[1..]| && s[1..][i] == r.value && p(s[1..][i]) && forall j :: 0 <= j < i ==> !p(s[1..][j]);
        assert s[i + 1] == r.value && forall j :: 0 <= j < i + 1 ==> !p(s[j]);
        r
      else
        assert forall i :: 1 <= i < |s| ==> s[i] == s[1..][i - 1];
        r
  }

  /** A `forEach` that pushes `f(x)` for each element `x` whose lookup
      succeeds, in order. */
  function FilterMap<T, U>(f: T -> Option<U>, s: seq<T>): (r: seq<U>)
    ensures |r| <= |s|
    ensures forall y :: y in r ==> exists x :: x in s && f(x) == Some(y)
    ensures forall i :: 0 <= i < |s| && f(s[i]).Some? ==> f(s[i]).value in r
  {
    if |s| == 0 then []
    else
      var rest := FilterMap(f, s[1..]);
      assert forall x :: x in s[1..] ==> x in s;
      assert forall i :: 1 <= i < |s| ==> s[i] == s[1..][i - 1];
      match f(s[0])
      case Some(y) => [y] + rest
      case None => rest
  }

  /** `reduce((total, x) => total + f(x), 0)`. */
  function Sum<T>(f: T -> int, s: seq<T>): int
  {
    if |s| == 0 then 0 else f(s[0]) + Sum(f, s[1..])
  }

  lemma {:induction false} SumAppend<T>(f: T -> int, a: seq<T>, b: seq<T>)
    ensures Sum(f, a + b) == Sum(f, a) + Sum(f, b)
    decreases |a|
  {
    if |a| == 0 {
      assert a + b == b;
    } else {
      assert (a + b)[1..] == a[1..] + b;
      SumAppend(f, a[1..], b);
    }
  }

  lemma {:induction false} FilterMapAppend<T, U>(f: T -> Option<U>, a: seq<T>, b: seq<T>)
    ensures FilterMap(f, a + b) == FilterMap(f, a) + FilterMap(f, b)
    decreases |a|
  {
    if |a| == 0 {
      assert a + b == b;
    } else {
      assert (a + b)[1..] == a[1..] + b;
      FilterMapAppend(f, a[1..], b);
    }
  }

  lemma {:induction false} FilterAppend<T(!new)>(p: T -> bool, a: seq<T>, b: seq<T>)
    ensures Filter(p, a + b) == Filter(p, a) + Filter(p, b)
    decreases |a|
  {
    if |a| == 0 {
      assert a + b == b;
    } else {
      assert (a + b)[1..] == a[1..] + b;
      FilterAppend(p, a[1..], b);
    }
  }

  /** Filtering with a predicate every element satisfies is the identity. */
  lemma {:induction false} FilterAllPass<T(!new)>(p: T -> bool, s: seq<T>)
    ensures (forall i :: 0 <= i < |s| ==> p(s[i])) ==> Filter(p, s) == s
  {
    if |s| > 0 {
      FilterAllPass(p, s[1..]);
      assert forall i :: 0 <= i < |s| - 1 ==> s[1..][i] == s[i + 1];
      assert s == [s[0]] + s[1..];
    }
  }

  /** Filtering with a predicate no element satisfies leaves nothing. */
  lemma FilterNonePass<T(!new)>(p: T -> bool, s: seq<T>)
    requires forall i :: 0 <= i < |s| ==> !p(s[i])
    ensures Filter(p, s) == []
  {
  }

  /** Filtering twice with the same predicate changes nothing the second time. */
  lemma FilterIdempotent<T(!new)>(p: T -> bool, s: seq<T>)
    ensures Filter(p, Filter(p, s)) == Filter(p, s)
  {
    var r := Filter(p, s);
    assert forall i :: 0 <= i < |r| ==> r[i] in r;
    FilterAllPass(p, r);
  }

  /** Two predicates that agree everywhere filter alike. */
  lemma {:induction false} FilterExt<T(!new)>(p: T -> bool, q: T -> bool, s: seq<T>)
    requires forall x :: p(x) == q(x)
    ensures Filter(p, s) == Filter(q, s)
  {
    if |s| > 0 {
      FilterExt(p, q, s[1..]);
    }
  }

  lemma SubseqCons<T>(x: T, a: seq<T>, b: seq<T>)
    requires IsSubseq(a, b)
    ensures IsSubseq(a, [x] + b)
  {
    if |a| > 0 {
      assert ([x] + b)[1..] == b;
    }
  }

  /** Filtering with a stronger predicate keeps a subsequence of what the
      weaker predicate keeps. */
  lemma {:induction false} FilterStronger<T(!new)>(p: T -> bool, q: T -> bool, s: seq<T>)
    requires forall x :: p(x) ==> q(x)
    ensures IsSubseq(Filter(p, s), Filter(q, s))
  {
    if |s| > 0 {
      FilterStronger(p, q, s[1..]);
      var fp, fq := Filter(p, s[1..]), Filter(q, s[1..]);
      if p(s[0]) {
        assert ([s[0]] + fp)[1..] == fp && ([s[0]] + fq)[1..] == fq;
      } else if q(s[0]) {
        SubseqCons(s[0], fp, fq);
      }
    }
  }

  lemma {:induction false} NoDupAppend<T>(s: seq<T>, x: T)
    ensures NoDup(s) && x !in s ==> NoDup(s + [x])
  {
    if |s| > 0 && NoDup(s) && x !in s {
      assert (s + [x])[1..] == s[1..] + [x];
      NoDupAppend(s[1..], x);
    }
  }

  /** A sequence holding two different values has at least two elements. */
  lemma TwoDistinctMembers<T>(s: seq<T>, x: T, y: T)
    requires x in s && y in s && x != y
    ensures |s| >= 2
  {
  }

  /** One more element of a prefix adds its value to the running sum. */
  lemma SumPrefixStep<T>(f: T -> int, s: seq<T>, i: int)
    requires 0 <= i < |s|
    ensures Sum(f, s[..i + 1]) == Sum(f, s[..i]) + f(s[i])
  {
    assert s[..i + 1] == s[..i] + [s[i]];
    SumAppend(f, s[..i], [s[i]]);
  }

  /** One more element of a prefix pushes its lookup result, if any. */
  lemma FilterMapPrefixStep<T, U>(f: T -> Option<U>, s: seq<T>, i: int)
    requires 0 <= i < |s|
    ensures FilterMap(f, s[..i + 1]) == FilterMap(f, s[..i]) + (match f(s[i]) case Some(y) => [y] case None => [])
  {
    assert s[..i + 1] == s[..i] + [s[i]];
    FilterMapAppend(f, s[..i], [s[i]]);
  }

  /** The same step for a running sum scaled by a factor. */
  lemma ScaledSumPrefixStep<T>(f: T -> int, s: seq<T>, i: int, k: int)
    requires 0 <= i < |s|
    ensures Sum(f, s[..i + 1]) * k == Sum(f, s[..i]) * k + f(s[i]) * k
  {
    SumPrefixStep(f, s, i);
    var a, b := Sum(f, s[..i]), f(s[i]);
    assert (a + b) * k == a * k + b * k;
  }

  /** When every lookup succeeds, nothing is dropped: the result is the
      looked-up values, position by position. */
  lemma {:induction false} FilterMapAllSome<T, U>(f: T -> Option<U>, s: seq<T>)
    requires forall i :: 0 <= i < |s| ==> f(s[i]).Some?
    ensures |FilterMap(f, s)| == |s|
    ensures forall i :: 0 <= i < |s| ==> FilterMap(f, s)[i] == f(s[i]).value
  {
    if |s| > 0 {
      assert forall i :: 0 <= i < |s| - 1 ==> s[1..][i] == s[i + 1];
      FilterMapAllSome(f, s[1..]);
      assert f(s[0]).Some?;
    }
  }

  /** Two lookups whose every result is present, followed by a tail: each
      part's values sit in order at their own offsets. */
  lemma FilterMapPairAllSome<T, U>(f: T -> Option<U>, xs: seq<T>, g: T -> Option<U>, ys: seq<T>, c: seq<U>)
    requires forall i :: 0 <= i < |xs| ==> f(xs[i]).Some?
    requires forall i :: 0 <= i < |ys| ==> g(ys[i]).Some?
    ensures |FilterMap(f, xs) + FilterMap(g, ys) + c| == |xs| + |ys| + |c|
    ensures forall i :: 0 <= i < |xs| ==> (FilterMap(f, xs) + FilterMap(g, ys) + c)[i] == f(xs[i]).value
    ensures forall i :: 0 <= i < |ys| ==> (FilterMap(f, xs) + FilterMap(g, ys) + c)[|xs| + i] == g(ys[i]).value
    ensures forall i :: 0 <= i < |c| ==> (FilterMap(f, xs) + FilterMap(g, ys) + c)[|xs| + |ys| + i] == c[i]
  {
    FilterMapAllSome(f, xs);
    FilterMapAllSome(g, ys);
  }

  // Proof helper: a step about concatenation, kept out of the caller's
  // larger proof.

  /** Three pushes onto an empty accumulator build the concatenation of the
      three parts. */
  lemma ConcatFromEmpty<T>(a: seq<T>, b: seq<T>, c: seq<T>, x: seq<T>, y: seq<T>, z: seq<T>)
    requires x == [] + a && y == x + b && z == y + c
    ensures z == a + b + c
  {
    assert x == a;
  }
}
