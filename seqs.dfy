/** Generic list building: the filter-and-map and concatenation loops the scripts write out by hand. */
module Seqs {
  import opened Wrappers

  /** The values `f` gives for the elements of `xs`, in order, skipping `None`. */
  function FilterMap<T, U>(xs: seq<T>, f: T -> Option<U>): (r: seq<U>)
    ensures |r| <= |xs|
  {
    if xs == [] then []
    else
      var rest := FilterMap(xs[..|xs| - 1], f);
      match f(xs[|xs| - 1])
      case Some(u) => rest + [u]
      case None => rest
  }

  /** The loop that builds `FilterMap(xs, f)`, appending one value at a time. */
  method Collect<T, U>(xs: seq<T>, f: T -> Option<U>) returns (out: seq<U>)
    ensures out == FilterMap(xs, f)
  {
    out := [];
    var k := 0;
    while k < |xs|
      invariant 0 <= k <= |xs|
      invariant out == FilterMap(xs[..k], f)
    {
      FilterMapTake(xs, k, f);
      var r := f(xs[k]);
      if r.Some? {
        out := out + [r.value];
      }
      k := k + 1;
    }
    assert xs[..k] == xs;
  }

  /** A value is collected exactly when `f` gives it for some element. */
  lemma {:induction false} FilterMapMembers<T, U>(xs: seq<T>, f: T -> Option<U>, u: U)
    ensures u in FilterMap(xs, f) <==> exists i :: 0 <= i < |xs| && f(xs[i]) == Some(u)
  {
    if xs != [] {
      var init := xs[..|xs| - 1];
      FilterMapMembers(init, f, u);
      assert forall i :: 0 <= i < |init| ==> init[i] == xs[i];
      if exists i :: 0 <= i < |xs| && f(xs[i]) == Some(u) {
        var i :| 0 <= i < |xs| && f(xs[i]) == Some(u);
        if i < |init| {
          assert f(init[i]) == Some(u);
        }
      }
    }
  }

  /** A property every value of `f` has, every collected value has. */
  lemma {:induction false} FilterMapAll<T, U>(xs: seq<T>, f: T -> Option<U>, p: U -> bool)
    requires forall x :: f(x).Some? ==> p(f(x).value)
    ensures forall u :: u in FilterMap(xs, f) ==> p(u)
  {
    if xs != [] {
      FilterMapAll(xs[..|xs| - 1], f, p);
    }
  }

  /** Collecting over a list with one more element. */
  lemma FilterMapSnoc<T, U>(xs: seq<T>, x: T, f: T -> Option<U>)
    ensures FilterMap(xs + [x], f) == FilterMap(xs, f) + (match f(x) case Some(u) => [u] case None => [])
  {
    assert (xs + [x])[..|xs|] == xs;
  }

  /** Collecting over one more element of a prefix. */
  lemma FilterMapTake<T, U>(xs: seq<T>, k: nat, f: T -> Option<U>)
    requires k < |xs|
    ensures FilterMap(xs[..k + 1], f) == FilterMap(xs[..k], f) + (match f(xs[k]) case Some(u) => [u] case None => [])
  {
    assert xs[..k + 1][..k] == xs[..k];
  }

  /** Concatenation regrouped; stated once so that callers need not unfold their operands. */
  lemma AppendAssoc<T>(a: seq<T>, b: seq<T>, c: seq<T>)
    ensures a + b + c == a + (b + c)
  {
  }

  /** `f`'s lists for the elements of `xs`, concatenated in order. */
  function FlatMap<T, U>(xs: seq<T>, f: T -> seq<U>): seq<U> {
    if xs == [] then [] else FlatMap(xs[..|xs| - 1], f) + f(xs[|xs| - 1])
  }

  lemma FlatMapSnoc<T, U>(xs: seq<T>, x: T, f: T -> seq<U>)
    ensures FlatMap(xs + [x], f) == FlatMap(xs, f) + f(x)
  {
    assert (xs + [x])[..|xs|] == xs;
  }

  /** Concatenating over one more element of a prefix. */
  lemma FlatMapTake<T, U>(xs: seq<T>, k: nat, f: T -> seq<U>)
    requires k < |xs|
    ensures FlatMap(xs[..k + 1], f) == FlatMap(xs[..k], f) + f(xs[k])
  {
    assert xs[..k + 1][..k] == xs[..k];
  }

  lemma {:induction false} FlatMapAppend<T, U>(a: seq<T>, b: seq<T>, f: T -> seq<U>)
    ensures FlatMap(a + b, f) == FlatMap(a, f) + FlatMap(b, f)
    decreases |b|
  {
    if b == [] {
      assert a + b == a;
    } else {
      var init, x := b[..|b| - 1], b[|b| - 1];
      assert a + b == (a + init) + [x];
      assert b == init + [x];
      calc {
        FlatMap(a + b, f);
        { FlatMapSnoc(a + init, x, f); }
        FlatMap(a + init, f) + f(x);
        { FlatMapAppend(a, init, f); }
        FlatMap(a, f) + FlatMap(init, f) + f(x);
        { AppendAssoc(FlatMap(a, f), FlatMap(init, f), f(x)); FlatMapSnoc(init, x, f); }
        FlatMap(a, f) + FlatMap(b, f);
      }
    }
  }

  /** The elements of `xs` that satisfy `p`, in order (a list comprehension with an `if`). */
  function Filter<T>(xs: seq<T>, p: T -> bool): (r: seq<T>)
    ensures |r| <= |xs|
  {
    if xs == [] then []
    else
      var rest := Filter(xs[..|xs| - 1], p);
      if p(xs[|xs| - 1]) then rest + [xs[|xs| - 1]] else rest
  }

  lemma FilterSnoc<T>(xs: seq<T>, x: T, p: T -> bool)
    ensures Filter(xs + [x], p) == if p(x) then Filter(xs, p) + [x] else Filter(xs, p)
  {
    assert (xs + [x])[..|xs|] == xs;
  }

  /** An element is kept exactly when it is in the list and satisfies `p`. */
  lemma {:induction false} FilterMembers<T>(xs: seq<T>, p: T -> bool, x: T)
    ensures x in Filter(xs, p) <==> x in xs && p(x)
  {
    if xs != [] {
      var init := xs[..|xs| - 1];
      FilterMembers(init, p, x);
      assert xs == init + [xs[|xs| - 1]];
    }
  }

  /** Keeping everything keeps the list. */
  lemma {:induction false} FilterAll<T>(xs: seq<T>, p: T -> bool)
    requires forall i :: 0 <= i < |xs| ==> p(xs[i])
    ensures Filter(xs, p) == xs
  {
    if xs != [] {
      FilterAll(xs[..|xs| - 1], p);
      assert xs == xs[..|xs| - 1] + [xs[|xs| - 1]];
    }
  }

  /** Filtering distributes over concatenation. */
  lemma {:induction false} FilterAppend<T>(a: seq<T>, b: seq<T>, p: T -> bool)
    ensures Filter(a + b, p) == Filter(a, p) + Filter(b, p)
    decreases |b|
  {
    if b != [] {
      var init := b[..|b| - 1];
      FilterAppend(a, init, p);
      assert a + b == (a + init) + [b[|b| - 1]];
      FilterSnoc(a + init, b[|b| - 1], p);
      assert b == init + [b[|b| - 1]];
      FilterSnoc(init, b[|b| - 1], p);
    } else {
      assert a + b == a;
    }
  }

  /** Nothing satisfies `p`, so nothing is kept. */
  lemma {:induction false} FilterNone<T>(xs: seq<T>, p: T -> bool)
    requires forall i :: 0 <= i < |xs| ==> !p(xs[i])
    ensures Filter(xs, p) == []
  {
    if xs != [] {
      FilterNone(xs[..|xs| - 1], p);
    }
  }

  /** Tests that agree on the elements keep the same elements. */
  lemma {:induction false} FilterAgree<T>(xs: seq<T>, p: T -> bool, q: T -> bool)
    requires forall i :: 0 <= i < |xs| ==> p(xs[i]) == q(xs[i])
    ensures Filter(xs, p) == Filter(xs, q)
  {
    if xs != [] {
      FilterAgree(xs[..|xs| - 1], p, q);
    }
  }

  /** Two filters in a row keep what satisfies both. */
  lemma {:induction false} FilterFilter<T>(xs: seq<T>, p: T -> bool, q: T -> bool, pq: T -> bool)
    requires forall x :: pq(x) == (p(x) && q(x))
    ensures Filter(Filter(xs, p), q) == Filter(xs, pq)
  {
    if xs != [] {
      var init := xs[..|xs| - 1];
      var x := xs[|xs| - 1];
      FilterFilter(init, p, q, pq);
      if p(x) {
        FilterSnoc(Filter(init, p), x, q);
      }
    }
  }

  /** Python's `xs[-k:]` for `k >= 1`: the last `k` elements, or all of them when there are fewer. */
  function LastN<T>(xs: seq<T>, k: nat): (r: seq<T>)
    ensures |r| == if k < |xs| then k else |xs|
    ensures r == xs[|xs| - |r|..]
  {
    if k < |xs| then xs[|xs| - k..] else xs
  }

  /** Every element is kept by `p` or by its negation, never both. */
  lemma {:induction false} FilterSplit<T>(xs: seq<T>, p: T -> bool, q: T -> bool)
    requires forall x :: q(x) == !p(x)
    ensures |Filter(xs, p)| + |Filter(xs, q)| == |xs|
  {
    if xs != [] {
      FilterSplit(xs[..|xs| - 1], p, q);
    }
  }

  /** The first index from `from` on whose element satisfies `p` (a `for` loop with an early `return`). */
  function FirstWhere<T>(xs: seq<T>, p: T -> bool, from: nat): (k: Option<nat>)
    requires from <= |xs|
    ensures k.Some? ==> from <= k.value < |xs| && p(xs[k.value])
                        && forall j :: from <= j < k.value ==> !p(xs[j])
    ensures k.None? ==> forall j :: from <= j < |xs| ==> !p(xs[j])
    decreases |xs| - from
  {
    if from == |xs| then None
    else if p(xs[from]) then Some(from)
    else FirstWhere(xs, p, from + 1)
  }

  /** Collecting distributes over concatenation. */
  lemma {:induction false} FilterMapAppend<T, U>(a: seq<T>, b: seq<T>, f: T -> Option<U>)
    ensures FilterMap(a + b, f) == FilterMap(a, f) + FilterMap(b, f)
    decreases |b|
  {
    if b == [] {
      assert a + b == a;
    } else {
      var init := b[..|b| - 1];
      var x := b[|b| - 1];
      FilterMapAppend(a, init, f);
      assert a + b == (a + init) + [x];
      assert b == init + [x];
      FilterMapSnoc(a + init, x, f);
      FilterMapSnoc(init, x, f);
    }
  }

  /** A weaker test keeps at least as many elements. */
  lemma {:induction false} FilterLenMono<T>(xs: seq<T>, p: T -> bool, q: T -> bool)
    requires forall i :: 0 <= i < |xs| && p(xs[i]) ==> q(xs[i])
    ensures |Filter(xs, p)| <= |Filter(xs, q)|
  {
    if xs != [] {
      FilterLenMono(xs[..|xs| - 1], p, q);
    }
  }

  /** ... and strictly more when it keeps an element the stronger one drops. */
  lemma {:induction false} FilterLenStrict<T>(xs: seq<T>, p: T -> bool, q: T -> bool, k: nat)
    requires forall i :: 0 <= i < |xs| && p(xs[i]) ==> q(xs[i])
    requires k < |xs| && q(xs[k]) && !p(xs[k])
    ensures |Filter(xs, p)| < |Filter(xs, q)|
  {
    var init := xs[..|xs| - 1];
    if k == |xs| - 1 {
      FilterLenMono(init, p, q);
    } else {
      assert init[k] == xs[k];
      FilterLenStrict(init, p, q, k);
    }
  }

  /** Two tests that never hold together keep, between them, what their disjunction keeps. */
  lemma {:induction false} FilterDisjoint<T>(xs: seq<T>, p: T -> bool, q: T -> bool, pq: T -> bool)
    requires forall i :: 0 <= i < |xs| ==> pq(xs[i]) == (p(xs[i]) || q(xs[i])) && !(p(xs[i]) && q(xs[i]))
    ensures |Filter(xs, pq)| == |Filter(xs, p)| + |Filter(xs, q)|
  {
    if xs != [] {
      FilterDisjoint(xs[..|xs| - 1], p, q, pq);
    }
  }

  /** An element that passes the test is kept, so something is kept. */
  lemma FilterHas<T>(xs: seq<T>, p: T -> bool, k: nat)
    requires k < |xs| && p(xs[k])
    ensures |Filter(xs, p)| >= 1
  {
    FilterMembers(xs, p, xs[k]);
  }

  /** Filtering a list that starts with `a`. */
  /** Two sequences agreeing at every index are equal. */
  lemma SameAt<T>(a: seq<T>, b: seq<T>)
    requires |a| == |b| && forall i :: 0 <= i < |a| ==> a[i] == b[i]
    ensures a == b
  {
  }

  lemma FilterCons<T>(a: T, xs: seq<T>, p: T -> bool)
    ensures Filter([a] + xs, p) == (if p(a) then [a] else []) + Filter(xs, p)
  {
    FilterAppend([a], xs, p);
    assert [a][..0] == [];
  }
}
