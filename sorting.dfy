/**
 * The stable sort behind Python's `sorted(...)` and pandas'
 * `sort_values(..., kind="mergesort")`: the result is ordered, holds the same
 * elements, and elements with equal keys keep their input order. It is written
 * as an insertion sort; any stable sort gives the same list.
 */
module Sorting {
  import opened Seqs

  /** `le` compares any two elements and is transitive: a sort key. */
  ghost predicate TotalPreorder<T(!new)>(le: (T, T) -> bool) {
    && (forall a, b :: le(a, b) || le(b, a))
    && (forall a, b, c :: le(a, b) && le(b, c) ==> le(a, c))
  }

  predicate SortedBy<T>(xs: seq<T>, le: (T, T) -> bool) {
    forall i, j :: 0 <= i < j < |xs| ==> le(xs[i], xs[j])
  }

  /** The elements whose key equals `z`'s. */
  function SameKey<T>(le: (T, T) -> bool, z: T): T -> bool {
    y => le(y, z) && le(z, y)
  }

  /** `x` placed after every element of `s` whose key is not greater than its own. */
  function Insert<T>(s: seq<T>, x: T, le: (T, T) -> bool): (r: seq<T>)
    ensures |r| == |s| + 1
  {
    if s == [] then [x]
    else if le(s[0], x) then [s[0]] + Insert(s[1..], x, le)
    else [x] + s
  }

  /** The elements of `xs`, each inserted in input order. */
  function SortBy<T>(xs: seq<T>, le: (T, T) -> bool): (r: seq<T>)
    ensures |r| == |xs|
  {
    if xs == [] then [] else Insert(SortBy(xs[..|xs| - 1], le), xs[|xs| - 1], le)
  }

  lemma {:induction false} InsertMultiset<T>(s: seq<T>, x: T, le: (T, T) -> bool)
    ensures multiset(Insert(s, x, le)) == multiset(s) + multiset{x}
  {
    if s != [] && le(s[0], x) {
      InsertMultiset(s[1..], x, le);
      assert s == [s[0]] + s[1..];
    }
  }

  /** Sorting neither loses nor adds an element. */
  lemma {:induction false} SortByPermutation<T>(xs: seq<T>, le: (T, T) -> bool)
    ensures multiset(SortBy(xs, le)) == multiset(xs)
  {
    if xs != [] {
      var init := xs[..|xs| - 1];
      SortByPermutation(init, le);
      InsertMultiset(SortBy(init, le), xs[|xs| - 1], le);
      assert xs == init + [xs[|xs| - 1]];
    }
  }

  lemma {:induction false} InsertSorted<T(!new)>(s: seq<T>, x: T, le: (T, T) -> bool)
    requires TotalPreorder(le) && SortedBy(s, le)
    ensures SortedBy(Insert(s, x, le), le)
    ensures forall i :: 0 <= i < |Insert(s, x, le)| ==> Insert(s, x, le)[i] == x || Insert(s, x, le)[i] in s
  {
    if s != [] {
      if le(s[0], x) {
        var rest := Insert(s[1..], x, le);
        InsertSorted(s[1..], x, le);
        var r := [s[0]] + rest;
        forall i, j | 0 <= i < j < |r| ensures le(r[i], r[j]) {
          if i == 0 {
            assert r[j] == rest[j - 1];
            if rest[j - 1] != x {
              var k :| 0 <= k < |s[1..]| && s[1..][k] == rest[j - 1];
              assert s[k + 1] == rest[j - 1];
            }
          } else {
            assert r[i] == rest[i - 1] && r[j] == rest[j - 1];
          }
        }
        forall i | 0 <= i < |r| ensures r[i] == x || r[i] in s {
          if i > 0 {
            assert r[i] == rest[i - 1];
            if rest[i - 1] != x {
              assert rest[i - 1] in s[1..];
            }
          }
        }
      } else {
        var r := [x] + s;
        forall i, j | 0 <= i < j < |r| ensures le(r[i], r[j]) {
          if i == 0 {
            assert le(x, s[0]);
            if j > 1 {
              assert le(s[0], s[j - 1]);
            }
          } else {
            assert r[i] == s[i - 1] && r[j] == s[j - 1];
          }
        }
      }
    }
  }

  /** The result is in key order. */
  lemma {:induction false} SortBySorted<T(!new)>(xs: seq<T>, le: (T, T) -> bool)
    requires TotalPreorder(le)
    ensures SortedBy(SortBy(xs, le), le)
  {
    if xs != [] {
      SortBySorted(xs[..|xs| - 1], le);
      InsertSorted(SortBy(xs[..|xs| - 1], le), xs[|xs| - 1], le);
    }
  }

  /** Inserting `x` into a sorted list puts it after every element with its key. */
  lemma {:induction false} InsertStable<T(!new)>(s: seq<T>, x: T, le: (T, T) -> bool, z: T)
    requires TotalPreorder(le) && SortedBy(s, le)
    ensures Filter(Insert(s, x, le), SameKey(le, z)) == Filter(s + [x], SameKey(le, z))
  {
    var p := SameKey(le, z);
    if s == [] {
      assert s + [x] == [x];
    } else if le(s[0], x) {
      InsertStable(s[1..], x, le, z);
      assert s + [x] == [s[0]] + (s[1..] + [x]);
      FilterCons(s[0], Insert(s[1..], x, le), p);
      FilterCons(s[0], s[1..] + [x], p);
    } else {
      InsertFront(s, x, le, z);
    }
  }

  /** `x` goes in front of a sorted list that starts above it; no element after it shares its key. */
  lemma InsertFront<T(!new)>(s: seq<T>, x: T, le: (T, T) -> bool, z: T)
    requires TotalPreorder(le) && SortedBy(s, le)
    requires s != [] && !le(s[0], x)
    ensures Filter([x] + s, SameKey(le, z)) == Filter(s + [x], SameKey(le, z))
  {
    var p := SameKey(le, z);
    FilterCons(x, s, p);
    FilterSnoc(s, x, p);
    if p(x) {
      NoneAfter(s, x, le, z);
    }
  }

  /** Every element of a sorted list that starts above `x` is above `x`, so none shares its key. */
  lemma NoneAfter<T(!new)>(s: seq<T>, x: T, le: (T, T) -> bool, z: T)
    requires TotalPreorder(le) && SortedBy(s, le)
    requires s != [] && !le(s[0], x) && SameKey(le, z)(x)
    ensures Filter(s, SameKey(le, z)) == []
  {
    var p := SameKey(le, z);
    forall i | 0 <= i < |s| ensures !p(s[i]) {
      if i > 0 {
        assert le(s[0], s[i]);
      }
    }
    FilterNone(s, p);
  }

  /** Stability: the elements sharing any one key appear in the result in their input order. */
  lemma {:induction false} SortByStable<T(!new)>(xs: seq<T>, le: (T, T) -> bool, z: T)
    requires TotalPreorder(le)
    ensures Filter(SortBy(xs, le), SameKey(le, z)) == Filter(xs, SameKey(le, z))
  {
    if xs != [] {
      var init := xs[..|xs| - 1];
      var x := xs[|xs| - 1];
      SortByStable(init, le, z);
      SortBySorted(init, le);
      InsertStable(SortBy(init, le), x, le, z);
      assert xs == init + [x];
      FilterSnoc(init, x, SameKey(le, z));
      FilterSnoc(SortBy(init, le), x, SameKey(le, z));
    }
  }
}
