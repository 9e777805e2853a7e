/**
 * Sequence operations the application uses through JavaScript's array API:
 * `filter`, `find`, `slice(0, n)` and the insertion-ordered de-duplication
 * performed by `[...new Set(xs)]`.
 */
module Seqs {

  datatype Option<+T> = None | Some(value: T)

  /** No element occurs twice. */
  predicate NoDuplicates<T(==)>(s: seq<T>) {
    forall i, j :: 0 <= i < j < |s| ==> s[i] != s[j]
  }

  /** `r` can be obtained from `s` by deleting elements, keeping the order of the rest. */
  ghost predicate SubsequenceOf<T>(r: seq<T>, s: seq<T>)
    decreases |s|
  {
    r == [] || (s != [] && ((r[0] == s[0] && SubsequenceOf(r[1..], s[1..])) || SubsequenceOf(r, s[1..])))
  }

  /** `Array.prototype.filter`: the elements of `s` that satisfy `p`, in their original order. */
  function Filter<T(!new)>(s: seq<T>, p: T -> bool): (r: seq<T>)
    ensures |r| <= |s|
    ensures forall x :: x in r <==> x in s && p(x)
  {
    if s == [] then [] else (if p(s[0]) then [s[0]] else []) + Filter(s[1..], p)
  }

  /** The predicate "is not an element of `a`", used to subtract one list from another. */
  function NotIn<T(==)>(a: seq<T>): T -> bool {
    x => x !in a
  }

  /** `Array.prototype.find`: the first element of `s` that satisfies `p`, if any. */
  function Find<T(!new)>(s: seq<T>, p: T -> bool): (r: Option<T>)
    ensures r.Some? ==> r.value in s && p(r.value)
    ensures r.None? <==> forall x :: x in s ==> !p(x)
  {
    if s == [] then None
    else if p(s[0]) then Some(s[0])
    else Find(s[1..], p)
  }

  /** `Find` returns the element at the first position that satisfies `p`. */
  lemma {:induction false} FindFirst<T(!new)>(s: seq<T>, p: T -> bool, i: nat)
    requires i < |s| && p(s[i])
    requires forall j :: 0 <= j < i ==> !p(s[j])
    ensures Find(s, p) == Some(s[i])
    decreases i
  {
    if i > 0 {
      FindFirst(s[1..], p, i - 1);
    }
  }

  /** `slice(0, n)`: the first `n` elements, or all of them when there are fewer. */
  function Take<T>(s: seq<T>, n: nat): (r: seq<T>)
    ensures r <= s
    ensures |r| == if |s| < n then |s| else n
  {
    if |s| <= n then s else s[..n]
  }

  /**
   * `[...new Set(s)]`: each element kept at its first occurrence, later repeats
   * dropped (a JavaScript Set iterates in insertion order).
   */
  function Dedup<T(==,!new)>(s: seq<T>): (r: seq<T>)
    ensures NoDuplicates(r)
    ensures forall x :: x in r <==> x in s
    decreases |s|
  {
    if s == [] then []
    else
      var r := Dedup(s[..|s| - 1]);
      if s[|s| - 1] in r then r else r + [s[|s| - 1]]
  }

  lemma {:induction false} FilterAppend<T(!new)>(a: seq<T>, b: seq<T>, p: T -> bool)
    ensures Filter(a + b, p) == Filter(a, p) + Filter(b, p)
    decreases |a|
  {
    if a == [] {
      assert a + b == b;
    } else {
      assert (a + b)[1..] == a[1..] + b;
      FilterAppend(a[1..], b, p);
    }
  }

  /** Filtering with a predicate every element satisfies changes nothing. */
  lemma {:induction false} FilterKeepsAll<T(!new)>(s: seq<T>, p: T -> bool)
    requires forall i :: 0 <= i < |s| ==> p(s[i])
    ensures Filter(s, p) == s
    decreases |s|
  {
    if s != [] {
      FilterKeepsAll(s[1..], p);
    }
  }

  /** Filtering with a predicate no element satisfies leaves nothing. */
  lemma {:induction false} FilterKeepsNone<T(!new)>(s: seq<T>, p: T -> bool)
    requires forall i :: 0 <= i < |s| ==> !p(s[i])
    ensures Filter(s, p) == []
    decreases |s|
  {
    if s != [] {
      FilterKeepsNone(s[1..], p);
    }
  }

  /** When exactly one position satisfies `p`, `filter` returns that one element. */
  lemma {:induction false} FilterSingle<T(!new)>(s: seq<T>, p: T -> bool, i: nat)
    requires i < |s| && p(s[i])
    requires forall j :: 0 <= j < |s| && j != i ==> !p(s[j])
    ensures Filter(s, p) == [s[i]]
    decreases i
  {
    if i == 0 {
      FilterKeepsNone(s[1..], p);
    } else {
      FilterSingle(s[1..], p, i - 1);
    }
  }

  /** The result of `filter` is a subsequence of its input: order is kept. */
  lemma {:induction false} FilterIsSubsequence<T(!new)>(s: seq<T>, p: T -> bool)
    ensures SubsequenceOf(Filter(s, p), s)
    decreases |s|
  {
    if s != [] {
      FilterIsSubsequence(s[1..], p);
      if p(s[0]) {
        assert Filter(s, p)[0] == s[0] && Filter(s, p)[1..] == Filter(s[1..], p);
      } else {
        assert Filter(s, p) == Filter(s[1..], p);
      }
    }
  }

  lemma {:induction false} FilterNoDuplicates<T(!new)>(s: seq<T>, p: T -> bool)
    requires NoDuplicates(s)
    ensures NoDuplicates(Filter(s, p))
    decreases |s|
  {
    if s != [] {
      assert NoDuplicates(s[1..]) by {
        forall i, j | 0 <= i < j < |s[1..]| ensures s[1..][i] != s[1..][j] {
          assert s[1..][i] == s[i + 1] && s[1..][j] == s[j + 1];
        }
      }
      FilterNoDuplicates(s[1..], p);
      assert s[0] !in s[1..] by {
        forall j | 0 <= j < |s[1..]| ensures s[1..][j] != s[0] { assert s[1..][j] == s[j + 1]; }
      }
    }
  }

  /** A prefix of a subsequence of `s` is itself a subsequence of `s`. */
  lemma {:induction false} SubsequencePrefix<T>(r: seq<T>, s: seq<T>, n: nat)
    requires SubsequenceOf(r, s)
    requires n <= |r|
    ensures SubsequenceOf(r[..n], s)
    decreases |s|
  {
    if n == 0 {
      assert r[..n] == [];
    } else if r[0] == s[0] && SubsequenceOf(r[1..], s[1..]) {
      SubsequencePrefix(r[1..], s[1..], n - 1);
      assert r[..n][0] == s[0] && r[..n][1..] == r[1..][..n - 1];
    } else {
      SubsequencePrefix(r, s[1..], n);
    }
  }

  /** `Take` of a filtered list is the filtered list's prefix and a subsequence of the input. */
  lemma TakeOfFilter<T(!new)>(s: seq<T>, p: T -> bool, n: nat)
    ensures SubsequenceOf(Take(Filter(s, p), n), s)
    ensures forall x :: x in Take(Filter(s, p), n) ==> x in s && p(x)
  {
    FilterIsSubsequence(s, p);
    var f := Filter(s, p);
    SubsequencePrefix(f, s, |Take(f, n)|);
    assert Take(f, n) == f[..|Take(f, n)|];
    forall x | x in Take(f, n) ensures x in f {
      var i :| 0 <= i < |Take(f, n)| && Take(f, n)[i] == x;
      assert f[i] == x;
    }
  }

  /** Dropping the last element of a repeat-free list leaves a repeat-free list without that element. */
  lemma DistinctInit<T>(s: seq<T>)
    requires s != [] && NoDuplicates(s)
    ensures NoDuplicates(s[..|s| - 1])
    ensures s[|s| - 1] !in s[..|s| - 1]
  {
    var init := s[..|s| - 1];
    forall i, j | 0 <= i < j < |init| ensures init[i] != init[j] {
      assert init[i] == s[i] && init[j] == s[j];
    }
    forall k | 0 <= k < |init| ensures init[k] != s[|s| - 1] {
      assert init[k] == s[k];
    }
  }

  /** A list that already has no repeats is left as it is by `Dedup`. */
  lemma {:induction false} DedupOfDistinct<T(!new)>(s: seq<T>)
    requires NoDuplicates(s)
    ensures Dedup(s) == s
    decreases |s|
  {
    if s != [] {
      var init := s[..|s| - 1];
      DistinctInit(s);
      DedupOfDistinct(init);
      assert init + [s[|s| - 1]] == s;
    }
  }

  /**
   * The insertion-ordered union of two repeat-free lists: all of `a`, then the
   * elements of `b` that are not in `a`, in `b`'s order.
   */
  lemma {:induction false} DedupUnion<T(!new)>(a: seq<T>, b: seq<T>)
    requires NoDuplicates(a) && NoDuplicates(b)
    ensures Dedup(a + b) == a + Filter(b, NotIn(a))
    decreases |b|
  {
    if b == [] {
      assert a + b == a;
      DedupOfDistinct(a);
    } else {
      var init := b[..|b| - 1];
      var y := b[|b| - 1];
      DistinctInit(b);
      DedupUnion(a, init);
      var r := a + Filter(init, NotIn(a));
      assert (a + b)[..|a + b| - 1] == a + init;
      assert (a + b)[|a + b| - 1] == y;
      assert Dedup(a + b) == if y in r then r else r + [y];
      assert y in r <==> y in a;
      assert init + [y] == b;
      FilterAppend(init, [y], NotIn(a));
      assert Filter([y], NotIn(a)) == if y in a then [] else [y];
    }
  }
}
