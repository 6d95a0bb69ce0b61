/** Sequence operations behind `Array.prototype.filter`, `[...new Set(xs)]`
    and the count of fixed-size batches. */
module Seqs {
  import opened Common

  /** `r` can be obtained from `s` by deleting elements: order is preserved. */
  ghost predicate IsSubsequence<T>(r: seq<T>, s: seq<T>)
    decreases |s|
  {
    if r == [] then true
    else if s == [] then false
    else (IsSubsequence(r, s[..|s| - 1])
          || (r[|r| - 1] == s[|s| - 1] && IsSubsequence(r[..|r| - 1], s[..|s| - 1])))
  }

  /** `Array.prototype.filter`. */
  function Filter<T>(s: seq<T>, p: T -> bool): (r: seq<T>)
    ensures |r| <= |s|
    ensures forall k :: 0 <= k < |r| ==> p(r[k])
    ensures forall k :: 0 <= k < |s| && p(s[k]) ==> s[k] in r
    ensures forall k :: 0 <= k < |r| ==> r[k] in s
  {
    if s == [] then []
    else
      var front := Filter(s[..|s| - 1], p);
      assert forall k :: 0 <= k < |s| - 1 ==> s[k] == s[..|s| - 1][k];
      if p(s[|s| - 1]) then front + [s[|s| - 1]] else front
  }

  /** The filter keeps the order of what it keeps. */
  lemma {:induction false} FilterIsSubsequence<T>(s: seq<T>, p: T -> bool)
    ensures IsSubsequence(Filter(s, p), s)
  {
    if s != [] {
      FilterIsSubsequence(s[..|s| - 1], p);
      var front := Filter(s[..|s| - 1], p);
      if p(s[|s| - 1]) {
        assert (front + [s[|s| - 1]])[..|front|] == front;
      }
    }
  }

  /** A filter that rejects nothing returns its input. */
  lemma {:induction false} FilterKeepsAll<T>(s: seq<T>, p: T -> bool)
    requires forall k :: 0 <= k < |s| ==> p(s[k])
    ensures Filter(s, p) == s
  {
    if s != [] {
      FilterKeepsAll(s[..|s| - 1], p);
      assert s[..|s| - 1] + [s[|s| - 1]] == s;
    }
  }

  /** Two filters in a row are one filter with both conditions. */
  lemma {:induction false} FilterFilter<T>(s: seq<T>, p: T -> bool, q: T -> bool, pq: T -> bool)
    requires forall x :: pq(x) == (p(x) && q(x))
    ensures Filter(Filter(s, p), q) == Filter(s, pq)
  {
    if s != [] {
      FilterFilter(s[..|s| - 1], p, q, pq);
      var front := Filter(s[..|s| - 1], p);
      if p(s[|s| - 1]) {
        assert (front + [s[|s| - 1]])[..|front|] == front;
      }
    }
  }

  /** Filtering a concatenation filters each part. */
  lemma {:induction false} FilterAppend<T>(a: seq<T>, b: seq<T>, p: T -> bool)
    ensures Filter(a + b, p) == Filter(a, p) + Filter(b, p)
  {
    if b != [] {
      var b' := b[..|b| - 1];
      FilterAppend(a, b', p);
      assert (a + b)[..|a + b| - 1] == a + b';
    } else {
      assert a + b == a;
    }
  }

  /** If every element kept by `p` is kept by `q` or by `r`, then `p` keeps no
      more elements than `q` and `r` together. */
  lemma {:induction false} FilterCountCover<T>(s: seq<T>, p: T -> bool, q: T -> bool, r: T -> bool)
    requires forall k :: 0 <= k < |s| && p(s[k]) ==> q(s[k]) || r(s[k])
    ensures |Filter(s, p)| <= |Filter(s, q)| + |Filter(s, r)|
  {
    if s != [] {
      assert forall k :: 0 <= k < |s| - 1 ==> s[..|s| - 1][k] == s[k];
      FilterCountCover(s[..|s| - 1], p, q, r);
    }
  }

  /** Two filters that never keep the same element keep at most `|s|` together. */
  lemma {:induction false} FilterCountDisjoint<T>(s: seq<T>, q: T -> bool, r: T -> bool)
    requires forall k :: 0 <= k < |s| ==> !(q(s[k]) && r(s[k]))
    ensures |Filter(s, q)| + |Filter(s, r)| <= |s|
  {
    if s != [] {
      assert forall k :: 0 <= k < |s| - 1 ==> s[..|s| - 1][k] == s[k];
      FilterCountDisjoint(s[..|s| - 1], q, r);
    }
  }

  /** Filters that agree on every element give the same result. */
  lemma {:induction false} FilterSame<T>(s: seq<T>, p: T -> bool, q: T -> bool)
    requires forall k :: 0 <= k < |s| ==> p(s[k]) == q(s[k])
    ensures Filter(s, p) == Filter(s, q)
  {
    if s != [] {
      assert forall k :: 0 <= k < |s| - 1 ==> s[..|s| - 1][k] == s[k];
      FilterSame(s[..|s| - 1], p, q);
    }
  }

  /** The results `f` gives, in order, for the elements on which it gives one. */
  function FilterMap<A, B>(s: seq<A>, f: A -> Option<B>): (r: seq<B>)
    ensures |r| <= |s|
    ensures forall k :: 0 <= k < |r| ==> exists i :: 0 <= i < |s| && f(s[i]) == Some(r[k])
    ensures forall i :: 0 <= i < |s| && f(s[i]).Some? ==> f(s[i]).value in r
  {
    if s == [] then []
    else
      var front := FilterMap(s[..|s| - 1], f);
      assert forall i :: 0 <= i < |s| - 1 ==> s[..|s| - 1][i] == s[i];
      match f(s[|s| - 1])
      case None => front
      case Some(y) =>
        assert forall k :: 0 <= k < |front| ==> (front + [y])[k] == front[k];
        front + [y]
  }

  /** One more element of the input adds its result, if any, at the end. */
  lemma FilterMapPrefix<A, B>(s: seq<A>, j: nat, f: A -> Option<B>)
    requires j < |s|
    ensures FilterMap(s[..j + 1], f) == FilterMap(s[..j], f) + (match f(s[j]) case None => [] case Some(y) => [y])
  {
    assert s[..j + 1][..j] == s[..j];
  }

  /** `FilterMap` gives one result per element on which `f` gives one. */
  lemma {:induction false} FilterMapCount<A, B>(s: seq<A>, f: A -> Option<B>, p: A -> bool)
    requires forall k :: 0 <= k < |s| ==> p(s[k]) == f(s[k]).Some?
    ensures |FilterMap(s, f)| == |Filter(s, p)|
  {
    if s != [] {
      assert forall k :: 0 <= k < |s| - 1 ==> s[..|s| - 1][k] == s[k];
      FilterMapCount(s[..|s| - 1], f, p);
    }
  }

  /** The distinct elements of `s` in order of first occurrence: `[...new Set(s)]`. */
  function Distinct<T(==)>(s: seq<T>): (r: seq<T>)
    ensures forall i, j :: 0 <= i < j < |r| ==> r[i] != r[j]
    ensures forall k :: 0 <= k < |r| ==> r[k] in s
    ensures forall k :: 0 <= k < |s| ==> s[k] in r
  {
    if s == [] then []
    else
      var front := Distinct(s[..|s| - 1]);
      assert s == s[..|s| - 1] + [s[|s| - 1]];
      if s[|s| - 1] in front then front else front + [s[|s| - 1]]
  }

  /** An element of a sequence without repeats occurs in it once. */
  lemma {:induction false} DistinctOnce<T>(s: seq<T>, x: T)
    requires forall i, j :: 0 <= i < j < |s| ==> s[i] != s[j]
    ensures multiset(s)[x] <= 1
  {
    if s != [] {
      assert s == [s[0]] + s[1..];
      DistinctOnce(s[1..], x);
      if s[0] == x {
        assert x !in s[1..];
      }
    }
  }

  /** An element at two positions occurs at least twice. */
  lemma TwiceCounted<T>(s: seq<T>, i: nat, j: nat)
    requires i < j < |s| && s[i] == s[j]
    ensures multiset(s)[s[i]] >= 2
  {
    assert s == s[..i] + [s[i]] + s[i + 1..j] + [s[j]] + s[j + 1..];
  }

  /** A reordering of a sequence without repeats has none either. */
  lemma PermutationDistinct<T>(a: seq<T>, b: seq<T>)
    requires multiset(a) == multiset(b)
    requires forall i, j :: 0 <= i < j < |a| ==> a[i] != a[j]
    ensures forall i, j :: 0 <= i < j < |b| ==> b[i] != b[j]
  {
    forall i, j | 0 <= i < j < |b| ensures b[i] != b[j] {
      if b[i] == b[j] {
        TwiceCounted(b, i, j);
        DistinctOnce(a, b[i]);
      }
    }
  }

  /** ceil(n / size) written out, for a batch count. */
  function CeilDiv(n: nat, size: nat): nat
    requires size > 0
    decreases n
  {
    if n == 0 then 0 else if n <= size then 1 else 1 + CeilDiv(n - size, size)
  }

  /** `CeilDiv` is the least number of batches of `size` that hold `n` items. */
  lemma {:induction false} CeilDivBounds(n: nat, size: nat)
    requires size > 0
    ensures CeilDiv(n, size) * size >= n
    ensures n > 0 ==> (CeilDiv(n, size) - 1) * size < n
    decreases n
  {
    if n > size {
      CeilDivBounds(n - size, size);
      var c := CeilDiv(n - size, size);
      assert CeilDiv(n, size) == c + 1;
      assert (c + 1) * size == c * size + size;
      assert c > 0;
      assert (c - 1) * size == c * size - size;
    }
  }

  /** A batch count with the bounds of `CeilDivBounds` is `CeilDiv`. */
  lemma {:induction false} CeilDivUnique(n: nat, size: nat, k: nat)
    requires size > 0
    requires k * size >= n
    requires k > 0 ==> (k - 1) * size < n
    requires n == 0 ==> k == 0
    ensures k == CeilDiv(n, size)
    decreases n
  {
    if n > size {
      assert k > 1;
      assert (k - 1) * size == k * size - size;
      assert (k - 2) * size == (k - 1) * size - size;
      CeilDivUnique(n - size, size, k - 1);
    } else if n > 0 {
      assert k == 1;
    }
  }
}
