/** Counter objects, as the source builds them with
    `counter[k] = (counter[k] || 0) + 1`, and what it does with them afterwards:
    `Object.entries(counter).sort(([,a], [,b]) => b - a)`, the first entry of
    that sort (a "leader"), and its first ten entries (a ranking).

    A counter is the sequence of its entries in insertion order, which is the
    order `Object.entries` and `Object.keys` return for keys that are not
    integer-like. */
module Tallies {
  import opened Seqs

  datatype Entry = Entry(key: string, count: nat)

  type Counter = seq<Entry>

  /** What `obterResumo` and `calcularEstatisticas` show when there is no leader. */
  const NotAvailable: string := "N/A"

  function KeysOf(t: Counter): (ks: seq<string>)
    ensures |ks| == |t|
    ensures forall i :: 0 <= i < |t| ==> ks[i] == t[i].key
  {
    seq(|t|, i requires 0 <= i < |t| => t[i].key)
  }

  function CountsOf(t: Counter): (vs: seq<nat>)
    ensures |vs| == |t|
    ensures forall i :: 0 <= i < |t| ==> vs[i] == t[i].count
  {
    seq(|t|, i requires 0 <= i < |t| => t[i].count)
  }

  /** The sum of all counts. */
  function Total(t: Counter): nat
  {
    if t == [] then 0 else t[0].count + Total(t[1..])
  }

  /** `counter[k] || 0`. */
  function CountOf(t: Counter, k: string): nat
  {
    if t == [] then 0 else if t[0].key == k then t[0].count else CountOf(t[1..], k)
  }

  /** `counter[k] = (counter[k] || 0) + 1`: a new key goes to the end. */
  function Increment(t: Counter, k: string): Counter
  {
    if t == [] then [Entry(k, 1)]
    else if t[0].key == k then [Entry(k, t[0].count + 1)] + t[1..]
    else [t[0]] + Increment(t[1..], k)
  }

  /** The counter built by counting `labels` one after the other. */
  function Tally(labels: seq<string>): Counter
  {
    if labels == [] then [] else Increment(Tally(labels[..|labels| - 1]), labels[|labels| - 1])
  }

  /** With distinct keys, the count of the key at position `i` is the count there. */
  lemma {:induction false} CountOfAt(t: Counter, i: nat)
    requires i < |t|
    requires forall a, b :: 0 <= a < b < |t| ==> t[a].key != t[b].key
    ensures CountOf(t, t[i].key) == t[i].count
  {
    if i > 0 {
      CountOfAt(t[1..], i - 1);
    }
  }

  /** One increment adds one to the total. */
  lemma {:induction false} IncrementTotal(t: Counter, k: string)
    ensures Total(Increment(t, k)) == Total(t) + 1
  {
    if t != [] && t[0].key != k {
      IncrementTotal(t[1..], k);
    }
  }

  /** One increment adds one to the count of its key and nothing to the others. */
  lemma {:induction false} IncrementCount(t: Counter, k: string, j: string)
    ensures CountOf(Increment(t, k), j) == CountOf(t, j) + (if j == k then 1 else 0)
  {
    if t != [] && t[0].key != k {
      IncrementCount(t[1..], k, j);
    }
  }

  /** One increment appends its key when it is new. */
  lemma {:induction false} IncrementKeys(t: Counter, k: string)
    ensures KeysOf(Increment(t, k)) == if k in KeysOf(t) then KeysOf(t) else KeysOf(t) + [k]
  {
    if t != [] && t[0].key != k {
      IncrementKeys(t[1..], k);
      assert KeysOf(t) == [t[0].key] + KeysOf(t[1..]);
      assert KeysOf(Increment(t, k)) == [t[0].key] + KeysOf(Increment(t[1..], k));
    } else if t != [] {
      assert KeysOf(Increment(t, k)) == KeysOf(t);
    }
  }

  /** One increment keeps counts positive. */
  lemma {:induction false} IncrementPositive(t: Counter, k: string)
    requires forall i :: 0 <= i < |t| ==> t[i].count > 0
    ensures forall i :: 0 <= i < |Increment(t, k)| ==> Increment(t, k)[i].count > 0
  {
    if t != [] && t[0].key != k {
      IncrementPositive(t[1..], k);
      assert forall i :: 1 <= i < |Increment(t, k)| ==> Increment(t, k)[i] == Increment(t[1..], k)[i - 1];
    } else if t != [] {
      assert Increment(t, k)[1..] == t[1..];
    }
  }

  /** The counts of a tally add up to the number of labels counted. */
  lemma {:induction false} TallyTotal(labels: seq<string>)
    ensures Total(Tally(labels)) == |labels|
  {
    if labels != [] {
      TallyTotal(labels[..|labels| - 1]);
      IncrementTotal(Tally(labels[..|labels| - 1]), labels[|labels| - 1]);
    }
  }

  /** Each key's count is the number of times its label occurs. */
  lemma {:induction false} TallyCount(labels: seq<string>, k: string)
    ensures CountOf(Tally(labels), k) == multiset(labels)[k]
  {
    if labels != [] {
      var front := labels[..|labels| - 1];
      TallyCount(front, k);
      IncrementCount(Tally(front), labels[|labels| - 1], k);
      assert labels == front + [labels[|labels| - 1]];
      assert multiset(labels) == multiset(front) + multiset{labels[|labels| - 1]};
    }
  }

  /** The keys of a tally are the distinct labels in order of first occurrence,
      and every count is positive. */
  lemma {:induction false} TallyKeys(labels: seq<string>)
    ensures KeysOf(Tally(labels)) == Distinct(labels)
    ensures forall i :: 0 <= i < |Tally(labels)| ==> Tally(labels)[i].count > 0
  {
    if labels != [] {
      var front := labels[..|labels| - 1];
      TallyKeys(front);
      IncrementKeys(Tally(front), labels[|labels| - 1]);
      IncrementPositive(Tally(front), labels[|labels| - 1]);
    }
  }

  /** The keys of a tally are pairwise distinct. */
  lemma TallyDistinctKeys(labels: seq<string>)
    ensures forall i, j :: 0 <= i < j < |Tally(labels)| ==> Tally(labels)[i].key != Tally(labels)[j].key
  {
    TallyKeys(labels);
    var t := Tally(labels);
    forall i, j | 0 <= i < j < |t| ensures t[i].key != t[j].key {
      assert KeysOf(t)[i] == t[i].key && KeysOf(t)[j] == t[j].key;
    }
  }

  /** The `forEach` loop that fills a counter, one label at a time. */
  method CountLabels(labels: seq<string>) returns (counter: Counter)
    ensures counter == Tally(labels)
  {
    counter := [];
    var i := 0;
    while i < |labels|
      invariant 0 <= i <= |labels|
      invariant counter == Tally(labels[..i])
    {
      assert labels[..i + 1][..i] == labels[..i];
      counter := Increment(counter, labels[i]);
      i := i + 1;
    }
    assert labels[..|labels|] == labels;
  }

  // --------------------------------------------------------------------------
  // Sorting by descending count. `Array.prototype.sort` is stable, so entries
  // with equal counts keep their insertion order.

  ghost predicate NonIncreasing(s: Counter)
  {
    forall i, j :: 0 <= i < j < |s| ==> s[i].count >= s[j].count
  }

  /** Puts `e` before the first entry whose count does not exceed its own. */
  function InsertDesc(e: Entry, s: Counter): (r: Counter)
    ensures |r| == |s| + 1
  {
    if s == [] then [e]
    else if s[0].count <= e.count then [e] + s
    else [s[0]] + InsertDesc(e, s[1..])
  }

  /** `Object.entries(counter).sort(([,a], [,b]) => b - a)`. */
  function SortDesc(t: Counter): (r: Counter)
    ensures |r| == |t|
  {
    if t == [] then [] else InsertDesc(t[0], SortDesc(t[1..]))
  }

  /** Inserting adds exactly one entry, `e`. */
  lemma {:induction false} InsertDescPerm(e: Entry, s: Counter)
    ensures multiset(InsertDesc(e, s)) == multiset(s) + multiset{e}
  {
    if s != [] {
      assert s == [s[0]] + s[1..];
      if s[0].count > e.count {
        InsertDescPerm(e, s[1..]);
      }
    }
  }

  /** No entry of the result exceeds a bound that `e` and `s` respect. */
  lemma {:induction false} InsertDescBound(e: Entry, s: Counter, b: nat)
    requires e.count <= b
    requires forall i :: 0 <= i < |s| ==> s[i].count <= b
    ensures forall i :: 0 <= i < |InsertDesc(e, s)| ==> InsertDesc(e, s)[i].count <= b
  {
    if s != [] && s[0].count > e.count {
      InsertDescBound(e, s[1..], b);
    }
  }

  lemma {:induction false} InsertDescSorted(e: Entry, s: Counter)
    requires NonIncreasing(s)
    ensures NonIncreasing(InsertDesc(e, s))
  {
    if s != [] && s[0].count > e.count {
      InsertDescSorted(e, s[1..]);
      InsertDescBound(e, s[1..], s[0].count);
    }
  }

  /** The sort is a permutation whose counts never increase. */
  lemma {:induction false} SortDescSorted(t: Counter)
    ensures NonIncreasing(SortDesc(t))
    ensures multiset(SortDesc(t)) == multiset(t)
  {
    if t != [] {
      SortDescSorted(t[1..]);
      InsertDescSorted(t[0], SortDesc(t[1..]));
      InsertDescPerm(t[0], SortDesc(t[1..]));
      assert t == [t[0]] + t[1..];
    }
  }

  lemma {:induction false} InsertDescTotal(e: Entry, s: Counter)
    ensures Total(InsertDesc(e, s)) == e.count + Total(s)
  {
    if s != [] && s[0].count > e.count {
      InsertDescTotal(e, s[1..]);
      assert ([s[0]] + InsertDesc(e, s[1..]))[1..] == InsertDesc(e, s[1..]);
    } else if s != [] {
      assert ([e] + s)[1..] == s;
    }
  }

  /** Sorting keeps the total. */
  lemma {:induction false} SortDescTotal(t: Counter)
    ensures Total(SortDesc(t)) == Total(t)
  {
    if t != [] {
      SortDescTotal(t[1..]);
      InsertDescTotal(t[0], SortDesc(t[1..]));
    }
  }

  /** Checking neighbours is enough for a counter to be non-increasing. */
  lemma {:induction false} NonIncreasingAdjacent(t: Counter)
    requires forall i :: 0 < i < |t| ==> t[i - 1].count >= t[i].count
    ensures NonIncreasing(t)
  {
    if |t| > 1 {
      NonIncreasingAdjacent(t[1..]);
      assert forall j :: 1 <= j < |t| ==> t[j] == t[1..][j - 1];
      assert forall j :: 1 <= j < |t| ==> t[0].count >= t[j].count by {
        forall j | 1 <= j < |t| ensures t[0].count >= t[j].count {
          if j > 1 {
            assert t[1..][0].count >= t[1..][j - 1].count;
          }
        }
      }
    }
  }

  /** A counter already in non-increasing order is left as it is. */
  lemma {:induction false} SortDescKeepsSorted(t: Counter)
    requires NonIncreasing(t)
    ensures SortDesc(t) == t
  {
    if t != [] {
      SortDescKeepsSorted(t[1..]);
      assert t == [t[0]] + t[1..];
    }
  }

  /** The entries with count `c`, in order. */
  function WithCount(s: Counter, c: nat): Counter
  {
    if s == [] then [] else (if s[0].count == c then [s[0]] else []) + WithCount(s[1..], c)
  }

  lemma {:induction false} InsertDescStable(e: Entry, s: Counter, c: nat)
    requires NonIncreasing(s)
    ensures WithCount(InsertDesc(e, s), c) == (if e.count == c then [e] else []) + WithCount(s, c)
  {
    if s != [] && s[0].count > e.count {
      InsertDescStable(e, s[1..], c);
      assert ([s[0]] + InsertDesc(e, s[1..]))[1..] == InsertDesc(e, s[1..]);
    } else if s != [] {
      assert ([e] + s)[1..] == s;
    }
  }

  /** Stability: among entries with the same count the sort keeps insertion order. */
  lemma {:induction false} SortDescStable(t: Counter, c: nat)
    ensures WithCount(SortDesc(t), c) == WithCount(t, c)
  {
    if t != [] {
      SortDescStable(t[1..], c);
      SortDescSorted(t[1..]);
      InsertDescStable(t[0], SortDesc(t[1..]), c);
    }
  }

  /** The position of the first entry with the largest count. */
  function FirstMaxIndex(t: Counter): (i: nat)
    requires t != []
    ensures i < |t|
    ensures forall j :: 0 <= j < |t| ==> t[j].count <= t[i].count
    ensures forall j :: 0 <= j < i ==> t[j].count < t[i].count
  {
    if |t| == 1 then 0
    else
      var k := 1 + FirstMaxIndex(t[1..]);
      assert forall j :: 1 <= j < |t| ==> t[j] == t[1..][j - 1];
      if t[0].count >= t[k].count then 0 else k
  }

  /** The first entry of the sort is the first entry with the largest count. */
  lemma {:induction false} SortDescHead(t: Counter)
    requires t != []
    ensures SortDesc(t)[0] == t[FirstMaxIndex(t)]
  {
    if |t| > 1 {
      SortDescHead(t[1..]);
    }
  }

  /** `Object.entries(counter).sort(([,a], [,b]) => b - a)[0]?.[0] || 'N/A'`. */
  function Leader(t: Counter): string
  {
    if t == [] then NotAvailable
    else
      var k := SortDesc(t)[0].key;
      if k == "" then NotAvailable else k
  }

  /** The leader is `'N/A'` for an empty counter; otherwise, unless its key is the
      empty string, it is the key of the first entry with the largest count. */
  lemma LeaderIsFirstMaximum(t: Counter)
    ensures t == [] ==> Leader(t) == NotAvailable
    ensures t != [] ==>
      var i := FirstMaxIndex(t);
      && (forall j :: 0 <= j < |t| ==> t[j].count <= t[i].count)
      && (forall j :: 0 <= j < i ==> t[j].count < t[i].count)
      && Leader(t) == (if t[i].key == "" then NotAvailable else t[i].key)
  {
    if t != [] {
      SortDescHead(t);
    }
  }

  /** The first `n` entries of the sort (`.slice(0, n)`). */
  function Top(t: Counter, n: nat): (r: Counter)
    ensures |r| <= n && |r| <= |t|
  {
    var s := SortDesc(t);
    if |s| <= n then s else s[..n]
  }

  /** A ranking is sorted, is drawn from the counter, and leaves out only
      entries counted no more often than any entry it keeps. */
  lemma TopIsRanking(t: Counter, n: nat)
    ensures NonIncreasing(Top(t, n))
    ensures forall i :: 0 <= i < |Top(t, n)| ==> Top(t, n)[i] in t
    ensures forall x, i :: x in t && x !in Top(t, n) && 0 <= i < |Top(t, n)| ==> x.count <= Top(t, n)[i].count
    ensures |t| >= n ==> |Top(t, n)| == n
  {
    SortDescSorted(t);
    TopIsPrefix(t, n);
    TopDrawnFromCounter(t, n);
    TopKeepsLargest(t, n);
  }

  lemma TopIsPrefix(t: Counter, n: nat)
    ensures Top(t, n) == SortDesc(t)[..|Top(t, n)|]
    ensures |t| >= n ==> |Top(t, n)| == n
  {
  }

  lemma TopDrawnFromCounter(t: Counter, n: nat)
    ensures forall i :: 0 <= i < |Top(t, n)| ==> Top(t, n)[i] in t
  {
    var s := SortDesc(t);
    SortDescSorted(t);
    TopIsPrefix(t, n);
    var top := Top(t, n);
    forall i | 0 <= i < |top| ensures top[i] in t {
      assert top[i] == s[i];
      assert s[i] in multiset(s);
    }
  }

  lemma TopKeepsLargest(t: Counter, n: nat)
    ensures forall x, i :: x in t && x !in Top(t, n) && 0 <= i < |Top(t, n)| ==> x.count <= Top(t, n)[i].count
  {
    var s := SortDesc(t);
    SortDescSorted(t);
    TopIsPrefix(t, n);
    var top := Top(t, n);
    forall x, i | x in t && x !in top && 0 <= i < |top| ensures x.count <= top[i].count {
      assert x in multiset(t);
      assert x in s;
      var p :| 0 <= p < |s| && s[p] == x;
      assert forall q :: 0 <= q < |top| ==> top[q] == s[q];
      assert p >= |top|;
      assert top[i] == s[i];
    }
  }
}
