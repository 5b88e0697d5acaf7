/** The statistics the RFM scores are built from, with the semantics of the
    library calls the analysis relies on:
    - numpy's default ("linear") quantile of a sorted sample,
    - pandas `qcut(x, 5)`: six edges at the 0/20/40/60/80/100 % quantiles,
      an error when two edges coincide, right-closed intervals with the first
      one also holding the minimum, and labels 1..5 by interval,
    - pandas `rank(method='first')`: ranks 1..n with ties broken by position. */
module Quantiles {
  import opened Wrappers

  // ---------------------------------------------------------------------------
  // Sorting the sample
  // ---------------------------------------------------------------------------

  predicate Sorted(s: seq<real>) {
    forall i, j :: 0 <= i <= j < |s| ==> s[i] <= s[j]
  }

  function Insert(x: real, s: seq<real>): (r: seq<real>)
    requires Sorted(s)
    ensures |r| == |s| + 1
    ensures Sorted(r)
    ensures r[0] == x || (|s| > 0 && r[0] == s[0])
    decreases |s|
  {
    if |s| == 0 then [x]
    else if x <= s[0] then [x] + s
    else
      var rest := Insert(x, s[1..]);
      assert s == [s[0]] + s[1..];
      assert s[0] <= rest[0];
      [s[0]] + rest
  }

  /** Inserting adds x and keeps every other value. */
  lemma {:induction false} InsertPermutes(x: real, s: seq<real>)
    requires Sorted(s)
    ensures multiset(Insert(x, s)) == multiset(s) + multiset{x}
    decreases |s|
  {
    if |s| > 0 && x > s[0] {
      InsertPermutes(x, s[1..]);
      assert s == [s[0]] + s[1..];
    }
  }

  /** The sample in ascending order (insertion sort). */
  function Sort(s: seq<real>): (r: seq<real>)
    ensures |r| == |s|
    ensures Sorted(r)
    decreases |s|
  {
    if |s| == 0 then [] else Insert(s[0], Sort(s[1..]))
  }

  /** Sorting keeps the values of the sample with their multiplicities. */
  lemma {:induction false} SortPermutes(s: seq<real>)
    ensures multiset(Sort(s)) == multiset(s)
    decreases |s|
  {
    if |s| > 0 {
      var t := Sort(s[1..]);
      SortPermutes(s[1..]);
      InsertPermutes(s[0], t);
      assert Sort(s) == Insert(s[0], t);
      assert multiset(s) == multiset(s[1..]) + multiset{s[0]} by {
        assert s == [s[0]] + s[1..];
      }
    }
  }

  /** A member of a sorted sequence lies between its first and last element. */
  lemma SortedBounds(v: seq<real>, x: real)
    requires Sorted(v) && x in v
    ensures v[0] <= x <= v[|v| - 1]
  {
  }

  // ---------------------------------------------------------------------------
  // Linear-interpolation quantiles
  // ---------------------------------------------------------------------------

  /** The quantile at position h = num / 5 of a sorted sample of n values,
      where num = (n - 1) * j for the j-th fifth: numpy's "linear" method,
      v[floor h] + (h - floor h) * (v[floor h + 1] - v[floor h]). */
  function QuantileAt(v: seq<real>, num: nat): (q: real)
    requires |v| > 0 && num <= 5 * (|v| - 1)
    ensures num % 5 == 0 ==> q == v[num / 5]
    ensures num % 5 != 0 ==> num / 5 + 1 < |v| && (v[num / 5] <= v[num / 5 + 1] ==> v[num / 5] <= q <= v[num / 5 + 1])
  {
    var lo, rem := num / 5, num % 5;
    if rem == 0 then v[lo] else v[lo] + FifthsOf(rem, v[lo + 1] - v[lo])
  }

  /** (rem / 5) * d, the interpolation step for the fractional part rem / 5. */
  function FifthsOf(rem: int, d: real): real
    requires 1 <= rem <= 4
  {
    if rem == 1 then d / 5.0
    else if rem == 2 then 2.0 * d / 5.0
    else if rem == 3 then 3.0 * d / 5.0
    else 4.0 * d / 5.0
  }

  /** The six edges `qcut(x, 5)` computes: the 0, 20, 40, 60, 80 and 100 %
      quantiles of the sorted sample. */
  function QuantileEdges(v: seq<real>): (e: seq<real>)
    requires |v| > 0
    ensures |e| == 6 && e[0] == v[0] && e[5] == v[|v| - 1]
  {
    var n := |v| - 1;
    [QuantileAt(v, 0), QuantileAt(v, n), QuantileAt(v, 2 * n),
     QuantileAt(v, 3 * n), QuantileAt(v, 4 * n), QuantileAt(v, 5 * n)]
  }

  /** Quantiles of a sorted sample grow with the position. */
  lemma {:induction false} QuantileMonotone(v: seq<real>, a: nat, b: nat)
    requires Sorted(v) && |v| > 0 && a <= b <= 5 * (|v| - 1)
    ensures QuantileAt(v, a) <= QuantileAt(v, b)
  {
    var la, lb := a / 5, b / 5;
    if la == lb {
      if a % 5 != 0 {
        assert v[la] <= v[la + 1];
        assert a % 5 <= b % 5;
      }
    } else {
      assert la < lb;
      if a % 5 != 0 {
        assert v[la + 1] <= v[lb];
      }
    }
  }

  /** The edges of a sorted sample are in ascending order. */
  lemma EdgesAscending(v: seq<real>)
    requires Sorted(v) && |v| > 0
    ensures Sorted(QuantileEdges(v))
  {
    var n := |v| - 1;
    QuantileMonotone(v, 0, n);
    QuantileMonotone(v, n, 2 * n);
    QuantileMonotone(v, 2 * n, 3 * n);
    QuantileMonotone(v, 3 * n, 4 * n);
    QuantileMonotone(v, 4 * n, 5 * n);
  }

  // ---------------------------------------------------------------------------
  // qcut
  // ---------------------------------------------------------------------------

  /** pandas' check that no two bin edges coincide. */
  predicate Distinct(e: seq<real>) {
    forall i, j :: 0 <= i < j < |e| ==> e[i] != e[j]
  }

  predicate Increasing(e: seq<real>) {
    forall i, j :: 0 <= i < j < |e| ==> e[i] < e[j]
  }

  /** Ascending edges that are pairwise different are strictly increasing. */
  lemma DistinctAscendingIncreasing(e: seq<real>)
    requires Sorted(e) && Distinct(e)
    ensures Increasing(e)
  {
  }

  /** Number of edges strictly below x: numpy's `searchsorted(edges, x,
      side='left')` on ascending edges. */
  function CountBelow(e: seq<real>, x: real): (k: nat)
    ensures k <= |e|
    decreases |e|
  {
    if |e| == 0 then 0 else (if e[0] < x then 1 else 0) + CountBelow(e[1..], x)
  }

  lemma {:induction false} CountBelowMonotone(e: seq<real>, x: real, y: real)
    requires x <= y
    ensures CountBelow(e, x) <= CountBelow(e, y)
    decreases |e|
  {
    if |e| > 0 {
      CountBelowMonotone(e[1..], x, y);
    }
  }

  /** The last edge is not below any x it bounds from above. */
  lemma {:induction false} CountBelowLast(e: seq<real>, x: real)
    requires |e| > 0 && x <= e[|e| - 1]
    ensures CountBelow(e, x) < |e|
    decreases |e|
  {
    if |e| > 1 {
      CountBelowLast(e[1..], x);
    }
  }

  /** On strictly increasing edges, exactly k edges lie below x when x sits in
      the k-th right-closed interval. */
  lemma {:induction false} CountBelowInterval(e: seq<real>, x: real, k: nat)
    requires Increasing(e) && k <= |e|
    ensures CountBelow(e, x) == k <==> (k == 0 || e[k - 1] < x) && (k == |e| || x <= e[k])
    decreases |e|
  {
    if |e| > 0 {
      var t := e[1..];
      assert Increasing(t);
      if e[0] < x {
        if k > 0 {
          CountBelowInterval(t, x, k - 1);
        }
      } else {
        CountBelowInterval(t, x, 0);
        if k > 0 {
          assert e[0] <= e[k - 1];
        }
      }
    }
  }

  /** The 1-based label `qcut` gives x: the interval index, with the minimum
      (the first edge) placed in the first interval. */
  function Bin(x: real, e: seq<real>): (k: int)
    requires |e| > 0
    ensures 0 <= k <= |e|
    ensures e[0] <= x ==> 1 <= k
  {
    if x == e[0] then 1 else CountBelow(e, x)
  }

  /** Labels stay in 1..5 for every value between the first and last edge and
      grow with the value. */
  lemma BinRangeAndOrder(e: seq<real>, x: real, y: real)
    requires |e| == 6 && e[0] <= x <= y <= e[5]
    ensures 1 <= Bin(x, e) <= 5 && 1 <= Bin(y, e) <= 5
    ensures Bin(x, e) <= Bin(y, e)
  {
    CountBelowLast(e, x);
    CountBelowLast(e, y);
    CountBelowMonotone(e, x, y);
    assert e[0] < x ==> CountBelow(e, x) >= 1;
    assert e[0] < y ==> CountBelow(e, y) >= 1;
  }

  /** `qcut`'s intervals: label k holds exactly the values in (e[k-1], e[k]],
      and label 1 also holds the minimum e[0]. */
  lemma BinInterval(e: seq<real>, x: real, k: int)
    requires |e| == 6 && Increasing(e) && e[0] <= x <= e[5] && 1 <= k <= 5
    ensures Bin(x, e) == k <==> (e[k - 1] < x || (k == 1 && x == e[0])) && x <= e[k]
  {
    CountBelowInterval(e, x, k);
    CountBelowInterval(e, x, 0);
  }

  /** x lies in `qcut`'s k-th interval of the edges e: right-closed, with
      the first interval also holding the minimum e[0]. */
  predicate InInterval(x: real, e: seq<real>, k: int)
    requires |e| == 6
  {
    1 <= k <= 5 && (e[k - 1] < x || (k == 1 && x == e[0])) && x <= e[k]
  }

  /** Every value of a sample lies between the first and the last quantile
      edge of the sorted sample. */
  lemma WithinEdges(xs: seq<real>, v: seq<real>, x: real)
    requires Sorted(v) && multiset(v) == multiset(xs) && x in xs
    ensures |v| > 0 && QuantileEdges(v)[0] <= x <= QuantileEdges(v)[5]
  {
    assert x in multiset(xs);
    assert x in v;
    SortedBounds(v, x);
  }

  /** Edges that pass the uniqueness check are strictly increasing. */
  lemma IncreasingEdges(v: seq<real>)
    requires Sorted(v) && |v| > 0 && Distinct(QuantileEdges(v))
    ensures Increasing(QuantileEdges(v))
  {
    EdgesAscending(v);
    DistinctAscendingIncreasing(QuantileEdges(v));
  }

  /** The labels of a sample against the quantile edges of its sorted copy lie
      in 1..5, grow with the value, and name the interval that holds the
      value once the edges are distinct. */
  lemma SampleLabels(xs: seq<real>, v: seq<real>)
    requires Sorted(v) && multiset(v) == multiset(xs) && |xs| > 0
    ensures |v| > 0
    ensures forall i :: 0 <= i < |xs| ==> 1 <= Bin(xs[i], QuantileEdges(v)) <= 5
    ensures forall i, j :: 0 <= i < |xs| && 0 <= j < |xs| && xs[i] <= xs[j] ==>
                             Bin(xs[i], QuantileEdges(v)) <= Bin(xs[j], QuantileEdges(v))
    ensures Distinct(QuantileEdges(v)) ==>
              forall i :: 0 <= i < |xs| ==> InInterval(xs[i], QuantileEdges(v), Bin(xs[i], QuantileEdges(v)))
  {
    assert |multiset(v)| == |v| && |multiset(xs)| == |xs|;
    var e := QuantileEdges(v);
    forall i | 0 <= i < |xs| ensures e[0] <= xs[i] <= e[5] {
      WithinEdges(xs, v, xs[i]);
    }
    LabelsOrdered(xs, e);
    if Distinct(e) {
      IncreasingEdges(v);
      forall i | 0 <= i < |xs| ensures InInterval(xs[i], e, Bin(xs[i], e)) {
        BinInterval(e, xs[i], Bin(xs[i], e));
      }
    }
  }

  lemma LabelsOrdered(xs: seq<real>, e: seq<real>)
    requires |e| == 6
    requires forall i :: 0 <= i < |xs| ==> e[0] <= xs[i] <= e[5]
    ensures forall i :: 0 <= i < |xs| ==> 1 <= Bin(xs[i], e) <= 5
    ensures forall i, j :: 0 <= i < |xs| && 0 <= j < |xs| && xs[i] <= xs[j] ==>
                             Bin(xs[i], e) <= Bin(xs[j], e)
  {
    forall i, j | 0 <= i < |xs| && 0 <= j < |xs| && xs[i] <= xs[j]
      ensures 1 <= Bin(xs[i], e) <= 5 && Bin(xs[i], e) <= Bin(xs[j], e)
    {
      BinRangeAndOrder(e, xs[i], xs[j]);
    }
    forall i | 0 <= i < |xs| ensures 1 <= Bin(xs[i], e) <= 5 {
      BinRangeAndOrder(e, xs[i], xs[i]);
    }
  }

  datatype BinError = NonUniqueEdges

  /** pandas `qcut(xs, 5, labels=[1, 2, 3, 4, 5])`: each value gets the index
      of the quantile interval that holds it; coinciding edges raise. An empty
      sample has no quantiles (all six edges are NaN), which pandas reports as
      non-unique edges too. */
  function QCut(xs: seq<real>): (r: Result<seq<int>, BinError>)
    ensures r.Success? ==> |r.value| == |xs|
    ensures r.Success? ==> forall i :: 0 <= i < |xs| ==> 1 <= r.value[i] <= 5
  {
    if |xs| == 0 then Failure(NonUniqueEdges)
    else
      var v := Sort(xs);
      var e := QuantileEdges(v);
      if !Distinct(e) then Failure(NonUniqueEdges)
      else
        SortPermutes(xs);
        SampleLabels(xs, v);
        Success(Labels(xs, e))
  }

  /** Binning fails exactly on an empty sample or coinciding edges. */
  lemma QCutSucceeds(xs: seq<real>)
    ensures QCut(xs).Success? <==> |xs| > 0 && Distinct(QuantileEdges(Sort(xs)))
  {
  }

  /** A larger value never gets a smaller label. */
  lemma QCutMonotone(xs: seq<real>, i: int, j: int)
    requires QCut(xs).Success?
    requires 0 <= i < |xs| && 0 <= j < |xs| && xs[i] <= xs[j]
    ensures QCut(xs).value[i] <= QCut(xs).value[j]
  {
    SortPermutes(xs);
    SampleLabels(xs, Sort(xs));
  }

  /** Every value lies in the quantile interval its label names. */
  lemma QCutIntervals(xs: seq<real>)
    requires QCut(xs).Success?
    ensures AllInIntervals(xs, QuantileEdges(Sort(xs)), QCut(xs).value)
  {
    var e := QuantileEdges(Sort(xs));
    SortPermutes(xs);
    SampleLabels(xs, Sort(xs));
    IntervalsOfAll(xs, e, Labels(xs, e));
  }

  /** Every value lies in the interval its label names. */
  predicate AllInIntervals(xs: seq<real>, e: seq<real>, ls: seq<int>)
    requires |e| == 6 && |ls| == |xs|
    decreases |xs|
  {
    |xs| == 0 || (InInterval(xs[0], e, ls[0]) && AllInIntervals(xs[1..], e, ls[1..]))
  }

  lemma {:induction false} IntervalsOfAll(xs: seq<real>, e: seq<real>, ls: seq<int>)
    requires |e| == 6 && |ls| == |xs|
    requires forall i :: 0 <= i < |xs| ==> InInterval(xs[i], e, ls[i])
    ensures AllInIntervals(xs, e, ls)
    decreases |xs|
  {
    if |xs| > 0 {
      assert InInterval(xs[0], e, ls[0]);
      IntervalsOfAll(xs[1..], e, ls[1..]);
    }
  }

  /** The label of every value, in row order. */
  function Labels(xs: seq<real>, e: seq<real>): (r: seq<int>)
    requires |e| > 0
    ensures |r| == |xs| && forall i :: 0 <= i < |xs| ==> r[i] == Bin(xs[i], e)
    decreases |xs|
  {
    if |xs| == 0 then [] else [Bin(xs[0], e)] + Labels(xs[1..], e)
  }

  // ---------------------------------------------------------------------------
  // rank(method='first')
  // ---------------------------------------------------------------------------

  /** How many of the first k values are below x. */
  function CountLess(f: seq<int>, x: int, k: nat): (c: nat)
    requires k <= |f|
    ensures c <= k
  {
    if k == 0 then 0 else CountLess(f, x, k - 1) + (if f[k - 1] < x then 1 else 0)
  }

  /** How many of the first k values equal x. */
  function CountEqual(f: seq<int>, x: int, k: nat): (c: nat)
    requires k <= |f|
    ensures c <= k
  {
    if k == 0 then 0 else CountEqual(f, x, k - 1) + (if f[k - 1] == x then 1 else 0)
  }

  /** pandas `rank(method='first')` of position i: one more than the number
      of smaller values, plus the number of equal values that come earlier. */
  function FirstRank(f: seq<int>, i: int): (k: int)
    requires 0 <= i < |f|
    ensures 1 <= k <= |f|
  {
    CountsBound(f, f[i], |f|);
    CountEqualGrows(f, i, |f|);
    1 + CountLess(f, f[i], |f|) + CountEqual(f, f[i], i)
  }

  /** The first-occurrence rank of every position, in row order. */
  function FirstRanks(f: seq<int>): (r: seq<int>)
    ensures |r| == |f|
    ensures forall i :: 0 <= i < |f| ==> 1 <= r[i] <= |f|
    ensures forall i :: 0 <= i < |f| ==> r[i] == FirstRank(f, i)
  {
    seq(|f|, i requires 0 <= i < |f| => FirstRank(f, i))
  }

  lemma {:induction false} CountsBound(f: seq<int>, x: int, k: nat)
    requires k <= |f|
    ensures CountLess(f, x, k) + CountEqual(f, x, k) <= k
  {
    if k > 0 {
      CountsBound(f, x, k - 1);
    }
  }

  /** Position i counts among the values equal to f[i] seen after it. */
  lemma {:induction false} CountEqualGrows(f: seq<int>, i: nat, k: nat)
    requires i < k <= |f|
    ensures CountEqual(f, f[i], i) + 1 <= CountEqual(f, f[i], k)
  {
    if k > i + 1 {
      CountEqualGrows(f, i, k - 1);
    }
  }

  /** Everything at or below x is below a larger y. */
  lemma {:induction false} CountsBelowLarger(f: seq<int>, x: int, y: int, k: nat)
    requires x < y && k <= |f|
    ensures CountLess(f, x, k) + CountEqual(f, x, k) <= CountLess(f, y, k)
  {
    if k > 0 {
      CountsBelowLarger(f, x, y, k - 1);
    }
  }

  /** A smaller value gets a smaller rank, and of two equal values the
      earlier one gets the smaller rank; so no two positions share a rank. */
  lemma RankOrder(f: seq<int>, i: int, j: int)
    requires 0 <= i < |f| && 0 <= j < |f|
    requires f[i] < f[j] || (f[i] == f[j] && i < j)
    ensures FirstRank(f, i) < FirstRank(f, j)
  {
    if f[i] < f[j] {
      CountEqualGrows(f, i, |f|);
      CountsBelowLarger(f, f[i], f[j], |f|);
    } else {
      CountEqualGrows(f, i, j);
    }
  }

  function ToReals(s: seq<int>): (r: seq<real>)
    ensures |r| == |s| && forall i :: 0 <= i < |s| ==> r[i] == s[i] as real
  {
    seq(|s|, i requires 0 <= i < |s| => s[i] as real)
  }

  /** 1, 2, ..., n. */
  function Iota(n: nat): (r: seq<real>)
    ensures |r| == n && forall k :: 0 <= k < n ==> r[k] == (k + 1) as real
  {
    if n == 0 then [] else Iota(n - 1) + [n as real]
  }

  /** A value occurring twice in a sequence sits at two positions. */
  lemma {:induction false} TwoOccurrences(s: seq<real>, x: real)
    requires multiset(s)[x] >= 2
    ensures exists i, j :: 0 <= i < j < |s| && s[i] == x && s[j] == x
    decreases |s|
  {
    assert s == [s[0]] + s[1..];
    if s[0] == x {
      assert x in multiset(s[1..]);
      var j :| 0 <= j < |s[1..]| && s[1..][j] == x;
      assert s[0] == x && s[j + 1] == x;
    } else {
      TwoOccurrences(s[1..], x);
      var i, j :| 0 <= i < j < |s[1..]| && s[1..][i] == x && s[1..][j] == x;
      assert s[i + 1] == x && s[j + 1] == x;
    }
  }

  /** xs holds pairwise different whole numbers between 1 and n. */
  predicate DistinctWholeUpTo(xs: seq<real>, n: nat) {
    (forall i :: 0 <= i < |xs| ==> 1 <= xs[i].Floor <= n && xs[i] == xs[i].Floor as real)
    && (forall i, j :: 0 <= i < j < |xs| ==> xs[i] != xs[j])
  }

  /** The first-ranks of n values are n different whole numbers in 1..n. */
  lemma RanksDistinctWhole(f: seq<int>)
    ensures DistinctWholeUpTo(ToReals(FirstRanks(f)), |f|)
  {
    var xs := ToReals(FirstRanks(f));
    forall i | 0 <= i < |xs| ensures 1 <= xs[i].Floor <= |f| && xs[i] == xs[i].Floor as real {
      assert 1 <= FirstRank(f, i) <= |f|;
    }
    forall i, j | 0 <= i < j < |xs| ensures xs[i] != xs[j] {
      if f[i] <= f[j] {
        RankOrder(f, i, j);
      } else {
        RankOrder(f, j, i);
      }
    }
  }

  /** Sorting the first-ranks of n values gives exactly 1, 2, ..., n. */
  lemma SortedRanks(f: seq<int>, v: seq<real>)
    requires Sorted(v) && multiset(v) == multiset(ToReals(FirstRanks(f)))
    ensures v == Iota(|f|)
  {
    var xs := ToReals(FirstRanks(f));
    RanksDistinctWhole(f);
    SortedDistinctWhole(xs, v, |f|);
  }

  /** Sorting n different whole numbers in 1..n gives 1, 2, ..., n. */
  lemma SortedDistinctWhole(xs: seq<real>, v: seq<real>, n: nat)
    requires |xs| == n && DistinctWholeUpTo(xs, n)
    requires Sorted(v) && multiset(v) == multiset(xs)
    ensures v == Iota(n)
  {
    assert |v| == n by {
      assert |multiset(v)| == |v| && |multiset(xs)| == |xs|;
    }
    var w := WholeParts(v);
    forall k | 0 <= k < n ensures 1 <= w[k] <= n && v[k] == w[k] as real {
      assert v[k] in multiset(xs);
    }
    forall i, j | 0 <= i < j < n ensures v[i] < v[j] {
      NoRepeat(xs, v, i);
      assert v[i + 1] <= v[j];
    }
    WholeRun(v, w, n);
  }

  /** Neighbours of a reordering of pairwise different values differ. */
  lemma NoRepeat(xs: seq<real>, v: seq<real>, k: int)
    requires multiset(v) == multiset(xs)
    requires forall i, j :: 0 <= i < j < |xs| ==> xs[i] != xs[j]
    requires 0 <= k < |v| - 1
    ensures v[k] != v[k + 1]
  {
    if v[k] == v[k + 1] {
      assert v == v[..k] + [v[k], v[k + 1]] + v[k + 2..];
      assert multiset(xs)[v[k]] >= 2;
      TwoOccurrences(xs, v[k]);
      assert false;
    }
  }

  /** n strictly increasing whole numbers between 1 and n are 1, 2, ..., n. */
  lemma WholeRun(v: seq<real>, w: seq<int>, n: nat)
    requires |v| == |w| == n
    requires forall k :: 0 <= k < n ==> 1 <= w[k] <= n && v[k] == w[k] as real
    requires Increasing(v)
    ensures v == Iota(n)
  {
    assert forall i, j :: 0 <= i < j < n ==> w[i] < w[j] by {
      forall i, j | 0 <= i < j < n ensures w[i] < w[j] {
        assert v[i] < v[j];
      }
    }
    forall k | 0 <= k < n ensures v[k] == (k + 1) as real {
      LowerRun(w, k);
      UpperRun(w, n, k);
    }
  }

  function WholeParts(v: seq<real>): (w: seq<int>)
    ensures |w| == |v| && forall k :: 0 <= k < |v| ==> w[k] == v[k].Floor
  {
    if |v| == 0 then [] else [v[0].Floor] + WholeParts(v[1..])
  }

  lemma {:induction false} LowerRun(w: seq<int>, k: nat)
    requires k < |w|
    requires forall i :: 0 <= i < |w| ==> 1 <= w[i]
    requires forall i, j :: 0 <= i < j < |w| ==> w[i] < w[j]
    ensures w[k] >= k + 1
  {
    if k > 0 {
      LowerRun(w, k - 1);
      assert w[k - 1] < w[k];
    }
  }

  lemma {:induction false} UpperRun(w: seq<int>, n: nat, k: nat)
    requires k < |w| == n
    requires forall i :: 0 <= i < |w| ==> w[i] <= n
    requires forall i, j :: 0 <= i < j < |w| ==> w[i] < w[j]
    ensures w[k] <= k + 1
    decreases n - k
  {
    if k < n - 1 {
      UpperRun(w, n, k + 1);
      assert w[k] < w[k + 1];
    }
  }


  /** The quantile edges of 1, 2, ..., n are 1 + j * (n - 1) / 5. */
  lemma IotaQuantile(n: nat, num: nat)
    requires n > 0 && num <= 5 * (n - 1)
    ensures QuantileAt(Iota(n), num) == 1.0 + num as real / 5.0
  {
  }

  /** The edges of 1, 2, ..., n are one step (n - 1) / 5 apart, from 1. */
  lemma IotaEdgeValues(n: nat, d: real)
    requires n > 0 && d == (n - 1) as real / 5.0
    ensures var e := QuantileEdges(Iota(n));
      e[0] == 1.0 && e[1] == 1.0 + d && e[2] == 1.0 + 2.0 * d
      && e[3] == 1.0 + 3.0 * d && e[4] == 1.0 + 4.0 * d && e[5] == 1.0 + 5.0 * d
  {
    var m := n - 1;
    var e := QuantileEdges(Iota(n));
    assert e[0] == 1.0 by { IotaQuantile(n, 0); }
    assert e[1] == 1.0 + d by { IotaQuantile(n, m); }
    assert e[2] == 1.0 + 2.0 * d by { IotaQuantile(n, 2 * m); }
    assert e[3] == 1.0 + 3.0 * d by { IotaQuantile(n, 3 * m); }
    assert e[4] == 1.0 + 4.0 * d by { IotaQuantile(n, 4 * m); }
    assert e[5] == 1.0 + 5.0 * d by { IotaQuantile(n, 5 * m); }
  }

  /** The edges of 1, 2, ..., n are distinct exactly when n >= 2. */
  lemma IotaEdges(n: nat)
    requires n > 0
    ensures Distinct(QuantileEdges(Iota(n))) <==> n >= 2
  {
    var d := (n - 1) as real / 5.0;
    IotaEdgeValues(n, d);
    StepEdgesDistinct(QuantileEdges(Iota(n)), d);
  }

  /** Six edges one step d >= 0 apart are distinct exactly when the step is
      positive. */
  lemma StepEdgesDistinct(e: seq<real>, d: real)
    requires d >= 0.0 && |e| == 6
    requires e[0] == 1.0 && e[1] == 1.0 + d && e[2] == 1.0 + 2.0 * d
    requires e[3] == 1.0 + 3.0 * d && e[4] == 1.0 + 4.0 * d && e[5] == 1.0 + 5.0 * d
    ensures Distinct(e) <==> d > 0.0
  {
    if d > 0.0 {
      forall i, j | 0 <= i < j < 6
        ensures e[i] < e[j]
      {
      }
    } else {
      assert e[0] == e[1];
    }
  }

  /** Binning first-ranks never meets coinciding edges unless there is only
      one value (or none). */
  lemma FirstRankCut(f: seq<int>)
    ensures QCut(ToReals(FirstRanks(f))).Success? <==> |f| >= 2
  {
    var xs := ToReals(FirstRanks(f));
    QCutSucceeds(xs);
    if |f| > 0 {
      var v := Sort(xs);
      SortPermutes(xs);
      SortedRanks(f, v);
      IotaEdges(|f|);
    }
  }
}
