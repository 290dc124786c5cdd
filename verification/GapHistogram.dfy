/**
 The gap statistics of a stream: a bounded sample of gaps, a hand-written
 insertion sort and quicksort, and interpolated percentiles.
 */
module GapHistogram {
  import opened Extremes
  import opened Wrappers

  // ---------------------------------------------------------------------------
  // Sorting in place

  ghost predicate Sorted(s: seq<int>) { forall i, j :: 0 <= i < j < |s| ==> s[i] <= s[j] }

  /** `b` is `a` with the elements of `[lo, hi)` permuted. */
  ghost predicate Rearranged(a: seq<int>, b: seq<int>, lo: int, hi: int) {
    && 0 <= lo <= hi <= |a| == |b|
    && a[..lo] == b[..lo] && a[hi..] == b[hi..]
    && multiset(a[lo..hi]) == multiset(b[lo..hi])
  }

  function Swap(s: seq<int>, i: int, j: int): (r: seq<int>)
    requires 0 <= i < |s| && 0 <= j < |s|
    ensures |r| == |s|
  {
    s[i := s[j]][j := s[i]]
  }

  method SwapElements(s: array<int>, i: int, j: int)
    requires 0 <= i < s.Length && 0 <= j < s.Length
    modifies s
    ensures s[..] == Swap(old(s[..]), i, j)
  {
    s[i], s[j] := s[j], s[i];
  }

  // ---- insertion sort

  /** The inner loop: move larger elements up from `j`, then drop `key` into the hole. */
  function Shifted(s: seq<int>, j: int, key: int): (r: seq<int>)
    requires -1 <= j < |s| - 1
    ensures |r| == |s|
    decreases j + 1
  {
    if j >= 0 && s[j] > key then Shifted(s[j + 1 := s[j]], j - 1, key) else s[j + 1 := key]
  }

  function InsertionSorted(s: seq<int>, i: nat): (r: seq<int>)
    requires 1 <= i
    ensures |r| == |s|
    decreases |s| - i
  {
    if i < |s| then InsertionSorted(Shifted(s, i - 1, s[i]), i + 1) else s
  }

  /** `insertionSortInt64`. */
  method InsertionSort(s: array<int>)
    modifies s
    ensures s[..] == InsertionSorted(old(s[..]), 1)
  {
    var i := 1;
    while i < s.Length
      invariant 1 <= i && InsertionSorted(s[..], i) == InsertionSorted(old(s[..]), 1)
    {
      var key := s[i];
      var j := i - 1;
      ghost var start := s[..];
      while j >= 0 && s[j] > key
        invariant -1 <= j < i && Shifted(s[..], j, key) == Shifted(start, i - 1, key)
      {
        ghost var before := s[..];
        s[j + 1] := s[j];
        assert s[..] == before[j + 1 := before[j]];
        j := j - 1;
      }
      ghost var before := s[..];
      s[j + 1] := key;
      assert s[..] == before[j + 1 := key];
      i := i + 1;
    }
  }

  lemma SwapMultiset(a: seq<int>, i: int, j: int)
    requires 0 <= i < |a| && 0 <= j < |a|
    ensures multiset(Swap(a, i, j)) == multiset(a)
  {
  }

  /** All but the hole at `h` is in order up to `i`, and `key` is below what was moved past it. */
  ghost predicate Hole(s: seq<int>, h: int, i: int, key: int) {
    && 0 <= h <= i < |s|
    && (forall a, b :: 0 <= a < b <= i && a != h && b != h ==> s[a] <= s[b])
    && (forall b :: h < b <= i ==> key < s[b])
  }

  lemma HoleMoves(s: seq<int>, j: int, i: int, key: int)
    requires j >= 0 && Hole(s, j + 1, i, key) && s[j] > key
    ensures Hole(s[j + 1 := s[j]], j, i, key)
  {
  }

  lemma HoleFilled(s: seq<int>, j: int, i: int, key: int)
    requires Hole(s, j + 1, i, key) && (j >= 0 ==> s[j] <= key)
    ensures Sorted(s[j + 1 := key][..i + 1])
  {
    assert forall a :: 0 <= a <= j ==> s[a] <= key;
  }

  lemma {:induction false} ShiftPermutes(s: seq<int>, j: int, key: int)
    requires -1 <= j < |s| - 1
    ensures multiset(Shifted(s, j, key)) == multiset(s[j + 1 := key])
    decreases j + 1
  {
    if j >= 0 && s[j] > key {
      ShiftPermutes(s[j + 1 := s[j]], j - 1, key);
      var view := s[j + 1 := key];
      assert s[j + 1 := s[j]][j := key] == Swap(view, j + 1, j);
      SwapMultiset(view, j + 1, j);
    }
  }

  lemma {:induction false} ShiftInserts(s: seq<int>, j: int, i: int, key: int)
    requires Hole(s, j + 1, i, key)
    ensures var r := Shifted(s, j, key); Sorted(r[..i + 1]) && r[i + 1..] == s[i + 1..]
    decreases j + 1
  {
    if j >= 0 && s[j] > key {
      HoleMoves(s, j, i, key);
      ShiftInserts(s[j + 1 := s[j]], j - 1, i, key);
    } else {
      HoleFilled(s, j, i, key);
    }
  }

  lemma {:induction false} InsertionSorts(s: seq<int>, i: nat)
    requires 1 <= i && (i <= |s| ==> Sorted(s[..i])) && (i > |s| ==> s == [])
    ensures Sorted(InsertionSorted(s, i)) && multiset(InsertionSorted(s, i)) == multiset(s)
    decreases |s| - i
  {
    if i < |s| {
      assert forall a, b :: 0 <= a < b < i ==> s[..i][a] <= s[..i][b];
      ShiftInserts(s, i - 1, i, s[i]);
      ShiftPermutes(s, i - 1, s[i]);
      assert s[i := s[i]] == s;
      InsertionSorts(Shifted(s, i - 1, s[i]), i + 1);
    } else {
      assert s != [] ==> s[..i] == s;
    }
  }

  // ---- quicksort

  /** The loop of `partitionInt64` from `j`, `i` being the last position not above the pivot. */
  function Partitioned(s: seq<int>, hi: int, i: int, j: int): (r: (seq<int>, int))
    requires -1 <= i < j <= hi < |s|
    ensures |r.0| == |s| && i + 1 <= r.1 <= hi
    decreases hi - j
  {
    if j == hi then (Swap(s, i + 1, hi), i + 1)
    else if s[j] <= s[hi] then Partitioned(Swap(s, i + 1, j), hi, i + 1, j + 1)
    else Partitioned(s, hi, i, j + 1)
  }

  /** `partitionInt64`. */
  method Partition(s: array<int>, lo: int, hi: int) returns (p: int)
    requires 0 <= lo < hi < s.Length
    modifies s
    ensures (s[..], p) == Partitioned(old(s[..]), hi, lo - 1, lo)
  {
    var pivot := s[hi];
    var i := lo - 1;
    for j := lo to hi
      invariant lo - 1 <= i < j && s[hi] == pivot
      invariant Partitioned(s[..], hi, i, j) == Partitioned(old(s[..]), hi, lo - 1, lo)
    {
      if s[j] <= pivot {
        i := i + 1;
        SwapElements(s, i, j);
      }
    }
    SwapElements(s, i + 1, hi);
    return i + 1;
  }

  function Quicksorted(s: seq<int>, lo: int, hi: int): (r: seq<int>)
    requires 0 <= lo <= hi + 1 <= |s|
    ensures |r| == |s|
    decreases hi + 1 - lo
  {
    if lo < hi then
      var (t, p) := Partitioned(s, hi, lo - 1, lo);
      Quicksorted(Quicksorted(t, lo, p - 1), p + 1, hi)
    else s
  }

  /** `quicksortInt64` on the range `lo..hi`, both ends included. */
  method Quicksort(s: array<int>, lo: int, hi: int)
    requires 0 <= lo <= hi + 1 <= s.Length
    modifies s
    ensures s[..] == Quicksorted(old(s[..]), lo, hi)
    decreases hi + 1 - lo
  {
    if lo < hi {
      var p := Partition(s, lo, hi);
      Quicksort(s, lo, p - 1);
      Quicksort(s, p + 1, hi);
    }
  }

  lemma SwapRearranges(a: seq<int>, i: int, j: int, lo: int, hi: int)
    requires 0 <= lo <= i < hi <= |a| && lo <= j < hi
    ensures Rearranged(a, Swap(a, i, j), lo, hi)
  {
    assert Swap(a, i, j)[lo..hi] == Swap(a[lo..hi], i - lo, j - lo);
    SwapMultiset(a[lo..hi], i - lo, j - lo);
  }

  lemma RearrangedTwice(a: seq<int>, b: seq<int>, c: seq<int>, lo: int, hi: int)
    requires Rearranged(a, b, lo, hi) && Rearranged(b, c, lo, hi)
    ensures Rearranged(a, c, lo, hi)
  {
  }

  lemma RearrangedWidens(a: seq<int>, b: seq<int>, l: int, h: int, lo: int, hi: int)
    requires Rearranged(a, b, l, h) && 0 <= lo <= l && h <= hi <= |a|
    ensures Rearranged(a, b, lo, hi)
  {
    assert a[lo..hi] == a[..l][lo..] + a[l..h] + a[h..][..hi - h];
    assert b[lo..hi] == b[..l][lo..] + b[l..h] + b[h..][..hi - h];
    assert a[..lo] == a[..l][..lo] && b[..lo] == b[..l][..lo];
    assert a[hi..] == a[h..][hi - h..] && b[hi..] == b[h..][hi - h..];
  }

  /** A rearranged range holds no element it did not hold before. */
  lemma SameElements(a: seq<int>, b: seq<int>, lo: int, hi: int, k: int) returns (m: int)
    requires Rearranged(a, b, lo, hi) && lo <= k < hi
    ensures lo <= m < hi && a[m] == b[k]
  {
    assert b[k] == b[lo..hi][k - lo] && b[k] in multiset(b[lo..hi]);
    assert b[k] in a[lo..hi];
    var n :| 0 <= n < hi - lo && a[lo..hi][n] == b[k];
    m := lo + n;
  }

  ghost predicate Split(s: seq<int>, lo: int, p: int, hi: int) {
    && 0 <= lo <= p < hi <= |s|
    && (forall k :: lo <= k < p ==> s[k] <= s[p])
    && (forall k :: p < k < hi ==> s[p] < s[k])
  }

  lemma AfterSwap(s: seq<int>, t: seq<int>, u: seq<int>, i: int, j: int, lo: int, hi: int)
    requires 0 <= lo <= i < hi <= |s| && lo <= j < hi && t == Swap(s, i, j) && Rearranged(t, u, lo, hi)
    ensures Rearranged(s, u, lo, hi)
  {
    SwapRearranges(s, i, j, lo, hi);
    RearrangedTwice(s, t, u, lo, hi);
  }

  lemma {:induction false} PartitionRearranges(s: seq<int>, r: seq<int>, lo: int, hi: int, i: int, j: int)
    requires 0 <= lo && lo - 1 <= i < j <= hi < |s| && r == Partitioned(s, hi, i, j).0
    ensures Rearranged(s, r, lo, hi + 1)
    decreases hi - j
  {
    if j == hi {
      SwapRearranges(s, i + 1, hi, lo, hi + 1);
    } else if s[j] <= s[hi] {
      SwapThenRest(s, Swap(s, i + 1, j), r, lo, hi, i, j);
    } else {
      PartitionRearranges(s, r, lo, hi, i, j + 1);
    }
  }

  lemma {:induction false} SwapThenRest(s: seq<int>, t: seq<int>, r: seq<int>, lo: int, hi: int, i: int, j: int)
    requires 0 <= lo && lo - 1 <= i < j < hi < |s| && t == Swap(s, i + 1, j)
    requires r == Partitioned(t, hi, i + 1, j + 1).0
    ensures Rearranged(s, r, lo, hi + 1)
    decreases hi - j, 0
  {
    PartitionRearranges(t, r, lo, hi, i + 1, j + 1);
    AfterSwap(s, t, r, i + 1, j, lo, hi + 1);
  }

  lemma {:induction false} PartitionSplits(s: seq<int>, lo: int, hi: int, i: int, j: int)
    requires 0 <= lo && lo - 1 <= i < j <= hi < |s|
    requires forall k :: lo <= k <= i ==> s[k] <= s[hi]
    requires forall k :: i < k < j && lo <= k ==> s[hi] < s[k]
    ensures var (t, p) := Partitioned(s, hi, i, j); Split(t, lo, p, hi + 1)
    decreases hi - j
  {
    if j < hi {
      if s[j] <= s[hi] {
        PartitionSplits(Swap(s, i + 1, j), lo, hi, i + 1, j + 1);
      } else {
        PartitionSplits(s, lo, hi, i, j + 1);
      }
    }
  }

  lemma SplitStays(a: seq<int>, b: seq<int>, lo: int, p: int, hi: int)
    requires Split(a, lo, p, hi) && (Rearranged(a, b, lo, p) || Rearranged(a, b, p + 1, hi))
    ensures Split(b, lo, p, hi)
  {
    if Rearranged(a, b, lo, p) {
      assert forall k :: p <= k < hi ==> b[k] == b[p..][k - p] && a[k] == a[p..][k - p];
      forall k | lo <= k < p ensures b[k] <= b[p] {
        var m := SameElements(a, b, lo, p, k);
      }
    } else {
      assert forall k :: 0 <= k <= p ==> b[k] == b[..p + 1][k] && a[k] == a[..p + 1][k];
      forall k | p < k < hi ensures b[p] < b[k] {
        var m := SameElements(a, b, p + 1, hi, k);
      }
    }
  }

  lemma SortedAround(before: seq<int>, s: seq<int>, lo: int, p: int, hi: int)
    requires Split(s, lo, p, hi) && Rearranged(before, s, p + 1, hi)
    requires Sorted(before[lo..p]) && Sorted(s[p + 1..hi])
    ensures Sorted(s[lo..hi])
  {
    forall i, j | 0 <= i < j < hi - lo
      ensures s[lo..hi][i] <= s[lo..hi][j]
    {
      var x, y := lo + i, lo + j;
      if y < p {
        assert before[..p + 1][x] == s[..p + 1][x] && before[..p + 1][y] == s[..p + 1][y];
        assert before[lo..p][i] <= before[lo..p][j];
      } else if x > p {
        assert s[p + 1..hi][x - p - 1] <= s[p + 1..hi][y - p - 1];
      }
    }
  }

  /** `t` is `s` with `[lo, hi)` sorted and the rest untouched. */
  ghost predicate Sorts(s: seq<int>, t: seq<int>, lo: int, hi: int) {
    Rearranged(s, t, lo, hi) && Sorted(t[lo..hi])
  }

  lemma PartitionCorrect(s: seq<int>, lo: int, hi: int)
    requires 0 <= lo < hi < |s|
    ensures var (t, p) := Partitioned(s, hi, lo - 1, lo);
            Split(t, lo, p, hi + 1) && Rearranged(s, t, lo, hi + 1)
  {
    PartitionSplits(s, lo, hi, lo - 1, lo);
    PartitionRearranges(s, Partitioned(s, hi, lo - 1, lo).0, lo, hi, lo - 1, lo);
  }

  /** Two halves sorted around a pivot: what one level of the recursion amounts to. */
  lemma QuicksortLevel(s: seq<int>, t: seq<int>, u: seq<int>, v: seq<int>, lo: int, p: int, hi: int)
    requires Split(t, lo, p, hi) && Rearranged(s, t, lo, hi)
    requires Sorts(t, u, lo, p) && Sorts(u, v, p + 1, hi)
    ensures Sorts(s, v, lo, hi)
  {
    SplitStays(t, u, lo, p, hi);
    SplitStays(u, v, lo, p, hi);
    SortedAround(u, v, lo, p, hi);
    RearrangedWidens(t, u, lo, p, lo, hi);
    RearrangedWidens(u, v, p + 1, hi, lo, hi);
    RearrangedTwice(s, t, u, lo, hi);
    RearrangedTwice(s, u, v, lo, hi);
  }

  lemma {:induction false} QuicksortUnfolds(s: seq<int>, lo: int, hi: int)
      returns (t: seq<int>, p: int, u: seq<int>)
    requires 0 <= lo < hi < |s|
    ensures |t| == |u| == |s| && lo <= p <= hi && u == Quicksorted(t, lo, p - 1)
    ensures Split(t, lo, p, hi + 1) && Rearranged(s, t, lo, hi + 1)
    ensures Quicksorted(s, lo, hi) == Quicksorted(u, p + 1, hi)
  {
    PartitionCorrect(s, lo, hi);
    t, p := Partitioned(s, hi, lo - 1, lo).0, Partitioned(s, hi, lo - 1, lo).1;
    u := Quicksorted(t, lo, p - 1);
  }

  lemma {:induction false} QuicksortSorts(s: seq<int>, lo: int, hi: int)
    requires 0 <= lo <= hi + 1 <= |s|
    ensures Sorts(s, Quicksorted(s, lo, hi), lo, hi + 1)
    decreases hi + 1 - lo
  {
    if lo < hi {
      var t, p, u := QuicksortUnfolds(s, lo, hi);
      QuicksortSorts(t, lo, p - 1);
      QuicksortSorts(u, p + 1, hi);
      QuicksortLevel(s, t, u, Quicksorted(u, p + 1, hi), lo, p, hi + 1);
    } else {
      SortsTrivially(s, lo, hi + 1);
    }
  }

  lemma SortsTrivially(s: seq<int>, lo: int, hi: int)
    requires 0 <= lo <= hi <= |s| && hi - lo <= 1
    ensures Sorts(s, s, lo, hi)
  {
  }

  /** `sortInt64Slice`: insertion sort up to 20 elements, quicksort above. */
  method Sort(s: array<int>)
    modifies s
    ensures Sorted(s[..]) && multiset(s[..]) == multiset(old(s[..]))
  {
    var n := s.Length;
    if n <= 20 {
      InsertionSort(s);
      InsertionSorts(old(s[..]), 1);
      return;
    }
    Quicksort(s, 0, n - 1);
    QuicksortSorts(old(s[..]), 0, n - 1);
    assert s[0..n] == s[..] && old(s[..])[0..n] == old(s[..]);
  }

  // ---------------------------------------------------------------------------
  // Interpolated percentiles

  /** Go's conversion from float64 to an integer drops the fraction. */
  function Trunc(x: real): int { if x >= 0.0 then x.Floor else -((-x).Floor) }

  function Rank(p: nat, n: nat): real { p as real / 100.0 * (n as real - 1.0) }

  /** The value a fraction `w` of the way from `a` to `b`. */
  function Between(a: int, b: int, w: real): int { a + Trunc(w * (b - a) as real) }

  /** `percentile`. */
  function Percentile(s: seq<int>, p: nat): int {
    if |s| == 0 then 0
    else if |s| == 1 then s[0]
    else
      RankNonNegative(p, |s|);
      var rank := Rank(p, |s|);
      var lower := Trunc(rank);
      if lower + 1 >= |s| then s[|s| - 1]
      else Between(s[lower], s[lower + 1], rank - lower as real)
  }

  lemma RankNonNegative(p: nat, n: nat)
    requires n >= 1
    ensures 0.0 <= Rank(p, n)
  {
    Scale(0.0, p as real / 100.0, n as real - 1.0);
  }

  /** Multiplying by something not negative keeps order. */
  lemma Scale(a: real, b: real, d: real)
    requires a <= b && 0.0 <= d
    ensures a * d <= b * d
  {
    assert (b - a) * d >= 0.0;
  }

  lemma RankMonotone(p: nat, q: nat, n: nat)
    requires p <= q && n >= 1
    ensures Rank(p, n) <= Rank(q, n)
  {
    Scale(p as real / 100.0, q as real / 100.0, n as real - 1.0);
  }

  lemma BetweenBounds(a: int, b: int, w: real)
    requires a <= b && 0.0 <= w <= 1.0
    ensures a <= Between(a, b, w) <= b
  {
    var d := (b - a) as real;
    Scale(0.0, w, d);
    Scale(w, 1.0, d);
  }

  lemma BetweenMonotone(a: int, b: int, v: real, w: real)
    requires a <= b && 0.0 <= v <= w
    ensures Between(a, b, v) <= Between(a, b, w)
  {
    var d := (b - a) as real;
    Scale(0.0, v, d);
    Scale(v, w, d);
    TruncMonotone(v * d, w * d);
  }

  lemma TruncMonotone(x: real, y: real)
    requires 0.0 <= x <= y
    ensures Trunc(x) <= Trunc(y)
  {
  }

  lemma PercentileBounds(s: seq<int>, p: nat)
    requires Sorted(s) && s != []
    ensures s[0] <= Percentile(s, p) <= s[|s| - 1]
  {
    if |s| > 1 {
      RankNonNegative(p, |s|);
      var rank := Rank(p, |s|);
      var lower := Trunc(rank);
      if lower + 1 < |s| {
        BetweenBounds(s[lower], s[lower + 1], rank - lower as real);
      }
    }
  }

  /** On sorted data a higher percentile is never a smaller value. */
  lemma PercentileMonotone(s: seq<int>, p: nat, q: nat)
    requires Sorted(s) && p <= q
    ensures Percentile(s, p) <= Percentile(s, q)
  {
    if |s| > 1 {
      RankNonNegative(p, |s|);
      RankMonotone(p, q, |s|);
      var rp, rq := Rank(p, |s|), Rank(q, |s|);
      var lp, lq := Trunc(rp), Trunc(rq);
      assert lp <= lq;
      if lq + 1 >= |s| {
        PercentileBounds(s, p);
      } else if lp == lq {
        BetweenMonotone(s[lp], s[lp + 1], rp - lp as real, rq - lq as real);
      } else {
        BetweenBounds(s[lp], s[lp + 1], rp - lp as real);
        BetweenBounds(s[lq], s[lq + 1], rq - lq as real);
      }
    }
  }

  lemma RankIs(p: nat, n: nat)
    requires n >= 1
    ensures Rank(p, n) * 100.0 == (p * (n - 1)) as real
  {
    assert (p * (n - 1)) as real == p as real * (n as real - 1.0);
  }

  lemma TruncIs(x: real, k: nat)
    requires k as real <= x < (k + 1) as real
    ensures Trunc(x) == k
  {
  }

  lemma RankWithin(p: nat, n: nat, k: nat)
    requires n >= 1 && 100 * k <= p * (n - 1) < 100 * (k + 1)
    ensures k as real <= Rank(p, n) < (k + 1) as real && Trunc(Rank(p, n)) == k
    ensures 100 * k == p * (n - 1) ==> Rank(p, n) == k as real
  {
    RankIs(p, n);
    TruncIs(Rank(p, n), k);
  }

  /** Where the rank is a whole number, the percentile is the value of that rank; at 100 the last one. */
  lemma PercentileAtRank(s: seq<int>, p: nat, k: nat)
    requires k < |s| && p * (|s| - 1) == 100 * k
    ensures Percentile(s, p) == s[k]
  {
    if |s| > 1 {
      RankWithin(p, |s|, k);
    }
  }

  lemma PercentileLast(s: seq<int>)
    requires s != []
    ensures Percentile(s, 100) == s[|s| - 1]
  {
    PercentileAtRank(s, 100, |s| - 1);
  }

  lemma Interpolated(s: seq<int>, p: nat, k: nat)
    requires k + 1 < |s| && 100 * k <= p * (|s| - 1) < 100 * (k + 1)
    ensures Percentile(s, p) == Between(s[k], s[k + 1], Rank(p, |s|) - k as real)
    ensures 0.0 <= Rank(p, |s|) - k as real < 1.0
  {
    RankWithin(p, |s|, k);
  }

  lemma WeightIs(p: nat, n: nat, k: nat)
    requires n >= 1
    ensures (Rank(p, n) - k as real) * 100.0 == (p * (n - 1) - 100 * k) as real
  {
    RankIs(p, n);
  }

  /** Between two ranks, the percentile lies as far between their values as the rank does, rounded down. */
  lemma PercentileBetweenRanks(s: seq<int>, p: nat, k: nat)
    requires Sorted(s) && k + 1 < |s| && 100 * k <= p * (|s| - 1) < 100 * (k + 1)
    ensures s[k] <= Percentile(s, p) <= s[k + 1]
    ensures var part := Product(p * (|s| - 1) - 100 * k, s[k + 1] - s[k]);
            100 * (Percentile(s, p) - s[k]) <= part < 100 * (Percentile(s, p) - s[k] + 1)
  {
    var n, d, w := p * (|s| - 1) - 100 * k, s[k + 1] - s[k], Rank(p, |s|) - k as real;
    Interpolated(s, p, k);
    BetweenBounds(s[k], s[k + 1], w);
    WeightIs(p, |s|, k);
    PartOf(n, d, w);
  }

  function Product(a: int, b: int): int { a * b }

  lemma PartOf(n: int, d: int, w: real)
    requires d >= 0 && n >= 0 && w * 100.0 == n as real
    ensures 100 * Trunc(w * d as real) <= Product(n, d) < 100 * Trunc(w * d as real) + 100
  {
    assert (n * d) as real == n as real * d as real == 100.0 * (w * d as real);
    assert w * d as real >= 0.0 by {
      Scale(0.0, w, d as real);
    }
  }

  // ---------------------------------------------------------------------------
  // The tracker

  const MIN_UNSET := -1
  const MAX_SAMPLE := 1000

  function Sum(s: seq<int>): int { if s == [] then 0 else Sum(s[..|s| - 1]) + s[|s| - 1] }

  /** Which of the six bars a gap falls in. */
  function Bar(gap: int): (i: nat)
    ensures i < 6
  {
    if gap < 10 then 0 else if gap < 50 then 1 else if gap < 100 then 2
    else if gap < 500 then 3 else if gap < 1000 then 4 else 5
  }

  function InBar(s: seq<int>, bar: nat): nat {
    if s == [] then 0 else InBar(s[..|s| - 1], bar) + (if Bar(s[|s| - 1]) == bar then 1 else 0)
  }

  datatype Histogram = Histogram(
    minGap: int, maxGap: int, avgGap: real, p50: int, p95: int, p99: int, bars: seq<nat>)

  /** The fields of the tracker. */
  datatype Stats = Stats(gaps: seq<int>, count: nat, sum: int, min: int, max: int, buckets: seq<nat>)

  function Sample(all: seq<int>): seq<int> { if |all| <= MAX_SAMPLE then all else all[..MAX_SAMPLE] }

  ghost predicate Counted(all: seq<int>, buckets: seq<nat>) {
    |buckets| == 6 && forall i :: 0 <= i < 6 ==> buckets[i] == InBar(all, i)
  }

  const NO_GAPS := Stats([], 0, 0, MIN_UNSET, 0, [0, 0, 0, 0, 0, 0])

  function Recorded(st: Stats, g: int): Stats
    requires |st.buckets| == 6
  {
    Stats(if |st.gaps| < MAX_SAMPLE then st.gaps + [g] else st.gaps,
          st.count + 1,
          st.sum + g,
          Lower(MIN_UNSET, st.min, g),
          Higher(st.max, g),
          st.buckets[Bar(g) := st.buckets[Bar(g)] + 1])
  }

  /** The fields after any gaps, from the start. */
  function RecordedAll(all: seq<int>): (st: Stats)
    ensures |st.buckets| == 6
  {
    if all == [] then NO_GAPS else Recorded(RecordedAll(all[..|all| - 1]), all[|all| - 1])
  }

  class EventGapTracker {
    var gaps: seq<int>
    var count: nat
    var sum: int
    var min: int
    var max: int
    var buckets: seq<nat>

    ghost function State(): Stats
      reads this
    {
      Stats(gaps, count, sum, min, max, buckets)
    }

    constructor ()
      ensures State() == RecordedAll([])
    {
      gaps, count, sum, min, max, buckets := [], 0, 0, MIN_UNSET, 0, [0, 0, 0, 0, 0, 0];
    }

    /** `recordGap`. */
    method RecordGap(gapMs: int)
      requires |buckets| == 6
      modifies this
      ensures State() == Recorded(old(State()), gapMs)
      ensures forall all :: old(State()) == RecordedAll(all) ==> State() == RecordedAll(all + [gapMs])
    {
      if |gaps| < MAX_SAMPLE {
        gaps := gaps + [gapMs];
      }
      count := count + 1;
      sum := sum + gapMs;
      if min == MIN_UNSET || gapMs < min {
        min := gapMs;
      }
      if gapMs > max {
        max := gapMs;
      }
      CountInBar(gapMs);
      forall all | old(State()) == RecordedAll(all) ensures State() == RecordedAll(all + [gapMs]) {
        assert (all + [gapMs])[..|all|] == all;
      }
    }

    /** The switch at the end of `recordGap`. */
    method CountInBar(gapMs: int)
      requires |buckets| == 6
      modifies this`buckets
      ensures buckets == old(buckets)[Bar(gapMs) := old(buckets)[Bar(gapMs)] + 1]
    {
      var i := 5;
      if gapMs < 10 {
        i := 0;
      } else if gapMs < 50 {
        i := 1;
      } else if gapMs < 100 {
        i := 2;
      } else if gapMs < 500 {
        i := 3;
      } else if gapMs < 1000 {
        i := 4;
      }
      buckets := buckets[i := buckets[i] + 1];
    }

    /** `buildHistogram`; nothing is built before the first gap. */
    method BuildHistogram(ghost all: seq<int>) returns (r: Option<Histogram>)
      requires State() == RecordedAll(all)
      ensures r.None? <==> all == []
      ensures r.Some? ==> Faithful(r.value, all)
    {
      RecordedIs(all);
      if count == 0 {
        return None;
      }
      var sorted := new int[|gaps|](i requires 0 <= i < |gaps| reads this => gaps[i]);
      assert sorted[..] == gaps;
      Sort(sorted);
      var p50, p95, p99 := Percentile(sorted[..], 50), Percentile(sorted[..], 95), Percentile(sorted[..], 99);
      HistogramFaithful(all, sorted[..]);
      r := Some(Summary(Stats(gaps, count, sum, min, max, buckets), p50, p95, p99));
    }
  }

  function Summary(st: Stats, p50: int, p95: int, p99: int): Histogram
    requires st.count > 0
  {
    Histogram(st.min, st.max, st.sum as real / st.count as real, p50, p95, p99, st.buckets)
  }

  ghost predicate IsMean(avg: real, all: seq<int>) { avg * |all| as real == Sum(all) as real }

  /** The three percentiles are those of the sample, sorted. */
  ghost predicate Ranks(h: Histogram, sorted: seq<int>, all: seq<int>) {
    && Sorted(sorted) && multiset(sorted) == multiset(Sample(all)) && sorted != []
    && h.p50 == Percentile(sorted, 50) && h.p95 == Percentile(sorted, 95) && h.p99 == Percentile(sorted, 99)
  }

  /** The minimum survives the mark for none: a gap lies below it, or none equals it, or the last does. */
  predicate MinKept(all: seq<int>)
    requires all != []
  {
    SomeBelow(MIN_UNSET, all) || MIN_UNSET !in all || all[|all| - 1] == MIN_UNSET
  }

  /** What a histogram says of any gaps, those beyond the sample included. */
  ghost predicate Faithful(h: Histogram, all: seq<int>) {
    && all != [] && (exists sorted :: Ranks(h, sorted, all))
    && (IsMin(all, h.minGap) <==> MinKept(all)) && (IsMax(all, h.maxGap) <==> exists g <- all :: 0 <= g)
    && h.p50 <= h.p95 <= h.p99 <= h.maxGap && (IsMin(all, h.minGap) ==> h.minGap <= h.p50)
    && IsMean(h.avgGap, all) && h.avgGap <= h.maxGap as real
    && (IsMin(all, h.minGap) ==> h.minGap as real <= h.avgGap)
    && Counted(all, h.bars)
    && h.bars[0] + h.bars[1] + h.bars[2] + h.bars[3] + h.bars[4] + h.bars[5] == |all|
  }

  /** Gaps of a monotonic clock: everything is in order. */
  lemma MonotonicFaithful(h: Histogram, all: seq<int>)
    requires Faithful(h, all) && forall g <- all :: 0 <= g
    ensures IsMin(all, h.minGap) && IsMax(all, h.maxGap)
    ensures h.minGap <= h.p50 <= h.p95 <= h.p99 <= h.maxGap
    ensures h.minGap as real <= h.avgGap <= h.maxGap as real
  {
    assert all[0] in all;
  }

  /** What is kept of any gaps at all: count, sum, sample, bars and the two running extremes. */
  lemma {:induction false} RecordedIs(all: seq<int>)
    ensures var st := RecordedAll(all);
            && st.gaps == Sample(all) == (if |all| <= 1000 then all else all[..1000])
            && st.count == |all| && st.sum == Sum(all) && Counted(all, st.buckets)
            && st.min == Least(MIN_UNSET, MIN_UNSET, all) && st.max == Greatest(0, all)
  {
    if all != [] {
      var short, g := all[..|all| - 1], all[|all| - 1];
      assert all == short + [g];
      RecordedIs(short);
      SampleMore(short, g);
      CountedMore(short, g, RecordedAll(short).buckets);
    }
  }

  /** After any gaps the minimum is right exactly when it survives the mark for none. */
  lemma RecordedMinIff(all: seq<int>)
    requires all != []
    ensures IsMin(all, RecordedAll(all).min) <==> MinKept(all)
  {
    RecordedIs(all);
    LeastExactIff(MIN_UNSET, all);
  }

  /** A gap of minus one is taken for none and forgotten. */
  lemma MinusOneForgotten()
    ensures RecordedAll([-1, 5]).min == 5 && !IsMin([-1, 5], RecordedAll([-1, 5]).min)
  {
    var all := [-1, 5];
    assert all[..1] == [-1] && [-1][..0] == [] && all[0] in all;
    assert RecordedAll([-1]) == Recorded(RecordedAll([]), -1);
  }

  /** After any gaps the maximum, which starts at zero, is right exactly when one is not negative. */
  lemma RecordedMaxIff(all: seq<int>)
    ensures IsMax(all, RecordedAll(all).max) <==> exists g <- all :: 0 <= g
  {
    RecordedIs(all);
    GreatestExactIff(0, all);
  }

  lemma SampleMore(all: seq<int>, g: int)
    ensures Sample(all + [g]) == (if |Sample(all)| < MAX_SAMPLE then Sample(all) + [g] else Sample(all))
    ensures Sum(all + [g]) == Sum(all) + g
  {
    var more := all + [g];
    assert more[..|all|] == all;
    assert |all| >= MAX_SAMPLE ==> more[..MAX_SAMPLE] == all[..MAX_SAMPLE];
  }

  lemma CountedMore(all: seq<int>, g: int, buckets: seq<nat>)
    requires Counted(all, buckets)
    ensures Counted(all + [g], buckets[Bar(g) := buckets[Bar(g)] + 1])
  {
    assert (all + [g])[..|all|] == all;
  }

  lemma PercentileOrder(s: seq<int>)
    requires Sorted(s) && s != []
    ensures s[0] <= Percentile(s, 50) <= Percentile(s, 95) <= Percentile(s, 99) <= s[|s| - 1]
  {
    PercentileBounds(s, 50);
    PercentileMonotone(s, 50, 95);
    PercentileMonotone(s, 95, 99);
    PercentileBounds(s, 99);
  }

  lemma HistogramFaithful(all: seq<int>, sorted: seq<int>)
    requires all != [] && Sorted(sorted) && multiset(sorted) == multiset(Sample(all))
    ensures sorted != [] && RecordedAll(all).count > 0
    ensures Faithful(Summary(RecordedAll(all), Percentile(sorted, 50), Percentile(sorted, 95), Percentile(sorted, 99)),
                     all)
  {
    var st := RecordedAll(all);
    RecordedIs(all);
    SampleWithin(all, sorted);
    PercentileOrder(sorted);
    RecordedMinIff(all);
    RecordedMaxIff(all);
    GreatestIs(0, all);
    BarsTotal(all, st.buckets);
    MeanBelow(all, st.max);
    if IsMin(all, st.min) {
      MeanAbove(all, st.min);
    }
    assert Ranks(Summary(st, Percentile(sorted, 50), Percentile(sorted, 95), Percentile(sorted, 99)), sorted, all);
  }

  lemma BarsTotal(all: seq<int>, bars: seq<nat>)
    requires Counted(all, bars)
    ensures bars[0] + bars[1] + bars[2] + bars[3] + bars[4] + bars[5] == |all|
  {
    BarsPartition(all);
  }

  lemma MeanBelow(all: seq<int>, max: int)
    requires all != [] && forall g <- all :: g <= max
    ensures var mean := Sum(all) as real / |all| as real; mean <= max as real && IsMean(mean, all)
  {
    SumBelow(all, max);
    AverageBelow(Sum(all), |all|, max);
  }

  lemma MeanAbove(all: seq<int>, min: int)
    requires all != [] && forall g <- all :: min <= g
    ensures min as real <= Sum(all) as real / |all| as real
  {
    SumAbove(all, min);
    AverageAbove(Sum(all), |all|, min);
  }

  /** The sorted sample is drawn from the gaps. */
  lemma SampleWithin(all: seq<int>, s: seq<int>)
    requires all != [] && multiset(s) == multiset(Sample(all))
    ensures s != [] && s[0] in all && s[|s| - 1] in all
  {
    assert |multiset(s)| == |multiset(Sample(all))|;
    forall x | x in s ensures x in all {
      assert x in multiset(s);
      assert x in Sample(all);
    }
  }

  function CountBelow(s: seq<int>, bound: int): nat {
    if s == [] then 0 else CountBelow(s[..|s| - 1], bound) + (if s[|s| - 1] < bound then 1 else 0)
  }

  lemma {:induction false} InBarsBelow(s: seq<int>)
    ensures InBar(s, 0) == CountBelow(s, 10)
    ensures InBar(s, 0) + InBar(s, 1) == CountBelow(s, 50)
    ensures InBar(s, 0) + InBar(s, 1) + InBar(s, 2) == CountBelow(s, 100)
    ensures InBar(s, 0) + InBar(s, 1) + InBar(s, 2) + InBar(s, 3) == CountBelow(s, 500)
    ensures InBar(s, 0) + InBar(s, 1) + InBar(s, 2) + InBar(s, 3) + InBar(s, 4) == CountBelow(s, 1000)
  {
    if s != [] {
      InBarsBelow(s[..|s| - 1]);
    }
  }

  /** The bars of a histogram, summed from the first, count the gaps below 10, 50, 100, 500 and 1000. */
  lemma BarsCumulate(h: Histogram, all: seq<int>)
    requires Faithful(h, all)
    ensures h.bars[0] == CountBelow(all, 10) && h.bars[0] + h.bars[1] == CountBelow(all, 50)
    ensures h.bars[0] + h.bars[1] + h.bars[2] == CountBelow(all, 100)
    ensures h.bars[0] + h.bars[1] + h.bars[2] + h.bars[3] == CountBelow(all, 500)
    ensures h.bars[0] + h.bars[1] + h.bars[2] + h.bars[3] + h.bars[4] == CountBelow(all, 1000)
  {
    InBarsBelow(all);
  }

  lemma {:induction false} BarsPartition(s: seq<int>)
    ensures InBar(s, 0) + InBar(s, 1) + InBar(s, 2) + InBar(s, 3) + InBar(s, 4) + InBar(s, 5) == |s|
  {
    if s != [] {
      BarsPartition(s[..|s| - 1]);
    }
  }

  lemma {:induction false} SumBelow(s: seq<int>, high: int)
    requires forall x <- s :: x <= high
    ensures Sum(s) <= |s| * high
  {
    if s != [] {
      var t := s[..|s| - 1];
      assert s[|s| - 1] in s && forall x <- t :: x in s;
      SumBelow(t, high);
      assert |s| * high == |t| * high + high;
    }
  }

  lemma {:induction false} SumAbove(s: seq<int>, low: int)
    requires forall x <- s :: low <= x
    ensures |s| * low <= Sum(s)
  {
    if s != [] {
      var t := s[..|s| - 1];
      assert s[|s| - 1] in s && forall x <- t :: x in s;
      SumAbove(t, low);
      assert |s| * low == |t| * low + low;
    }
  }

  lemma AverageBelow(sum: int, n: nat, high: int)
    requires n > 0 && sum <= n * high
    ensures sum as real / n as real <= high as real
    ensures sum as real / n as real * n as real == sum as real
  {
    var a, m := sum as real / n as real, n as real;
    assert (n * high) as real == m * high as real;
    assert high as real - a == (m * high as real - sum as real) / m;
  }

  lemma AverageAbove(sum: int, n: nat, low: int)
    requires n > 0 && n * low <= sum
    ensures low as real <= sum as real / n as real
  {
    var a, m := sum as real / n as real, n as real;
    assert (n * low) as real == m * low as real;
    assert a - low as real == (sum as real - m * low as real) / m;
  }
}
