/** The metrics time series of a run: buckets of time sized to the run's duration. */
module TimeSeries {
  import opened Paging
  import opened Sorting
  import opened TelemetryStore
  import opened Wrappers

  /** Division of the source's integers, which truncates towards zero. */
  function Quot(a: int, b: int): int
    requires b > 0
  {
    if a >= 0 then a / b else -((-a) / b)
  }

  function BucketKey(ts: int, size: int): int
    requires size > 0
  {
    Quot(ts, size) * size
  }

  const DEFAULT_SIZE: int := 5000
  const MIN_SIZE: int := 100
  const TARGET: int := 25

  /** `lo` and `hi` are the first and last time of the logs. */
  ghost predicate Span(logs: seq<Log>, lo: int, hi: int) {
    && (forall l <- logs :: lo <= l.tsMs <= hi)
    && (exists l <- logs :: l.tsMs == lo) && (exists l <- logs :: l.tsMs == hi)
  }

  function SizeFor(duration: int): (size: int)
    requires duration >= 0
    ensures size >= MIN_SIZE && duration < (TARGET + 1) * size
  {
    if duration == 0 then DEFAULT_SIZE
    else if duration / TARGET < MIN_SIZE then MIN_SIZE else duration / TARGET
  }

  method BucketSize(logs: seq<Log>) returns (size: int)
    ensures |logs| < 2 ==> size == DEFAULT_SIZE
    ensures forall lo, hi :: Span(logs, lo, hi) ==> size == SizeFor(hi - lo)
    ensures size >= MIN_SIZE
  {
    if |logs| < 2 {
      return DEFAULT_SIZE;
    }
    var minTs, maxTs := logs[0].tsMs, logs[0].tsMs;
    for i := 0 to |logs|
      invariant forall j :: 0 <= j < i ==> minTs <= logs[j].tsMs <= maxTs
      invariant exists j :: 0 <= j < |logs| && logs[j].tsMs == minTs
      invariant exists j :: 0 <= j < |logs| && logs[j].tsMs == maxTs
    {
      if logs[i].tsMs < minTs {
        minTs := logs[i].tsMs;
      }
      if logs[i].tsMs > maxTs {
        maxTs := logs[i].tsMs;
      }
    }
    SpanUnique(logs, minTs, maxTs);
    var durationMs := maxTs - minTs;
    if durationMs <= 0 {
      return DEFAULT_SIZE;
    }
    size := durationMs / TARGET;
    if size < MIN_SIZE {
      size := MIN_SIZE;
    }
  }

  lemma SpanUnique(logs: seq<Log>, lo: int, hi: int)
    requires forall j :: 0 <= j < |logs| ==> lo <= logs[j].tsMs <= hi
    requires exists j :: 0 <= j < |logs| && logs[j].tsMs == lo
    requires exists j :: 0 <= j < |logs| && logs[j].tsMs == hi
    ensures Span(logs, lo, hi) && forall a, b :: Span(logs, a, b) ==> a == lo && b == hi
  {
    var i :| 0 <= i < |logs| && logs[i].tsMs == lo;
    var j :| 0 <= j < |logs| && logs[j].tsMs == hi;
    assert logs[i] in logs && logs[j] in logs;
  }

  // ---------------------------------------------------------------------------
  // How many buckets there are

  lemma MulMonotone(s: int, x: int, y: int)
    requires s >= 0 && x <= y
    ensures s * x <= s * y
  {
  }

  lemma MulCancel(s: int, x: int, y: int)
    requires s > 0 && s * x < s * y
    ensures x < y
  {
    if x >= y {
      MulMonotone(s, y, x);
    }
  }

  lemma QuotBounds(a: int, size: int)
    requires size > 0
    ensures size * (a / size) <= a < size * (a / size + 1)
  {
  }

  /** Times less than `k` sizes apart fall into buckets at most `k` apart. */
  lemma DivSpread(a: int, b: int, size: int, k: int)
    requires 0 <= a <= b && size > 0 && b - a < size * k
    ensures 0 <= b / size - a / size <= k
  {
    QuotBounds(a, size);
    QuotBounds(b, size);
    Spread(a, b, size, k, a / size, b / size);
  }

  lemma Spread(a: int, b: int, size: int, k: int, x: int, y: int)
    requires a <= b && size > 0 && b - a < size * k
    requires size * x <= a < size * (x + 1) && size * y <= b < size * (y + 1)
    ensures 0 <= y - x <= k
  {
    assert size * (x + 1 + k) == size * (x + 1) + size * k;
    MulCancel(size, y, x + 1 + k);
    MulCancel(size, x, y + 1);
  }

  lemma SumOfQuots(a: int, b: int, size: int)
    requires a >= 0 && b >= 0 && size > 0
    ensures a / size + b / size <= (a + b) / size
  {
    var x, y, z := a / size, b / size, (a + b) / size;
    assert size * (x + y) == size * x + size * y && size * (z + 1) == size * z + size;
    MulCancel(size, x + y, z + 1);
  }

  lemma DivNonNegative(a: int, size: int)
    requires a >= 0 && size > 0
    ensures a / size >= 0
  {
    MulCancel(size, -1, a / size);
  }

  lemma AcrossZero(a: int, b: int, size: int, k: int)
    requires a >= 0 && b >= 0 && size > 0 && a + b < size * k
    ensures 0 <= a / size + b / size <= k
  {
    SumOfQuots(a, b, size);
    DivNonNegative(a, size);
    DivNonNegative(b, size);
    assert 0 / size == 0;
    DivSpread(0, a + b, size, k);
  }

  lemma QuotSpread(a: int, b: int, size: int, k: int)
    requires a <= b && size > 0 && b - a < size * k
    ensures 0 <= Quot(b, size) - Quot(a, size) <= k
  {
    if a >= 0 {
      DivSpread(a, b, size, k);
    } else if b < 0 {
      DivSpread(-b, -a, size, k);
    } else {
      AcrossZero(b, -a, size, k);
    }
  }

  // ---------------------------------------------------------------------------
  // Buckets

  datatype Bucket = Bucket(success: nat, failed: nat, latencies: seq<int>)

  const EMPTY_BUCKET: Bucket := Bucket(0, 0, [])

  function With(b: Bucket, l: Log): Bucket {
    Bucket(b.success + (if l.ok then 1 else 0), b.failed + (if l.ok then 0 else 1), b.latencies + [l.latencyMs])
  }

  /** What the logs of one bucket come to, in the order of the log. */
  function BucketOf(logs: seq<Log>, size: int, key: int): (b: Bucket)
    requires size > 0
    ensures b.success + b.failed == |b.latencies|
  {
    if logs == [] then EMPTY_BUCKET
    else
      var b, l := BucketOf(logs[..|logs| - 1], size, key), logs[|logs| - 1];
      if BucketKey(l.tsMs, size) == key then With(b, l) else b
  }

  ghost function Keys(logs: seq<Log>, size: int): set<int>
    requires size > 0
  {
    set l | l in logs :: BucketKey(l.tsMs, size)
  }

  lemma KeysMore(logs: seq<Log>, l: Log, size: int)
    requires size > 0
    ensures Keys(logs + [l], size) == Keys(logs, size) + {BucketKey(l.tsMs, size)}
  {
    assert l in logs + [l];
  }

  lemma {:induction false} EmptyOutside(logs: seq<Log>, size: int, key: int)
    requires size > 0
    ensures BucketOf(logs, size, key) == EMPTY_BUCKET <==> key !in Keys(logs, size)
    decreases |logs|
  {
    if logs != [] {
      var short, l := logs[..|logs| - 1], logs[|logs| - 1];
      assert logs == short + [l];
      EmptyOutside(short, size, key);
      KeysMore(short, l, size);
    }
  }

  ghost predicate Filled(buckets: map<int, Bucket>, logs: seq<Log>, size: int)
    requires size > 0
  {
    buckets.Keys == Keys(logs, size) && forall k <- buckets :: buckets[k] == BucketOf(logs, size, k)
  }

  method AddTo(bucket: Bucket, log: Log) returns (b: Bucket)
    ensures b == With(bucket, log)
  {
    b := bucket;
    if log.ok {
      b := b.(success := b.success + 1);
    } else {
      b := b.(failed := b.failed + 1);
    }
    b := b.(latencies := b.latencies + [log.latencyMs]);
  }

  method Fill(logs: seq<Log>, size: int) returns (buckets: map<int, Bucket>)
    requires size > 0
    ensures Filled(buckets, logs, size)
  {
    buckets := map[];
    ghost var done: seq<Log> := [];
    Whole(logs);
    for i := 0 to |logs|
      invariant done == logs[..i] && Filled(buckets, done, size)
    {
      var key := BucketKey(logs[i].tsMs, size);
      FilledMore(buckets, done, logs[i], size);
      OneStep(logs, i);
      var bucket := AddTo(if key in buckets then buckets[key] else EMPTY_BUCKET, logs[i]);
      buckets := buckets[key := bucket];
      done := done + [logs[i]];
    }
  }

  lemma FilledMore(buckets: map<int, Bucket>, logs: seq<Log>, l: Log, size: int)
    requires size > 0 && Filled(buckets, logs, size)
    ensures var key := BucketKey(l.tsMs, size);
            Filled(buckets[key := With(if key in buckets then buckets[key] else EMPTY_BUCKET, l)], logs + [l], size)
  {
    var key := BucketKey(l.tsMs, size);
    KeysMore(logs, l, size);
    EmptyOutside(logs, size, key);
    assert (logs + [l])[..|logs|] == logs;
  }

  // ---------------------------------------------------------------------------
  // The keys in order

  ghost predicate Increasing(keys: seq<int>) { forall i, j :: 0 <= i < j < |keys| ==> keys[i] < keys[j] }

  method ListOf<T(==)>(keys: set<T>) returns (list: seq<T>)
    ensures multiset(list) == multiset(keys)
  {
    var todo := keys;
    list := [];
    while todo != {}
      invariant todo <= keys && multiset(list) == multiset(keys - todo)
      decreases todo
    {
      var k :| k in todo;
      assert keys - (todo - {k}) == (keys - todo) + {k};
      list := list + [k];
      todo := todo - {k};
    }
    assert keys - {} == keys;
  }

  method SortedKeys(keys: set<int>) returns (r: seq<int>)
    ensures Increasing(r) && (forall k :: k in r <==> k in keys)
  {
    var list := ListOf(keys);
    r := SortBy(list, (k: int) => k);
    DistinctIncreasing(r, keys);
  }

  lemma OnceEach<T>(r: seq<T>, keys: set<T>, i: nat, j: nat)
    requires multiset(r) == multiset(keys) && i < j < |r|
    ensures r[i] != r[j]
  {
    assert r == r[..j] + r[j..] && r[i] in r[..j] && r[j] in r[j..];
    assert multiset(r)[r[j]] == multiset(r[..j])[r[j]] + multiset(r[j..])[r[j]];
  }

  lemma SameMembers<T>(r: seq<T>, keys: set<T>)
    requires multiset(r) == multiset(keys)
    ensures forall k :: k in r <==> k in keys
  {
    forall k ensures k in r <==> k in keys {
      assert k in r <==> k in multiset(r);
      assert k in keys <==> k in multiset(keys);
    }
  }

  lemma DistinctIncreasing(r: seq<int>, keys: set<int>)
    requires multiset(r) == multiset(keys) && Ordered(r, (k: int) => k)
    ensures Increasing(r) && (forall k :: k in r <==> k in keys)
  {
    forall i, j | 0 <= i < j < |r| ensures r[i] < r[j] {
      var key := (k: int) => k;
      assert key(r[i]) <= key(r[j]);
      OnceEach(r, keys, i, j);
    }
    SameMembers(r, keys);
  }

  // ---------------------------------------------------------------------------
  // Percentiles of one bucket

  ghost predicate Sorts(sorted: seq<int>, latencies: seq<int>) {
    multiset(sorted) == multiset(latencies) && Ordered(sorted, (v: int) => v)
  }

  function Sum(s: seq<int>): int { if s == [] then 0 else Sum(s[..|s| - 1]) + s[|s| - 1] }

  /** The three ranks, in the latencies sorted, and the mean. */
  ghost predicate Ranked(latencies: seq<int>, p50: int, p95: int, p99: int, mean: real) {
    exists sorted ::
      && Sorts(sorted, latencies) && |sorted| == |latencies| > 0
      && p50 == sorted[|sorted| * 50 / 100] && p95 == sorted[|sorted| * 95 / 100]
      && p99 == sorted[|sorted| * 99 / 100]
      && mean == Sum(sorted) as real / |sorted| as real
  }

  method Percentiles(latencies: seq<int>) returns (p50: int, p95: int, p99: int, mean: real)
    ensures latencies == [] ==> p50 == p95 == p99 == 0 && mean == 0.0
    ensures latencies != [] ==> Ranked(latencies, p50, p95, p99, mean)
  {
    if |latencies| == 0 {
      return 0, 0, 0, 0.0;
    }
    var sorted := SortBy(latencies, (v: int) => v);
    assert |sorted| == |multiset(sorted)| == |multiset(latencies)| == |latencies|;
    var sum := 0;
    for i := 0 to |sorted|
      invariant sum == Sum(sorted[..i])
    {
      assert sorted[..i + 1][..i] == sorted[..i];
      sum := sum + sorted[i];
    }
    assert sorted[..|sorted|] == sorted;
    mean := sum as real / |sorted| as real;
    p50 := sorted[|sorted| * 50 / 100];
    p95 := sorted[|sorted| * 95 / 100];
    var p99Index := |sorted| * 99 / 100;
    if p99Index >= |sorted| {
      p99Index := |sorted| - 1;
    }
    p99 := sorted[p99Index];
    assert Sorts(sorted, latencies);
  }

  lemma {:induction false} SumBetween(s: seq<int>, lo: int, hi: int)
    requires forall i :: 0 <= i < |s| ==> lo <= s[i] <= hi
    ensures lo * |s| <= Sum(s) <= hi * |s|
    decreases |s|
  {
    if s != [] {
      SumBetween(s[..|s| - 1], lo, hi);
      assert lo * |s| == lo * (|s| - 1) + lo && hi * |s| == hi * (|s| - 1) + hi;
    }
  }

  lemma Division(n: int, d: int, lo: int, hi: int)
    requires d > 0 && lo * d <= n <= hi * d
    ensures lo as real <= n as real / d as real <= hi as real
  {
    var q := n as real / d as real;
    assert q * d as real == n as real;
    assert (lo * d) as real == lo as real * d as real && (hi * d) as real == hi as real * d as real;
  }

  ghost predicate Within(s: seq<int>, lo: int, hi: int) { forall v <- s :: lo <= v <= hi }

  /** The three percentiles are in order and are latencies of the bucket. */
  lemma PercentilesInOrder(latencies: seq<int>, p50: int, p95: int, p99: int, mean: real)
    requires Ranked(latencies, p50, p95, p99, mean)
    ensures p50 <= p95 <= p99
    ensures p50 in latencies && p95 in latencies && p99 in latencies
  {
    var sorted :| Sorts(sorted, latencies) && |sorted| == |latencies| > 0
                  && p50 == sorted[|sorted| * 50 / 100] && p95 == sorted[|sorted| * 95 / 100]
                  && p99 == sorted[|sorted| * 99 / 100]
                  && mean == Sum(sorted) as real / |sorted| as real;
    SortedRanks(sorted, |sorted| * 50 / 100, |sorted| * 95 / 100);
    SortedRanks(sorted, |sorted| * 95 / 100, |sorted| * 99 / 100);
    SameElements(sorted, latencies);
  }

  lemma SameElements(a: seq<int>, b: seq<int>)
    requires multiset(a) == multiset(b)
    ensures forall v :: v in a <==> v in b
  {
    forall v ensures v in a <==> v in b {
      assert v in a <==> v in multiset(a);
      assert v in b <==> v in multiset(b);
    }
  }

  /** The mean is within any bounds of the latencies. */
  lemma MeanWithin(latencies: seq<int>, p50: int, p95: int, p99: int, mean: real, lo: int, hi: int)
    requires Ranked(latencies, p50, p95, p99, mean) && Within(latencies, lo, hi)
    ensures lo as real <= mean <= hi as real
  {
    var sorted :| Sorts(sorted, latencies) && |sorted| == |latencies| > 0
                  && p50 == sorted[|sorted| * 50 / 100] && p95 == sorted[|sorted| * 95 / 100]
                  && p99 == sorted[|sorted| * 99 / 100]
                  && mean == Sum(sorted) as real / |sorted| as real;
    SameElements(sorted, latencies);
    forall i | 0 <= i < |sorted| ensures lo <= sorted[i] <= hi {
      assert sorted[i] in sorted;
    }
    SumBetween(sorted, lo, hi);
    Division(Sum(sorted), |sorted|, lo, hi);
  }

  lemma SortedRanks(sorted: seq<int>, i: nat, j: nat)
    requires Ordered(sorted, (v: int) => v) && i <= j < |sorted|
    ensures sorted[i] <= sorted[j]
  {
    if i < j {
      var key := (v: int) => v;
      assert key(sorted[i]) <= key(sorted[j]);
    }
  }

  // ---------------------------------------------------------------------------
  // The series

  datatype Point = Point(
    timestamp: int, success: nat, failed: nat, throughput: real,
    p50: int, p95: int, p99: int, mean: real, errorRate: real)

  ghost predicate Rated(p: Point, size: int)
    requires size > 0
  {
    && p.success + p.failed > 0
    && p.errorRate == p.failed as real / (p.success + p.failed) as real
    && p.throughput == (p.success + p.failed) as real / (size as real / 1000.0)
  }

  ghost predicate PointOf(p: Point, logs: seq<Log>, size: int)
    requires size > 0
  {
    var b := BucketOf(logs, size, p.timestamp);
    && p.success == b.success && p.failed == b.failed
    && Rated(p, size)
    && Ranked(b.latencies, p.p50, p.p95, p.p99, p.mean)
  }

  method PointFor(key: int, bucket: Bucket, ghost logs: seq<Log>, size: int) returns (p: Point)
    requires size > 0 && bucket == BucketOf(logs, size, key) && bucket != EMPTY_BUCKET
    ensures p.timestamp == key && PointOf(p, logs, size)
  {
    var totalOps := bucket.success + bucket.failed;
    var errorRate := 0.0;
    NotEmpty(logs, size, key);
    if totalOps > 0 {
      errorRate := bucket.failed as real / totalOps as real;
    }
    var throughput := totalOps as real / (size as real / 1000.0);
    var p50, p95, p99, mean := Percentiles(bucket.latencies);
    p := Point(key, bucket.success, bucket.failed, throughput, p50, p95, p99, mean, errorRate);
  }

  lemma {:induction false} NotEmpty(logs: seq<Log>, size: int, key: int)
    requires size > 0 && BucketOf(logs, size, key) != EMPTY_BUCKET
    ensures |BucketOf(logs, size, key).latencies| > 0
    decreases |logs|
  {
    if logs != [] {
      var l := logs[|logs| - 1];
      if BucketKey(l.tsMs, size) != key {
        NotEmpty(logs[..|logs| - 1], size, key);
      }
    }
  }

  /** One point for every bucket that has a log, in increasing order of time. */
  ghost predicate SeriesOf(points: seq<Point>, keys: seq<int>, logs: seq<Log>, size: int)
    requires size > 0
  {
    && Increasing(keys) && (forall k :: k in keys <==> k in Keys(logs, size)) && |points| == |keys|
    && forall i :: 0 <= i < |points| ==> points[i].timestamp == keys[i] && PointOf(points[i], logs, size)
  }

  method PointsFor(keys: seq<int>, buckets: map<int, Bucket>, ghost logs: seq<Log>, size: int)
      returns (points: seq<Point>)
    requires size > 0 && Filled(buckets, logs, size) && forall k <- keys :: k in buckets
    ensures |points| == |keys|
    ensures forall i :: 0 <= i < |points| ==> points[i].timestamp == keys[i] && PointOf(points[i], logs, size)
  {
    points := [];
    for i := 0 to |keys|
      invariant |points| == i
      invariant forall j :: 0 <= j < i ==> points[j].timestamp == keys[j] && PointOf(points[j], logs, size)
    {
      assert keys[i] in keys;
      EmptyOutside(logs, size, keys[i]);
      var p := PointFor(keys[i], buckets[keys[i]], logs, size);
      points := points + [p];
    }
  }

  method MetricsTimeSeries(logs: seq<Log>) returns (points: seq<Point>, ghost keys: seq<int>, ghost size: int)
    ensures size > 0 && SeriesOf(points, keys, logs, size) && (logs != [] ==> SizeOf(size, logs))
    ensures Sound(points, logs)
  {
    if |logs| == 0 {
      SeriesSound([], [], logs, DEFAULT_SIZE);
      return [], [], DEFAULT_SIZE;
    }
    var bucketSize := BucketSize(logs);
    SizeIs(logs, bucketSize);
    var buckets := Fill(logs, bucketSize);
    var bucketKeys := SortedKeys(buckets.Keys);
    points := PointsFor(bucketKeys, buckets, logs, bucketSize);
    keys, size := bucketKeys, bucketSize;
    SeriesSound(points, keys, logs, size);
  }

  ghost predicate SizeOf(size: int, logs: seq<Log>) { exists lo, hi :: Span(logs, lo, hi) && size == SizeFor(hi - lo) }

  lemma SizeIs(logs: seq<Log>, size: int)
    requires logs != [] && forall lo, hi :: Span(logs, lo, hi) ==> size == SizeFor(hi - lo)
    ensures SizeOf(size, logs)
  {
    var lo, hi := SpanExists(logs);
    assert size == SizeFor(hi - lo);
  }

  lemma SpanMore(short: seq<Log>, l: Log, a: int, b: int)
    requires Span(short, a, b)
    ensures Span(short + [l], if a < l.tsMs then a else l.tsMs, if b > l.tsMs then b else l.tsMs)
  {
    var logs := short + [l];
    var x :| x in short && x.tsMs == a;
    var y :| y in short && y.tsMs == b;
    assert logs[|short|] == l && x in logs && y in logs;
  }

  lemma SpanOne(l: Log)
    ensures Span([l], l.tsMs, l.tsMs)
  {
    assert [l][0] in [l];
  }

  lemma {:induction false} SpanExists(logs: seq<Log>) returns (lo: int, hi: int)
    requires logs != []
    ensures Span(logs, lo, hi)
    decreases |logs|
  {
    var short, l := logs[..|logs| - 1], logs[|logs| - 1];
    assert logs == short + [l];
    if short == [] {
      SpanOne(l);
      lo, hi := l.tsMs, l.tsMs;
    } else {
      var a, b := SpanExists(short);
      SpanMore(short, l, a, b);
      lo, hi := if a < l.tsMs then a else l.tsMs, if b > l.tsMs then b else l.tsMs;
    }
  }

  // ---------------------------------------------------------------------------
  // What every series has

  function Total(points: seq<Point>): nat {
    if points == [] then 0
    else Total(points[..|points| - 1]) + points[|points| - 1].success + points[|points| - 1].failed
  }

  function Counted(keys: seq<int>, logs: seq<Log>, size: int): nat
    requires size > 0
  {
    if keys == [] then 0
    else Counted(keys[..|keys| - 1], logs, size) + |BucketOf(logs, size, keys[|keys| - 1]).latencies|
  }

  /** A log more counts once if its bucket is among the keys, which are distinct. */
  lemma {:induction false} CountedMore(keys: seq<int>, logs: seq<Log>, l: Log, size: int)
    requires size > 0 && Increasing(keys)
    ensures Counted(keys, logs + [l], size) ==
              Counted(keys, logs, size) + if BucketKey(l.tsMs, size) in keys then 1 else 0
    decreases |keys|
  {
    if keys != [] {
      var short, k := keys[..|keys| - 1], keys[|keys| - 1];
      assert keys == short + [k] && k !in short;
      CountedMore(short, logs, l, size);
      assert (logs + [l])[..|logs|] == logs;
    }
  }

  lemma {:induction false} CountedAll(keys: seq<int>, logs: seq<Log>, size: int)
    requires size > 0 && Increasing(keys) && forall l <- logs :: BucketKey(l.tsMs, size) in keys
    ensures Counted(keys, logs, size) == |logs|
    decreases |logs|
  {
    if logs == [] {
      CountedNone(keys, size);
    } else {
      var short, l := logs[..|logs| - 1], logs[|logs| - 1];
      assert logs == short + [l] && l in logs;
      CountedAll(keys, short, size);
      CountedMore(keys, short, l, size);
    }
  }

  lemma {:induction false} CountedNone(keys: seq<int>, size: int)
    requires size > 0
    ensures Counted(keys, [], size) == 0
    decreases |keys|
  {
    if keys != [] {
      CountedNone(keys[..|keys| - 1], size);
    }
  }

  lemma {:induction false} TotalIsCounted(points: seq<Point>, keys: seq<int>, logs: seq<Log>, size: int)
    requires size > 0 && |points| == |keys|
    requires forall i :: 0 <= i < |points| ==> points[i].timestamp == keys[i] && PointOf(points[i], logs, size)
    ensures Total(points) == Counted(keys, logs, size)
    decreases |points|
  {
    if points != [] {
      TotalIsCounted(points[..|points| - 1], keys[..|keys| - 1], logs, size);
    }
  }

  /** Increasing multiples of `size` are no more than their quotients' range allows. */
  lemma {:induction false} KeysAtMost(keys: seq<int>, size: int, lo: int, hi: int)
    requires size > 0 && Increasing(keys) && lo <= hi
    requires forall k <- keys :: exists q :: lo <= q <= hi && k == q * size
    ensures |keys| <= hi - lo + 1
    decreases |keys|
  {
    if keys != [] {
      var short, k := keys[..|keys| - 1], keys[|keys| - 1];
      assert k in keys;
      var q :| lo <= q <= hi && k == q * size;
      if short != [] {
        forall j | j in short ensures exists p :: lo <= p <= q - 1 && j == p * size {
          assert j in keys;
          var p :| lo <= p <= hi && j == p * size;
          var i :| 0 <= i < |short| && short[i] == j;
          assert keys[i] < keys[|short|];
          MulCancel(size, p, q);
        }
        assert short[0] in short;
        KeysAtMost(short, size, lo, q - 1);
      }
    }
  }

  lemma KeyRange(logs: seq<Log>, size: int, k: int, lo: int, hi: int)
    requires size > 0 && Span(logs, lo, hi) && hi - lo < size * (TARGET + 1) && k in Keys(logs, size)
    ensures exists q :: Quot(lo, size) <= q <= Quot(hi, size) && k == q * size
  {
    var l :| l in logs && BucketKey(l.tsMs, size) == k;
    QuotSpread(lo, l.tsMs, size, TARGET + 1);
    QuotSpread(l.tsMs, hi, size, TARGET + 1);
    assert k == Quot(l.tsMs, size) * size;
  }

  ghost predicate Sound(points: seq<Point>, logs: seq<Log>) {
    && |points| <= TARGET + 2
    && (forall i, j :: 0 <= i < j < |points| ==> points[i].timestamp < points[j].timestamp)
    && Total(points) == |logs|
    && (forall i :: 0 <= i < |points| ==> points[i].p50 <= points[i].p95 <= points[i].p99)
  }

  /**
   The series of any logs has at most 27 points, at strictly increasing times;
   successes and failures together come to the number of logs; and in each point
   the percentiles are in order.
   */
  lemma SeriesSound(points: seq<Point>, keys: seq<int>, logs: seq<Log>, size: int)
    requires size > 0 && SeriesOf(points, keys, logs, size) && (logs != [] ==> SizeOf(size, logs))
    ensures Sound(points, logs)
  {
    TotalsAgree(points, keys, logs, size);
    if logs != [] {
      SeriesBounded(keys, logs, size);
    }
    forall i | 0 <= i < |points| ensures points[i].p50 <= points[i].p95 <= points[i].p99 {
      PointInOrder(points[i], logs, size);
    }
  }

  lemma TotalsAgree(points: seq<Point>, keys: seq<int>, logs: seq<Log>, size: int)
    requires size > 0 && SeriesOf(points, keys, logs, size)
    ensures Total(points) == |logs|
  {
    TotalIsCounted(points, keys, logs, size);
    forall l | l in logs ensures BucketKey(l.tsMs, size) in keys {
      assert BucketKey(l.tsMs, size) in Keys(logs, size);
    }
    CountedAll(keys, logs, size);
  }

  lemma PointInOrder(p: Point, logs: seq<Log>, size: int)
    requires size > 0 && PointOf(p, logs, size)
    ensures p.p50 <= p.p95 <= p.p99
  {
    PercentilesInOrder(BucketOf(logs, size, p.timestamp).latencies, p.p50, p.p95, p.p99, p.mean);
  }

  lemma SeriesBounded(keys: seq<int>, logs: seq<Log>, size: int)
    requires size > 0 && SizeOf(size, logs) && Increasing(keys) && forall k <- keys :: k in Keys(logs, size)
    ensures |keys| <= TARGET + 2
  {
    var lo, hi :| Span(logs, lo, hi) && size == SizeFor(hi - lo);
    forall k | k in keys ensures exists q :: Quot(lo, size) <= q <= Quot(hi, size) && k == q * size {
      KeyRange(logs, size, k, lo, hi);
    }
    QuotSpread(lo, hi, size, TARGET + 1);
    KeysAtMost(keys, size, Quot(lo, size), Quot(hi, size));
  }

  function LogAt(ts: int): Log { Log(ts, "", "", "", "", "", "", "", 0, true, "", "", None) }

  function EdgeTime(i: int): int { if i == 0 then 99 else if i == 26 then 2623 else 100 * i }

  lemma EdgeLogs() returns (logs: seq<Log>)
    ensures |logs| == TARGET + 2 && Span(logs, 99, 2623)
    ensures forall i :: 0 <= i < |logs| ==> BucketKey(logs[i].tsMs, 100) == 100 * i
  {
    logs := seq(27, i => LogAt(EdgeTime(i)));
    assert logs[0] in logs && logs[26] in logs;
    forall i | 0 <= i < 27 ensures BucketKey(logs[i].tsMs, 100) == 100 * i {
      assert logs[i].tsMs == EdgeTime(i);
    }
  }

  function Multiples(n: nat): set<int> { set i | 0 <= i < n :: 100 * i }

  lemma {:induction false} MultiplesSize(n: nat)
    ensures |Multiples(n)| == n
  {
    if n > 0 {
      MultiplesSize(n - 1);
      assert Multiples(n) == Multiples(n - 1) + {100 * (n - 1)};
    }
  }

  lemma {:induction false} AtLeast<T>(keys: seq<T>, some: set<T>)
    requires forall k <- some :: k in keys
    ensures |some| <= |keys|
    decreases |keys|
  {
    if keys == [] {
      assert some == {};
    } else {
      assert keys == [keys[0]] + keys[1..];
      AtLeast(keys[1..], some - {keys[0]});
    }
  }

  /** The bound is reached: logs over 2524 milliseconds whose series has 27 points. */
  lemma BoundReached() returns (logs: seq<Log>)
    ensures logs != []
    ensures forall points, keys, size ::
              size > 0 && SizeOf(size, logs) && SeriesOf(points, keys, logs, size) ==> |points| == TARGET + 2
  {
    logs := EdgeLogs();
    forall points, keys, size | size > 0 && SizeOf(size, logs) && SeriesOf(points, keys, logs, size)
      ensures |points| == TARGET + 2
    {
      EdgeSize(logs, size);
      SeriesBounded(keys, logs, size);
      MultiplesSize(27);
      forall k | k in Multiples(27) ensures k in keys {
        var i :| 0 <= i < 27 && k == 100 * i;
        assert logs[i] in logs && BucketKey(logs[i].tsMs, 100) == k;
        assert k in Keys(logs, size);
      }
      AtLeast(keys, Multiples(27));
    }
  }

  lemma EdgeSize(logs: seq<Log>, size: int)
    requires Span(logs, 99, 2623) && SizeOf(size, logs)
    ensures size == 100
  {
    var lo, hi :| Span(logs, lo, hi) && size == SizeFor(hi - lo);
    assert lo == 99 && hi == 2623;
  }

  // ---------------------------------------------------------------------------
  // What a point says, told without the functions that compute it

  /** The times of the bucket at `key`; division truncates, so the one at zero reaches both ways. */
  predicate InBucket(ts: int, size: int, key: int)
    requires size > 0
  {
    && key % size == 0
    && (if key > 0 then key <= ts < key + size else if key < 0 then key - size < ts <= key else -size < ts < size)
  }

  lemma Multiple(q: int, size: int)
    requires size > 0
    ensures (q * size) % size == 0 && (q * size) / size == q
  {
    var r, d := (q * size) % size, (q * size) / size;
    assert q * size == size * d + r;
    assert size * (q - d) == r;
    if q - d >= 1 {
      MulMonotone(size, 1, q - d);
    } else if q - d <= -1 {
      MulMonotone(size, q - d, -1);
    }
  }

  lemma KeyIn(ts: int, size: int)
    requires size > 0
    ensures InBucket(ts, size, BucketKey(ts, size))
  {
    var a := if ts >= 0 then ts else -ts;
    var q := a / size;
    QuotBounds(a, size);
    DivNonNegative(a, size);
    assert size * (q + 1) == q * size + size;
    Multiple(Quot(ts, size), size);
    MulMonotone(size, 0, q);
    if q > 0 {
      MulMonotone(size, 1, q);
    }
  }

  lemma KeyUnique(ts: int, size: int, key: int, other: int)
    requires size > 0 && InBucket(ts, size, key) && InBucket(ts, size, other)
    ensures key == other
  {
    var a, b := key / size, other / size;
    assert key == size * a && other == size * b;
    assert -size < key - other < size;
    assert size * (a - b) == key - other;
    if a - b >= 1 {
      MulMonotone(size, 1, a - b);
    } else if a - b <= -1 {
      MulMonotone(size, a - b, -1);
    }
  }

  lemma KeyIffInBucket(ts: int, size: int, key: int)
    requires size > 0
    ensures BucketKey(ts, size) == key <==> InBucket(ts, size, key)
  {
    KeyIn(ts, size);
    if InBucket(ts, size, key) {
      KeyUnique(ts, size, key, BucketKey(ts, size));
    }
  }

  /** How many logs of a bucket went well, or did not. */
  function CountIn(logs: seq<Log>, size: int, key: int, ok: bool): nat
    requires size > 0
  {
    if logs == [] then 0
    else
      var l := logs[|logs| - 1];
      CountIn(logs[..|logs| - 1], size, key, ok) + (if InBucket(l.tsMs, size, key) && l.ok == ok then 1 else 0)
  }

  lemma {:induction false} BucketCounts(logs: seq<Log>, size: int, key: int)
    requires size > 0
    ensures var b := BucketOf(logs, size, key);
            b.success == CountIn(logs, size, key, true) && b.failed == CountIn(logs, size, key, false)
    decreases |logs|
  {
    if logs != [] {
      BucketCounts(logs[..|logs| - 1], size, key);
      KeyIffInBucket(logs[|logs| - 1].tsMs, size, key);
    }
  }

  /** A latency holds its percentile's place in the bucket: `k` of `n` with `100 k <= p n < 100 (k + 1)`. */
  ghost predicate Placed(v: int, p: nat, latencies: seq<int>) {
    exists sorted, k: nat ::
      Sorts(sorted, latencies) && k < |sorted| && v == sorted[k] && 100 * k <= p * |sorted| < 100 * (k + 1)
  }

  /** A point's successes and failures are the logs of its stretch of time that went well and that did not. */
  lemma PointCounts(p: Point, logs: seq<Log>, size: int)
    requires size > 0 && PointOf(p, logs, size)
    ensures p.success == CountIn(logs, size, p.timestamp, true)
    ensures p.failed == CountIn(logs, size, p.timestamp, false)
  {
    BucketCounts(logs, size, p.timestamp);
  }

  lemma Share(rate: real, part: real, whole: real)
    requires whole > 0.0 && rate == part / whole
    ensures rate * whole == part
  {
  }

  /** Its error rate is the part of them that failed, its throughput their number in a second. */
  lemma PointRates(p: Point, size: int)
    requires size > 0 && Rated(p, size)
    ensures p.errorRate * (p.success + p.failed) as real == p.failed as real
    ensures p.throughput * (size as real / 1000.0) == (p.success + p.failed) as real
  {
    Rates(p.errorRate, p.throughput, p.failed, p.success + p.failed, size);
  }

  lemma Rates(errorRate: real, throughput: real, failed: nat, total: nat, size: int)
    requires total > 0 && size > 0 && errorRate == failed as real / total as real
    requires throughput == total as real / (size as real / 1000.0)
    ensures errorRate * total as real == failed as real
    ensures throughput * (size as real / 1000.0) == total as real
  {
    Share(errorRate, failed as real, total as real);
    Share(throughput, total as real, size as real / 1000.0);
  }

  /** Its percentiles hold their places among the latencies, and its mean is theirs. */
  lemma PointRanks(p: Point, logs: seq<Log>, size: int)
    requires size > 0 && PointOf(p, logs, size)
    ensures var ls := BucketOf(logs, size, p.timestamp).latencies;
            && Placed(p.p50, 50, ls) && Placed(p.p95, 95, ls) && Placed(p.p99, 99, ls)
            && exists sorted :: Sorts(sorted, ls) && sorted != [] && MeanOf(p.mean, Sum(sorted), |sorted|)
  {
    RanksMean(BucketOf(logs, size, p.timestamp).latencies, p.p50, p.p95, p.p99, p.mean);
    MeanIs(BucketOf(logs, size, p.timestamp).latencies, p.p50, p.p95, p.p99, p.mean);
  }

  ghost predicate MeanOf(mean: real, sum: int, n: nat) { mean * n as real == sum as real }

  lemma MeanIs(latencies: seq<int>, p50: int, p95: int, p99: int, mean: real)
    requires Ranked(latencies, p50, p95, p99, mean)
    ensures exists sorted :: Sorts(sorted, latencies) && sorted != [] && MeanOf(mean, Sum(sorted), |sorted|)
  {
    var sorted :| Sorts(sorted, latencies) && |sorted| == |latencies| > 0
                  && p50 == sorted[|sorted| * 50 / 100] && p95 == sorted[|sorted| * 95 / 100]
                  && p99 == sorted[|sorted| * 99 / 100]
                  && mean == Sum(sorted) as real / |sorted| as real;
    MeanTimes(mean, Sum(sorted), |sorted|);
  }

  lemma MeanTimes(mean: real, sum: int, n: nat)
    requires n > 0 && mean == sum as real / n as real
    ensures MeanOf(mean, sum, n)
  {
    Share(mean, sum as real, n as real);
  }

  lemma RanksMean(latencies: seq<int>, p50: int, p95: int, p99: int, mean: real)
    requires Ranked(latencies, p50, p95, p99, mean)
    ensures Placed(p50, 50, latencies) && Placed(p95, 95, latencies) && Placed(p99, 99, latencies)
  {
    var sorted :| Sorts(sorted, latencies) && |sorted| == |latencies| > 0
                  && p50 == sorted[|sorted| * 50 / 100] && p95 == sorted[|sorted| * 95 / 100]
                  && p99 == sorted[|sorted| * 99 / 100]
                  && mean == Sum(sorted) as real / |sorted| as real;
    var n := |sorted|;
    assert 100 * (n * 50 / 100) <= 50 * n < 100 * (n * 50 / 100 + 1);
    assert 100 * (n * 95 / 100) <= 95 * n < 100 * (n * 95 / 100 + 1);
    assert 100 * (n * 99 / 100) <= 99 * n < 100 * (n * 99 / 100 + 1);
  }

  /** Twenty-five sizes fit in the duration, and no larger ones, unless that is below a tenth of a second. */
  lemma SizeMeans(duration: int)
    requires duration > 0
    ensures var size := SizeFor(duration);
            if duration < 2500 then size == 100 else 25 * size <= duration < 25 * (size + 1)
  {
  }
}
