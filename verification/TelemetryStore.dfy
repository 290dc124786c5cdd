/** Sorting by a key, as the library's sort promises it: equal keys in any order. */
module Sorting {

  ghost predicate Ordered<T>(s: seq<T>, key: T -> int) {
    forall i, j :: 0 <= i < j < |s| ==> key(s[i]) <= key(s[j])
  }

  lemma InsertedOrdered<T>(s: seq<T>, key: T -> int, x: T, k: nat)
    requires Ordered(s, key) && k <= |s|
    requires k > 0 ==> key(s[k - 1]) <= key(x)
    requires k < |s| ==> key(x) <= key(s[k])
    ensures Ordered(s[..k] + [x] + s[k..], key)
  {
    var r := s[..k] + [x] + s[k..];
    forall i, j | 0 <= i < j < |r| ensures key(r[i]) <= key(r[j]) {
      assert r[i] == if i < k then s[i] else if i == k then x else s[i - 1];
      assert r[j] == if j < k then s[j] else if j == k then x else s[j - 1];
      assert i < k ==> i == k - 1 || key(s[i]) <= key(s[k - 1]);
      assert k < j ==> j - 1 == k || key(s[k]) <= key(s[j - 1]);
    }
  }

  method Insert<T>(s: seq<T>, key: T -> int, x: T) returns (r: seq<T>)
    requires Ordered(s, key)
    ensures Ordered(r, key) && multiset(r) == multiset(s) + multiset{x}
  {
    var k := |s|;
    while k > 0 && key(x) < key(s[k - 1])
      invariant 0 <= k <= |s|
      invariant k < |s| ==> key(x) < key(s[k])
    {
      k := k - 1;
    }
    InsertedOrdered(s, key, x, k);
    assert s == s[..k] + s[k..];
    r := s[..k] + [x] + s[k..];
  }

  method SortBy<T>(s: seq<T>, key: T -> int) returns (r: seq<T>)
    ensures Ordered(r, key) && multiset(r) == multiset(s)
  {
    r := [];
    for i := 0 to |s|
      invariant Ordered(r, key) && multiset(r) == multiset(s[..i])
    {
      assert s[..i + 1] == s[..i] + [s[i]];
      r := Insert(r, key, s[i]);
    }
    assert s[..|s|] == s;
  }
}

/** Filtering and paging a sequence, oldest element first or newest first. */
module Paging {
  import opened Sequences

  function Matching<T>(s: seq<T>, keep: T -> bool): seq<T> {
    if s == [] then [] else Matching(s[..|s| - 1], keep) + if keep(s[|s| - 1]) then [s[|s| - 1]] else []
  }

  function Newest<T>(s: seq<T>, keep: T -> bool): seq<T> {
    if s == [] then [] else (if keep(s[|s| - 1]) then [s[|s| - 1]] else []) + Newest(s[..|s| - 1], keep)
  }

  function Reverse<T>(s: seq<T>): (r: seq<T>)
    ensures |r| == |s| && forall i :: 0 <= i < |s| ==> r[i] == s[|s| - 1 - i]
  {
    if s == [] then [] else [s[|s| - 1]] + Reverse(s[..|s| - 1])
  }

  function Page<T>(view: seq<T>, offset: nat, limit: nat): seq<T> {
    if offset >= |view| then [] else if offset + limit > |view| then view[offset..] else view[offset..offset + limit]
  }

  method CountMatching<T>(s: seq<T>, keep: T -> bool) returns (n: nat)
    ensures n == |Matching(s, keep)|
  {
    n := 0;
    for i := 0 to |s|
      invariant n == |Matching(s[..i], keep)|
    {
      assert s[..i + 1][..i] == s[..i];
      if keep(s[i]) {
        n := n + 1;
      }
    }
    assert s[..|s|] == s;
  }

  lemma InitOfJoin<T>(a: seq<T>, b: seq<T>)
    requires b != []
    ensures (a + b)[..|a + b| - 1] == a + b[..|b| - 1] && (a + b)[|a + b| - 1] == b[|b| - 1]
  {
  }

  lemma {:induction false} MatchingJoin<T>(a: seq<T>, b: seq<T>, keep: T -> bool)
    ensures Matching(a + b, keep) == Matching(a, keep) + Matching(b, keep)
    decreases |b|
  {
    if b == [] {
      assert a + b == a;
    } else {
      InitOfJoin(a, b);
      MatchingJoin(a, b[..|b| - 1], keep);
      Associative(Matching(a, keep), Matching(b[..|b| - 1], keep), if keep(b[|b| - 1]) then [b[|b| - 1]] else []);
    }
  }

  lemma {:induction false} NewestJoin<T>(a: seq<T>, b: seq<T>, keep: T -> bool)
    ensures Newest(a + b, keep) == Newest(b, keep) + Newest(a, keep)
    decreases |b|
  {
    if b == [] {
      assert a + b == a;
    } else {
      InitOfJoin(a, b);
      NewestJoin(a, b[..|b| - 1], keep);
      Associative(if keep(b[|b| - 1]) then [b[|b| - 1]] else [], Newest(b[..|b| - 1], keep), Newest(a, keep));
    }
  }

  /** Newest first is the filtered sequence turned round. */
  lemma {:induction false} NewestIsReverse<T>(s: seq<T>, keep: T -> bool)
    ensures Newest(s, keep) == Reverse(Matching(s, keep)) && |Newest(s, keep)| == |Matching(s, keep)|
    decreases |s|
  {
    if s != [] {
      NewestIsReverse(s[..|s| - 1], keep);
      var m := Matching(s, keep);
      if keep(s[|s| - 1]) {
        assert m[..|m| - 1] == Matching(s[..|s| - 1], keep);
      }
    }
  }

  // ---------------------------------------------------------------------------
  // The paging loops

  /** What a paging loop has collected of the matches it has come across. */
  ghost predicate Collected<T>(result: seq<T>, seen: seq<T>, offset: nat) {
    result == if |seen| <= offset then [] else seen[offset..]
  }

  lemma CollectedMore<T>(result: seq<T>, seen: seq<T>, offset: nat, x: T)
    requires Collected(result, seen, offset)
    ensures Collected(if |seen| >= offset then result + [x] else result, seen + [x], offset)
  {
  }

  lemma PageFull<T>(result: seq<T>, seen: seq<T>, offset: nat, more: seq<T>, view: seq<T>)
    requires Collected(result, seen, offset) && result != [] && view == seen + more
    ensures result == Page(view, offset, |result|)
  {
  }

  /** Everything has been seen before the page is full. */
  lemma PageShort<T>(result: seq<T>, view: seq<T>, offset: nat, pageSize: nat)
    requires Collected(result, view, offset) && |result| < pageSize
    ensures result == Page(view, offset, pageSize)
  {
  }

  lemma Whole<T>(s: seq<T>)
    ensures s[..|s|] == s && s[0..] == s
  {
  }

  lemma OneStep<T>(s: seq<T>, i: nat)
    requires i < |s|
    ensures s[..i] + [s[i]] == s[..i + 1] && [s[i]] + s[i + 1..] == s[i..]
  {
  }

  lemma MatchingSplit<T>(s: seq<T>, i: nat, keep: T -> bool)
    requires i <= |s|
    ensures Matching(s, keep) == Matching(s[..i], keep) + Matching(s[i..], keep)
    ensures Newest(s, keep) == Newest(s[i..], keep) + Newest(s[..i], keep)
  {
    assert s == s[..i] + s[i..];
    MatchingJoin(s[..i], s[i..], keep);
    NewestJoin(s[..i], s[i..], keep);
  }

  lemma MatchingSnoc<T>(s: seq<T>, i: nat, keep: T -> bool)
    requires i < |s|
    ensures Matching(s[..i + 1], keep) == Matching(s[..i], keep) + if keep(s[i]) then [s[i]] else []
    ensures s[..i] + [s[i]] == s[..i + 1]
  {
    OneStep(s, i);
    assert s[..i + 1][..i] == s[..i];
  }

  lemma NewestCons<T>(s: seq<T>, i: nat, keep: T -> bool)
    requires i < |s|
    ensures Newest(s[i..], keep) == Newest(s[i + 1..], keep) + if keep(s[i]) then [s[i]] else []
  {
    OneStep(s, i);
    NewestJoin([s[i]], s[i + 1..], keep);
    assert [s[i]][..0] == [];
  }

  lemma FullOldest<T>(s: seq<T>, i: nat, keep: T -> bool, result: seq<T>, seen: seq<T>, offset: nat)
    requires i <= |s| && seen == Matching(s[..i], keep) && Collected(result, seen, offset) && result != []
    ensures result == Page(Matching(s, keep), offset, |result|)
  {
    MatchingSplit(s, i, keep);
    PageFull(result, seen, offset, Matching(s[i..], keep), Matching(s, keep));
  }

  lemma FullNewest<T>(s: seq<T>, i: nat, keep: T -> bool, result: seq<T>, seen: seq<T>, offset: nat)
    requires i <= |s| && seen == Newest(s[i..], keep) && Collected(result, seen, offset) && result != []
    ensures result == Page(Newest(s, keep), offset, |result|)
  {
    MatchingSplit(s, i, keep);
    PageFull(result, seen, offset, Newest(s[..i], keep), Newest(s, keep));
  }

  lemma AllSeen<T>(s: seq<T>, keep: T -> bool)
    ensures Matching(s[..|s|], keep) == Matching(s, keep) && Newest(s[0..], keep) == Newest(s, keep)
    ensures Matching(s[..0], keep) == [] && Newest(s[|s|..], keep) == []
  {
    Whole(s);
  }

  function FromZero(offset: int): nat { if offset < 0 then 0 else offset }

  /** A page cut at the end of the view is the page. */
  lemma PageClamped<T>(view: seq<T>, offset: int, limit: nat, count: int)
    requires count > 0 && offset + count == (if offset + limit > |view| then |view| else offset + limit)
    ensures Page(view, FromZero(offset), count) == Page(view, FromZero(offset), limit)
  {
  }

  /** Skip `offset` matches, then take until the page is full; a negative offset skips none. */
  method GatherOldest<T>(s: seq<T>, keep: T -> bool, offset: int, pageSize: nat)
    returns (result: seq<T>, ghost seen: seq<T>, ghost at: nat)
    requires pageSize > 0
    ensures at <= |s| && seen == Matching(s[..at], keep) && Collected(result, seen, FromZero(offset))
    ensures |result| == pageSize || (at == |s| && |result| < pageSize)
  {
    var matched := 0;
    result, seen := [], [];
    AllSeen(s, keep);
    for i := 0 to |s|
      invariant seen == Matching(s[..i], keep) && matched == |seen|
      invariant Collected(result, seen, FromZero(offset)) && |result| < pageSize
    {
      MatchingSnoc(s, i, keep);
      if !keep(s[i]) {
        continue;
      }
      CollectedMore(result, seen, FromZero(offset), s[i]);
      if matched >= offset && |result| < pageSize {
        result := result + [s[i]];
      }
      matched := matched + 1;
      seen := seen + [s[i]];
      if |result| >= pageSize {
        return result, seen, i + 1;
      }
    }
    at := |s|;
  }

  /** The page, oldest first. */
  method CollectOldestFirst<T>(s: seq<T>, keep: T -> bool, offset: int, pageSize: nat) returns (result: seq<T>)
    requires pageSize > 0
    ensures result == Page(Matching(s, keep), FromZero(offset), pageSize)
  {
    ghost var seen, at;
    result, seen, at := GatherOldest(s, keep, offset, pageSize);
    if |result| == pageSize {
      FullOldest(s, at, keep, result, seen, FromZero(offset));
    } else {
      AllSeen(s, keep);
      PageShort(result, seen, FromZero(offset), pageSize);
    }
  }

  /** The same from the end of the sequence. */
  method GatherNewest<T>(s: seq<T>, keep: T -> bool, offset: int, pageSize: nat)
    returns (result: seq<T>, ghost seen: seq<T>, ghost at: nat)
    requires pageSize > 0
    ensures at <= |s| && seen == Newest(s[at..], keep) && Collected(result, seen, FromZero(offset))
    ensures |result| == pageSize || (at == 0 && |result| < pageSize)
  {
    var matched := 0;
    result, seen := [], [];
    AllSeen(s, keep);
    for i := |s| downto 0
      invariant seen == Newest(s[i..], keep) && matched == |seen|
      invariant Collected(result, seen, FromZero(offset)) && |result| < pageSize
    {
      NewestCons(s, i, keep);
      if !keep(s[i]) {
        continue;
      }
      CollectedMore(result, seen, FromZero(offset), s[i]);
      if matched >= offset && |result| < pageSize {
        result := result + [s[i]];
      }
      matched := matched + 1;
      seen := seen + [s[i]];
      if |result| >= pageSize {
        return result, seen, i;
      }
    }
    at := 0;
  }

  /** The page, newest first. */
  method CollectNewestFirst<T>(s: seq<T>, keep: T -> bool, offset: int, pageSize: nat) returns (result: seq<T>)
    requires pageSize > 0
    ensures result == Page(Newest(s, keep), FromZero(offset), pageSize)
  {
    ghost var seen, at;
    result, seen, at := GatherNewest(s, keep, offset, pageSize);
    if |result| == pageSize {
      FullNewest(s, at, keep, result, seen, FromZero(offset));
    } else {
      AllSeen(s, keep);
      PageShort(result, seen, FromZero(offset), pageSize);
    }
  }

  // ---------------------------------------------------------------------------
  // Pages one after the other

  /** The first `n` pages of a view. */
  function Pages<T>(view: seq<T>, limit: nat, n: nat): seq<T> {
    if n == 0 then [] else Pages(view, limit, n - 1) + Page(view, (n - 1) * limit, limit)
  }

  lemma {:induction false} PagesArePrefix<T>(view: seq<T>, limit: nat, n: nat)
    ensures Pages(view, limit, n) == if n * limit <= |view| then view[..n * limit] else view
    decreases n
  {
    if n > 0 {
      PagesArePrefix(view, limit, n - 1);
      assert n * limit == (n - 1) * limit + limit;
    }
  }

  lemma PagesAll<T>(view: seq<T>, limit: nat, n: nat)
    requires n * limit >= |view|
    ensures Pages(view, limit, n) == view
  {
    PagesArePrefix(view, limit, n);
    Whole(view);
  }

  lemma {:induction false} ReverseKeeps<T>(s: seq<T>)
    ensures multiset(Reverse(s)) == multiset(s)
    decreases |s|
  {
    if s != [] {
      ReverseKeeps(s[..|s| - 1]);
      assert s == s[..|s| - 1] + [s[|s| - 1]];
    }
  }

  /** The filtered sequence holds exactly the elements to keep, as often as they occur. */
  lemma {:induction false} MatchingExact<T>(s: seq<T>, keep: T -> bool, x: T)
    ensures multiset(Matching(s, keep))[x] == if keep(x) then multiset(s)[x] else 0
    decreases |s|
  {
    if s != [] {
      MatchingExact(s[..|s| - 1], keep, x);
      assert s == s[..|s| - 1] + [s[|s| - 1]];
    }
  }

  /** Filtering keeps an order: two matches are two elements of the sequence, the earlier first. */
  lemma {:induction false} MatchingInOrder<T>(s: seq<T>, keep: T -> bool, i: nat, j: nat) returns (a: nat, b: nat)
    requires i < j < |Matching(s, keep)|
    ensures a < b < |s| && s[a] == Matching(s, keep)[i] && s[b] == Matching(s, keep)[j]
    decreases |s|
  {
    var short, m := s[..|s| - 1], Matching(s[..|s| - 1], keep);
    if j < |m| {
      a, b := MatchingInOrder(short, keep, i, j);
    } else {
      b := |s| - 1;
      a := MatchingFrom(short, keep, i);
    }
  }

  lemma {:induction false} MatchingFrom<T>(s: seq<T>, keep: T -> bool, i: nat) returns (a: nat)
    requires i < |Matching(s, keep)|
    ensures a < |s| && s[a] == Matching(s, keep)[i]
    decreases |s|
  {
    if i < |Matching(s[..|s| - 1], keep)| {
      a := MatchingFrom(s[..|s| - 1], keep, i);
    } else {
      a := |s| - 1;
    }
  }
}

/** The order in which runs came, as a list beside the map of runs. */
module RunOrder {
  import opened Sequences

  ghost function Elements<K>(order: seq<K>): set<K> { set x | x in order }

  /** The order lists exactly the stored runs, each once. */
  ghost predicate Lists<K, D>(order: seq<K>, runs: map<K, D>) {
    Distinct(order) && Elements(order) == runs.Keys
  }

  /** How many runs go when a new one comes. */
  function Surplus(n: nat, maxRuns: nat): nat { if maxRuns > 0 && n >= maxRuns then n - maxRuns + 1 else 0 }

  lemma {:induction false} SizeOfOrder<K>(order: seq<K>)
    requires Distinct(order)
    ensures |Elements(order)| == |order|
  {
    if order != [] {
      assert order == [order[0]] + order[1..] && order[0] !in order[1..];
      SizeOfOrder(order[1..]);
      assert Elements(order) == {order[0]} + Elements(order[1..]);
    }
  }

  lemma OldestGoes<K, D>(order: seq<K>, runs: map<K, D>)
    requires Lists(order, runs) && order != []
    ensures Lists(order[1..], runs - {order[0]}) && |runs - {order[0]}| == |runs| - 1
  {
    assert order == [order[0]] + order[1..] && order[0] in Elements(order);
    assert (runs - {order[0]}).Keys == runs.Keys - {order[0]};
    assert |runs| == |runs.Keys| && |runs - {order[0]}| == |(runs - {order[0]}).Keys|;
  }

  lemma DropOne<K>(order: seq<K>, k: nat)
    requires k < |order|
    ensures order[k..][1..] == order[k + 1..]
  {
  }

  lemma ListedSize<K, D>(order: seq<K>, runs: map<K, D>)
    requires Lists(order, runs)
    ensures |order| == |runs|
  {
    SizeOfOrder(order);
    assert |runs| == |runs.Keys|;
  }

  /** Some of the runs, as they were. */
  ghost predicate Part<K, D(!new)>(some: map<K, D>, runs: map<K, D>) {
    forall id <- some :: id in runs && some[id] == runs[id]
  }

  lemma NewestComes<K, D>(order: seq<K>, runs: map<K, D>, id: K, data: D)
    requires Lists(order, runs) && id !in runs
    ensures Lists(order + [id], runs[id := data]) && |runs[id := data]| == |runs| + 1
  {
    assert id !in Elements(order);
    assert runs[id := data].Keys == runs.Keys + {id};
    assert |runs| == |runs.Keys| && |runs[id := data]| == |runs[id := data].Keys|;
  }

  lemma SameKeys<K, D>(runs: map<K, D>, id: K, data: D)
    requires id in runs
    ensures runs[id := data].Keys == runs.Keys && |runs[id := data]| == |runs|
    ensures runs[id := data] - {id} == runs - {id}
  {
    assert runs[id := data].Keys == runs.Keys;
    assert |runs[id := data]| == |runs[id := data].Keys| == |runs.Keys| == |runs|;
  }

  lemma OneDeleted<K(!new), D>(order: seq<K>, runs: map<K, D>, id: K)
    requires Lists(order, runs)
    ensures Lists(Without(order, id), runs - {id}) && |runs - {id}| <= |runs|
  {
    WithoutFacts(order, id);
    assert Elements(Without(order, id)) == Elements(order) - {id};
    assert (runs - {id}).Keys == runs.Keys - {id};
    assert |runs| == |runs.Keys| && |runs - {id}| == |(runs - {id}).Keys|;
    assert |runs.Keys - {id}| <= |runs.Keys|;
  }

  /** The runs without the `k` oldest. */
  ghost function Dropped<K, D>(order: seq<K>, runs: map<K, D>, k: nat): map<K, D>
    requires k <= |order|
    decreases k
  {
    if k == 0 then runs else Dropped(order, runs, k - 1) - {order[k - 1]}
  }

  lemma NextGoes<K, D>(order: seq<K>, kept: map<K, D>, k: nat)
    requires k < |order| && Lists(order[k..], kept)
    ensures Lists(order[k + 1..], kept - {order[k]}) && |kept - {order[k]}| == |kept| - 1
  {
    OldestGoes(order[k..], kept);
    DropOne(order, k);
  }

  lemma PartLess<K, D(!new)>(kept: map<K, D>, runs: map<K, D>, id: K)
    requires Part(kept, runs)
    ensures Part(kept - {id}, runs)
  {
  }

  lemma ListsAll<K, D>(order: seq<K>, runs: map<K, D>)
    requires Lists(order, runs)
    ensures Lists(order[0..], runs) && |runs| == |order|
  {
    ListedSize(order, runs);
    assert order[0..] == order;
  }

  lemma {:induction false} DroppedIs<K, D(!new)>(order: seq<K>, runs: map<K, D>, k: nat)
    requires Lists(order, runs) && k <= |order|
    ensures Lists(order[k..], Dropped(order, runs, k)) && |Dropped(order, runs, k)| == |order| - k
    ensures Part(Dropped(order, runs, k), runs)
    decreases k
  {
    if k == 0 {
      ListsAll(order, runs);
    } else {
      DroppedIs(order, runs, k - 1);
      NextGoes(order, Dropped(order, runs, k - 1), k - 1);
      PartLess(Dropped(order, runs, k - 1), runs, order[k - 1]);
    }
  }

  /** Each run that goes is one less. */
  ghost predicate OneLessEach<K, D>(order: seq<K>, runs: map<K, D>) {
    forall k: nat :: k <= |order| ==> |Dropped(order, runs, k)| == |order| - k
  }

  lemma DroppedSizes<K, D(!new)>(order: seq<K>, runs: map<K, D>)
    requires Lists(order, runs)
    ensures OneLessEach(order, runs)
  {
    forall k: nat | k <= |order| ensures |Dropped(order, runs, k)| == |order| - k {
      DroppedIs(order, runs, k);
    }
  }

  /** The loop of `evictIfNeeded`. */
  method EvictLoop<K(==), D>(order: seq<K>, runs: map<K, D>, maxRuns: nat)
    returns (left: seq<K>, kept: map<K, D>, ghost k: nat)
    requires OneLessEach(order, runs) && maxRuns > 0
    ensures k == Surplus(|order|, maxRuns) <= |order| && left == order[k..] && kept == Dropped(order, runs, k)
  {
    left, kept, k := order, runs, 0;
    assert |Dropped(order, runs, 0)| == |order|;
    while |kept| >= maxRuns && |left| > 0
      invariant k <= |order| && k <= Surplus(|order|, maxRuns)
      invariant left == order[k..] && kept == Dropped(order, runs, k)
      decreases |left|
    {
      DropOne(order, k);
      var oldest := left[0];
      left := left[1..];
      kept := kept - {oldest};
      k := k + 1;
    }
  }

  /** The oldest runs go, the others stay as they are. */
  method EvictOldest<K(==), D(!new)>(order: seq<K>, runs: map<K, D>, maxRuns: nat)
    returns (left: seq<K>, kept: map<K, D>)
    requires Lists(order, runs) && maxRuns > 0
    ensures Surplus(|order|, maxRuns) <= |order| && left == order[Surplus(|order|, maxRuns)..]
    ensures Lists(left, kept) && Part(kept, runs) && |kept| < maxRuns
    ensures if |runs| < maxRuns then kept == runs else |kept| == maxRuns - 1
  {
    ghost var k;
    ListedSize(order, runs);
    DroppedSizes(order, runs);
    left, kept, k := EvictLoop(order, runs, maxRuns);
    DroppedIs(order, runs, k);
  }
}

/**
 The control plane's store of operation logs: ingest under per-run limits, eviction
 of the oldest runs, and the paged log query.
 */
module TelemetryStore {
  import opened Extremes
  import opened Paging
  import opened RunOrder
  import opened Sequences
  import opened Sorting
  import opened Wrappers

  datatype Log = Log(
    tsMs: int, stage: string, stageId: string, workerId: string, vuId: string, sessionId: string,
    operation: string, toolName: string, latencyMs: int, ok: bool, errorType: string, errorCode: string,
    tokenIndex: Option<int>)

  // ---------------------------------------------------------------------------
  // One run

  const ByTime: Log -> int := (l: Log) => l.tsMs

  datatype RunData = RunData(
    startMs: int, endMs: int, operations: seq<Log>, logs: seq<Log>, opsTruncated: bool, logsTruncated: bool)

  const NEW_RUN: RunData := RunData(0, 0, [], [], false, false)

  /** What is kept of a sequence under a limit, zero meaning none. */
  function Kept<T>(s: seq<T>, limit: nat): seq<T> { if limit > 0 && |s| > limit then s[..limit] else s }

  predicate Over<T>(s: seq<T>, limit: nat) { limit > 0 && |s| > limit }

  function Times(ls: seq<Log>): seq<int> { seq(|ls|, i requires 0 <= i < |ls| => ls[i].tsMs) }

  /** The recorded span after a batch; a start of zero stands for none yet. */
  function StartAfter(start: int, batch: seq<Log>): int { Least(0, start, Times(batch)) }

  function EndAfter(end: int, batch: seq<Log>): int { Greatest(end, Times(batch)) }

  lemma OneMoreTime(t: int, ls: seq<Log>, l: Log)
    ensures StartAfter(t, ls + [l]) == Lower(0, StartAfter(t, ls), l.tsMs)
    ensures EndAfter(t, ls + [l]) == Higher(EndAfter(t, ls), l.tsMs)
  {
    var ts := Times(ls) + [l.tsMs];
    assert Times(ls + [l]) == ts && ts[..|ls|] == Times(ls);
  }

  /** A batch taken into a run: operations in order of arrival, logs in some order of time. */
  ghost predicate Taken(before: RunData, batch: seq<Log>, maxOps: nat, maxLogs: nat, after: RunData) {
    && after.startMs == StartAfter(before.startMs, batch) && after.endMs == EndAfter(before.endMs, batch)
    && after.operations == Kept(before.operations + batch, maxOps)
    && multiset(after.logs) == multiset(Kept(before.logs + batch, maxLogs))
    && Ordered(after.logs, ByTime)
    && (Ordered(Kept(before.logs + batch, maxLogs), ByTime) ==> after.logs == Kept(before.logs + batch, maxLogs))
    && after.opsTruncated == (before.opsTruncated || Over(before.operations + batch, maxOps))
    && after.logsTruncated == (before.logsTruncated || Over(before.logs + batch, maxLogs))
  }

  ghost predicate WithinLimits(r: RunData, maxOps: nat, maxLogs: nat) {
    && (maxOps > 0 ==> |r.operations| <= maxOps) && (maxLogs > 0 ==> |r.logs| <= maxLogs)
    && Ordered(r.logs, ByTime)
  }

  /** One operation of a batch, before any sorting. */
  function Added(r: RunData, op: Log, maxOps: nat, maxLogs: nat): RunData {
    var opsFull, logsFull := maxOps > 0 && |r.operations| >= maxOps, maxLogs > 0 && |r.logs| >= maxLogs;
    RunData(Lower(0, r.startMs, op.tsMs), Higher(r.endMs, op.tsMs),
            r.operations + (if opsFull then [] else [op]), r.logs + (if logsFull then [] else [op]),
            r.opsTruncated || opsFull, r.logsTruncated || logsFull)
  }

  function AddedAll(r: RunData, batch: seq<Log>, maxOps: nat, maxLogs: nat): RunData {
    if batch == [] then r
    else Added(AddedAll(r, batch[..|batch| - 1], maxOps, maxLogs), batch[|batch| - 1], maxOps, maxLogs)
  }

  method TakeOperation(before: RunData, op: Log, maxOps: nat) returns (r: RunData)
    ensures r == before.(startMs := Lower(0, before.startMs, op.tsMs), endMs := Higher(before.endMs, op.tsMs),
                         operations := r.operations, opsTruncated := r.opsTruncated)
    ensures var full := maxOps > 0 && |before.operations| >= maxOps;
            && r.operations == before.operations + (if full then [] else [op])
            && r.opsTruncated == (before.opsTruncated || full)
  {
    r := before;
    if r.startMs == 0 || op.tsMs < r.startMs {
      r := r.(startMs := op.tsMs);
    }
    if op.tsMs > r.endMs {
      r := r.(endMs := op.tsMs);
    }
    if maxOps > 0 && |r.operations| >= maxOps {
      r := r.(opsTruncated := true);
    } else {
      r := r.(operations := r.operations + [op]);
    }
  }

  method TakeOne(before: RunData, op: Log, maxOps: nat, maxLogs: nat, wasSorted: bool)
    returns (r: RunData, sorted: bool)
    requires wasSorted == Ordered(before.logs, ByTime)
    ensures r == Added(before, op, maxOps, maxLogs) && sorted == Ordered(r.logs, ByTime)
  {
    r := TakeOperation(before, op, maxOps);
    sorted := wasSorted;
    if maxLogs > 0 && |r.logs| >= maxLogs {
      r := r.(logsTruncated := true);
    } else {
      OrderedMore(r.logs, op);
      r := r.(logs := r.logs + [op]);
      sorted := sorted && (|r.logs| < 2 || r.logs[|r.logs| - 2].tsMs <= op.tsMs);
    }
  }

  method TakeBatch(before: RunData, batch: seq<Log>, maxOps: nat, maxLogs: nat) returns (r: RunData)
    requires WithinLimits(before, maxOps, maxLogs)
    ensures Taken(before, batch, maxOps, maxLogs, r) && WithinLimits(r, maxOps, maxLogs)
  {
    r := before;
    var sorted := true;
    for i := 0 to |batch|
      invariant r == AddedAll(before, batch[..i], maxOps, maxLogs)
      invariant sorted == Ordered(r.logs, ByTime)
    {
      assert batch[..i + 1][..i] == batch[..i];
      r, sorted := TakeOne(r, batch[i], maxOps, maxLogs, sorted);
    }
    assert batch[..|batch|] == batch;
    AddedKeepsFirst(before, batch, maxOps, maxLogs);
    if !sorted {
      var logs := SortBy(r.logs, ByTime);
      assert |logs| == |multiset(logs)| == |multiset(r.logs)| == |r.logs|;
      r := r.(logs := logs);
    }
  }

  /** Operations taken one by one leave the first ones up to each limit. */
  lemma {:induction false} AddedKeepsFirst(before: RunData, batch: seq<Log>, maxOps: nat, maxLogs: nat)
    requires WithinLimits(before, maxOps, maxLogs)
    ensures var r := AddedAll(before, batch, maxOps, maxLogs);
            && r.startMs == StartAfter(before.startMs, batch) && r.endMs == EndAfter(before.endMs, batch)
            && r.operations == Kept(before.operations + batch, maxOps)
            && r.logs == Kept(before.logs + batch, maxLogs)
            && r.opsTruncated == (before.opsTruncated || Over(before.operations + batch, maxOps))
            && r.logsTruncated == (before.logsTruncated || Over(before.logs + batch, maxLogs))
    decreases |batch|
  {
    if batch == [] {
      assert before.logs + batch == before.logs && before.operations + batch == before.operations;
    } else {
      var i := |batch| - 1;
      AddedKeepsFirst(before, batch[..i], maxOps, maxLogs);
      assert batch[..i + 1] == batch == batch[..i] + [batch[i]];
      OneMoreTime(before.startMs, batch[..i], batch[i]);
      OneMoreTime(before.endMs, batch[..i], batch[i]);
      KeptMore(before.operations, batch, i, maxOps);
      KeptMore(before.logs, batch, i, maxLogs);
    }
  }

  lemma KeptMore(had: seq<Log>, batch: seq<Log>, i: nat, limit: nat)
    requires i < |batch|
    ensures var full := limit > 0 && |Kept(had + batch[..i], limit)| >= limit;
            && (full <==> Over(had + batch[..i + 1], limit))
            && Kept(had + batch[..i + 1], limit) == Kept(had + batch[..i], limit) + if full then [] else [batch[i]]
  {
    assert had + batch[..i + 1] == (had + batch[..i]) + [batch[i]];
  }

  lemma OrderedMore(s: seq<Log>, x: Log)
    ensures Ordered(s + [x], ByTime) <==> Ordered(s, ByTime) && (s == [] || s[|s| - 1].tsMs <= x.tsMs)
  {
    var t := s + [x];
    if Ordered(t, ByTime) {
      forall i, j | 0 <= i < j < |s| ensures ByTime(s[i]) <= ByTime(s[j]) {
        assert t[i] == s[i] && t[j] == s[j];
      }
      if s != [] {
        assert ByTime(t[|s| - 1]) <= ByTime(t[|s|]);
      }
    }
  }

  // ---------------------------------------------------------------------------
  // All the batches of a run

  function Flatten(batches: seq<seq<Log>>): seq<Log> {
    if batches == [] then [] else Flatten(batches[..|batches| - 1]) + batches[|batches| - 1]
  }

  /** The states a run goes through, from its creation, batch by batch. */
  ghost predicate History(states: seq<RunData>, batches: seq<seq<Log>>, maxOps: nat, maxLogs: nat) {
    && |states| == |batches| + 1 && states[0] == NEW_RUN
    && forall i :: 0 <= i < |batches| ==> Taken(states[i], batches[i], maxOps, maxLogs, states[i + 1])
  }

  lemma KeptTwice(a: seq<Log>, b: seq<Log>, limit: nat)
    ensures Kept(Kept(a, limit) + b, limit) == Kept(a + b, limit)
    ensures Over(Kept(a, limit) + b, limit) || Over(a, limit) <==> Over(a + b, limit)
  {
    if Over(a, limit) {
      assert (a[..limit] + b)[..limit] == a[..limit] == (a + b)[..limit];
    }
  }

  /** Sorting what was kept so far does not change what is kept of the next batch. */
  lemma KeptRearranged(sorted: seq<Log>, a: seq<Log>, b: seq<Log>, limit: nat)
    requires multiset(sorted) == multiset(Kept(a, limit))
    ensures multiset(Kept(sorted + b, limit)) == multiset(Kept(a + b, limit))
    ensures |sorted| == |Kept(a, limit)|
  {
    var k := Kept(a, limit);
    assert |sorted| == |multiset(sorted)| == |multiset(k)| == |k|;
    KeptTwice(a, b, limit);
    if Over(sorted + b, limit) {
      var n := limit - |sorted|;
      assert (sorted + b)[..limit] == sorted + b[..n];
      assert (k + b)[..limit] == k + b[..n];
    }
  }

  /**
   After any batches: the operations are the first ones received, up to the limit
   and in order of arrival; the logs are the same ones in order of time; and a flag
   is up exactly when something was left out.
   */
  lemma {:induction false} StoreKeepsFirst(states: seq<RunData>, batches: seq<seq<Log>>, maxOps: nat, maxLogs: nat)
    requires History(states, batches, maxOps, maxLogs)
    ensures var r, all := states[|batches|], Flatten(batches);
            && r.operations == Kept(all, maxOps) && multiset(r.logs) == multiset(Kept(all, maxLogs))
            && Ordered(r.logs, ByTime)
            && r.startMs == StartAfter(0, all) && r.endMs == EndAfter(0, all)
            && r.opsTruncated == Over(all, maxOps) && r.logsTruncated == Over(all, maxLogs)
    decreases |batches|
  {
    if batches != [] {
      var n := |batches| - 1;
      assert History(states[..n + 1], batches[..n], maxOps, maxLogs);
      StoreKeepsFirst(states[..n + 1], batches[..n], maxOps, maxLogs);
      var all, b := Flatten(batches[..n]), batches[n];
      assert Taken(states[n], b, maxOps, maxLogs, states[n + 1]);
      KeptTwice(all, b, maxOps);
      KeptTwice(all, b, maxLogs);
      KeptRearranged(states[n].logs, all, b, maxLogs);
      SpanJoins(0, all, b);
    }
  }

  lemma {:induction false} SpanJoins(t: int, a: seq<Log>, b: seq<Log>)
    ensures StartAfter(StartAfter(t, a), b) == StartAfter(t, a + b)
    ensures EndAfter(EndAfter(t, a), b) == EndAfter(t, a + b)
    decreases |b|
  {
    if b == [] {
      assert a + b == a;
    } else {
      var c, l := b[..|b| - 1], b[|b| - 1];
      SpanJoins(t, a, c);
      assert b == c + [l] && a + b == (a + c) + [l];
      OneMoreTime(StartAfter(t, a), c, l);
      OneMoreTime(EndAfter(t, a), c, l);
      OneMoreTime(t, a + c, l);
    }
  }

  /**
   Of all operations, those left out included: the recorded start is the earliest
   exactly when one is negative, or none is zero, or the last is zero; the recorded
   end is never before any, and is the latest exactly when one is not negative.
   */
  lemma SpanExactIff(all: seq<Log>)
    requires all != []
    ensures IsMin(Times(all), StartAfter(0, all)) <==>
            SomeBelow(0, Times(all)) || 0 !in Times(all) || all[|all| - 1].tsMs == 0
    ensures IsMax(Times(all), EndAfter(0, all)) <==> exists t <- Times(all) :: 0 <= t
    ensures forall t <- Times(all) :: t <= EndAfter(0, all)
  {
    LeastExactIff(0, Times(all));
    GreatestExactIff(0, Times(all));
    GreatestIs(0, Times(all));
  }

  /** An operation at time zero is taken for no start yet, and a later one replaces it. */
  lemma ZeroIsForgotten(a: Log, b: Log)
    requires a.tsMs == 0 && b.tsMs > 0
    ensures StartAfter(0, [a, b]) == b.tsMs && !IsMin(Times([a, b]), StartAfter(0, [a, b]))
  {
    OneMoreTime(0, [], a);
    OneMoreTime(0, [a], b);
    assert [] + [a] == [a] && [a] + [b] == [a, b] && Times([a, b])[0] in Times([a, b]);
  }

  // ---------------------------------------------------------------------------
  // The store

  ghost predicate RunsOk(runs: map<string, RunData>, maxOps: nat, maxLogs: nat) {
    forall id <- runs :: WithinLimits(runs[id], maxOps, maxLogs)
  }

  class Store {
    const maxOps: nat
    const maxLogs: nat
    const maxRuns: nat
    var runs: map<string, RunData>
    var runOrder: seq<string>

    /** The order lists the stored runs, each once; runs, operations and logs are within their limits. */
    ghost predicate Valid()
      reads this
    {
      && Lists(runOrder, runs)
      && (maxRuns > 0 ==> |runs| <= maxRuns)
      && RunsOk(runs, maxOps, maxLogs)
    }

    constructor (maxOps: nat, maxLogs: nat, maxRuns: nat)
      ensures Valid() && runs == map[] && runOrder == []
      ensures this.maxOps == maxOps && this.maxLogs == maxLogs && this.maxRuns == maxRuns
    {
      this.maxOps, this.maxLogs, this.maxRuns, runs, runOrder := maxOps, maxLogs, maxRuns, map[], [];
    }

    /** The oldest runs go, as many as it takes to make room for one. */
    method EvictIfNeeded()
      requires Valid()
      modifies this
      ensures Valid() && (maxRuns > 0 ==> |runs| < maxRuns) && Part(runs, old(runs))
      ensures if maxRuns == 0 || |old(runs)| < maxRuns then runs == old(runs) else |runs| == maxRuns - 1
      ensures var k := Surplus(|old(runOrder)|, maxRuns); k <= |old(runOrder)| && runOrder == old(runOrder)[k..]
    {
      if maxRuns == 0 {
        return;
      }
      runOrder, runs := EvictOldest(runOrder, runs, maxRuns);
    }

    method GetOrCreate(runId: string)
      requires Valid()
      modifies this
      ensures Valid() && runId in runs
      ensures runId in old(runs) ==> runs == old(runs) && runOrder == old(runOrder)
      ensures runId !in old(runs) ==>
                && Surplus(|old(runOrder)|, maxRuns) <= |old(runOrder)|
                && runOrder == old(runOrder)[Surplus(|old(runOrder)|, maxRuns)..] + [runId]
                && runs[runId] == NEW_RUN && Part(runs - {runId}, old(runs))
                && if maxRuns == 0 || |old(runs)| < maxRuns then runs - {runId} == old(runs) else |runs| == maxRuns
    {
      if runId in runs {
        return;
      }
      EvictIfNeeded();
      NewestComes(runOrder, runs, runId, NEW_RUN);
      assert runs[runId := NEW_RUN] - {runId} == runs;
      runs := runs[runId := NEW_RUN];
      runOrder := runOrder + [runId];
    }

    /** A new run may cost the oldest runs their place; the others stay as they are. */
    method AddTelemetryBatch(runId: string, batch: seq<Log>)
      requires Valid()
      modifies this
      ensures Valid() && runId in runs
      ensures var before := if runId in old(runs) then old(runs)[runId] else NEW_RUN;
              Taken(before, batch, maxOps, maxLogs, runs[runId])
      ensures Part(runs - {runId}, old(runs))
      ensures runId in old(runs) ==> runOrder == old(runOrder)
      ensures runId !in old(runs) ==>
                && Surplus(|old(runOrder)|, maxRuns) <= |old(runOrder)|
                && runOrder == old(runOrder)[Surplus(|old(runOrder)|, maxRuns)..] + [runId]
                && (maxRuns > 0 && |old(runs)| >= maxRuns ==> |runs| == maxRuns)
      ensures runId in old(runs) || maxRuns == 0 || |old(runs)| < maxRuns ==> runs - {runId} == old(runs) - {runId}
    {
      GetOrCreate(runId);
      assert runId !in old(runs) ==> old(runs) - {runId} == old(runs);
      var r := TakeBatch(runs[runId], batch, maxOps, maxLogs);
      SameKeys(runs, runId, r);
      runs := runs[runId := r];
    }

    method DeleteRun(runId: string)
      requires Valid()
      modifies this
      ensures Valid() && runs == old(runs) - {runId} && runOrder == Without(old(runOrder), runId)
    {
      OneDeleted(runOrder, runs, runId);
      runs := runs - {runId};
      runOrder := Unlist(runOrder, runId);
    }

    /** The request handler refuses a limit below one, so that none gets here. */
    method QueryLogs(runId: string, filters: Filters) returns (r: Answer)
      ensures runId !in runs ==> r == RunNotFound
      ensures runId in runs ==>
                var view := View(runs[runId].logs, filters);
                r == if filters.limit < 0 && filters.offset < |view| then Panicked
                     else Answer(Page(view, FromZero(filters.offset), FromZero(filters.limit)), |view|)
    {
      if runId !in runs {
        return RunNotFound;
      }
      var logs := runs[runId].logs;
      ghost var view := View(logs, filters);
      var total := CountMatching(logs, Keeps(filters));
      NewestIsReverse(logs, Keeps(filters));
      assert total == |view|;
      if filters.offset >= total {
        return Answer([], total);
      }
      var end := filters.offset + filters.limit;
      if end > total {
        end := total;
      }
      var pageSize := end - filters.offset;
      if pageSize < 0 {
        return Panicked;
      }
      if pageSize == 0 {
        return Answer([], total);  // the loop stops at its first match
      }
      PageClamped(view, filters.offset, filters.limit, pageSize);
      var page: seq<Log>;
      if filters.order == "asc" {
        page := CollectOldestFirst(logs, Keeps(filters), filters.offset, pageSize);
      } else {
        page := CollectNewestFirst(logs, Keeps(filters), filters.offset, pageSize);
      }
      return Answer(page, total);
    }
  }

  // ---------------------------------------------------------------------------
  // The query

  /** An empty field asks for nothing. */
  datatype Filters = Filters(
    stage: string, stageId: string, workerId: string, vuId: string, sessionId: string, operation: string,
    toolName: string, errorType: string, errorCode: string, tokenIndex: Option<int>,
    limit: int, offset: int, order: string)

  /** A page of a negative size cannot be allocated: the call panics. */
  datatype Answer = Answer(logs: seq<Log>, total: nat) | RunNotFound | Panicked

  predicate Wants(asked: string, has: string) { asked != "" ==> has == asked }

  predicate MatchesFilters(l: Log, f: Filters) {
    && Wants(f.stage, l.stage) && Wants(f.stageId, l.stageId) && Wants(f.workerId, l.workerId)
    && Wants(f.vuId, l.vuId) && Wants(f.sessionId, l.sessionId) && Wants(f.operation, l.operation)
    && Wants(f.toolName, l.toolName) && Wants(f.errorType, l.errorType) && Wants(f.errorCode, l.errorCode)
    && (f.tokenIndex.Some? ==> l.tokenIndex == f.tokenIndex)
  }

  /** Nothing asked for lets every log through, and each field asked for lets through just those that have it. */
  lemma PlaceFilters(l: Log, f: Filters)
    ensures MatchesFilters(l, Filters("", "", "", "", "", "", "", "", "", None, f.limit, f.offset, f.order))
    ensures MatchesFilters(l, f) <==> MatchesFilters(l, f.(stage := "")) && f.stage in {"", l.stage}
    ensures MatchesFilters(l, f) <==> MatchesFilters(l, f.(stageId := "")) && f.stageId in {"", l.stageId}
    ensures MatchesFilters(l, f) <==> MatchesFilters(l, f.(workerId := "")) && f.workerId in {"", l.workerId}
    ensures MatchesFilters(l, f) <==> MatchesFilters(l, f.(vuId := "")) && f.vuId in {"", l.vuId}
    ensures MatchesFilters(l, f) <==> MatchesFilters(l, f.(sessionId := "")) && f.sessionId in {"", l.sessionId}
  {
  }

  lemma KindFilters(l: Log, f: Filters)
    ensures MatchesFilters(l, f) <==> MatchesFilters(l, f.(operation := "")) && f.operation in {"", l.operation}
    ensures MatchesFilters(l, f) <==> MatchesFilters(l, f.(toolName := "")) && f.toolName in {"", l.toolName}
    ensures MatchesFilters(l, f) <==> MatchesFilters(l, f.(errorType := "")) && f.errorType in {"", l.errorType}
    ensures MatchesFilters(l, f) <==> MatchesFilters(l, f.(errorCode := "")) && f.errorCode in {"", l.errorCode}
    ensures MatchesFilters(l, f) <==> MatchesFilters(l, f.(tokenIndex := None)) && f.tokenIndex in {None, l.tokenIndex}
  {
  }

  function Keeps(f: Filters): Log -> bool { (l: Log) => MatchesFilters(l, f) }

  /** Everything that matches, oldest first or newest first. */
  function View(logs: seq<Log>, f: Filters): seq<Log> {
    if f.order == "asc" then Matching(logs, Keeps(f)) else Newest(logs, Keeps(f))
  }

  /**
   Pages at consecutive offsets are, one after the other, the whole filtered log:
   nothing is missing, nothing comes twice, whichever way it is ordered.
   */
  lemma PagesMakeView(logs: seq<Log>, f: Filters, n: nat)
    requires f.limit >= 1 && n * f.limit >= |Matching(logs, Keeps(f))|
    ensures Pages(View(logs, f), f.limit, n) == View(logs, f)
    ensures multiset(View(logs, f)) == multiset(Matching(logs, Keeps(f)))
  {
    NewestIsReverse(logs, Keeps(f));
    ReverseKeeps(Matching(logs, Keeps(f)));
    PagesAll(View(logs, f), f.limit, n);
  }

  lemma MatchingByTime(logs: seq<Log>, keep: Log -> bool, i: nat, j: nat)
    requires Ordered(logs, ByTime) && i < j < |Matching(logs, keep)|
    ensures Matching(logs, keep)[i].tsMs <= Matching(logs, keep)[j].tsMs
  {
    var a, b := MatchingInOrder(logs, keep, i, j);
    assert ByTime(logs[a]) <= ByTime(logs[b]);
  }

  /** Of stored logs, a view runs forwards in time when ascending and backwards otherwise. */
  lemma ViewOrdered(logs: seq<Log>, f: Filters, i: nat, j: nat)
    requires Ordered(logs, ByTime) && i < j < |View(logs, f)|
    ensures if f.order == "asc" then View(logs, f)[i].tsMs <= View(logs, f)[j].tsMs
            else View(logs, f)[i].tsMs >= View(logs, f)[j].tsMs
  {
    NewestIsReverse(logs, Keeps(f));
    if f.order == "asc" {
      MatchingByTime(logs, Keeps(f), i, j);
    } else {
      var n := |Matching(logs, Keeps(f))|;
      MatchingByTime(logs, Keeps(f), n - 1 - j, n - 1 - i);
    }
  }

  /** Logs that arrive in order between two requests do not disturb the full pages already read, oldest first. */
  lemma OldPagesStay(logs: seq<Log>, more: seq<Log>, f: Filters, offset: nat)
    requires f.order == "asc" && f.limit >= 1 && offset + f.limit <= |Matching(logs, Keeps(f))|
    ensures Page(View(logs + more, f), offset, f.limit) == Page(View(logs, f), offset, f.limit)
  {
    MatchingJoin(logs, more, Keeps(f));
  }
}
