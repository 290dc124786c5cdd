/**
 The bounded telemetry queue with tiered backpressure: when it is full it sheds
 verbose records (Tier 2) first, then operation records (Tier 1), and never a
 lifecycle record (Tier 0).
 */
module TelemetryQueue {
  import opened Sequences

  const TIER0_LIFECYCLE := 0
  const TIER1_OPERATION := 1
  const TIER2_VERBOSE := 2
  const DEFAULT_EVENT_BUFFER_SIZE := 10000

  /** `LogTier` is an integer in the source, so other tiers are representable. */
  datatype Record = Record(tier: int, body: int)

  datatype Queue = Queue(
    capacity: nat, records: seq<Record>, closed: bool,
    enqueued: nat, dequeued: nat, dropped2: nat, dropped1: nat)

  /** The first record of a tier, or `|rs|`. */
  function First(rs: seq<Record>, tier: int): (i: nat)
    ensures i <= |rs| && (i < |rs| ==> rs[i].tier == tier) && forall j :: 0 <= j < i ==> rs[j].tier != tier
  {
    if rs == [] || rs[0].tier == tier then 0 else 1 + First(rs[1..], tier)
  }

  predicate Holds(rs: seq<Record>, tier: int) { First(rs, tier) < |rs| }

  predicate Full(q: Queue) { |q.records| >= q.capacity }

  /** Which queued record makes room for `r`; `|records|` when none has to. */
  function Victim(q: Queue, r: Record): (i: nat)
    ensures i <= |q.records|
  {
    if q.closed || r.tier == TIER0_LIFECYCLE || !Full(q) then |q.records|
    else if Holds(q.records, TIER2_VERBOSE) then First(q.records, TIER2_VERBOSE)
    else if r.tier == TIER1_OPERATION then First(q.records, TIER1_OPERATION)
    else |q.records|
  }

  predicate Refused(q: Queue, r: Record) {
    q.closed ||
    (r.tier in {TIER1_OPERATION, TIER2_VERBOSE} && Full(q) && Victim(q, r) == |q.records|)
  }

  function Drop(q: Queue, tier: int): Queue {
    if tier == TIER2_VERBOSE then q.(dropped2 := q.dropped2 + 1)
    else if tier == TIER1_OPERATION then q.(dropped1 := q.dropped1 + 1)
    else q
  }

  function Shed(q: Queue, i: nat): Queue
    requires i <= |q.records|
  {
    if i == |q.records| then q
    else Drop(q, q.records[i].tier).(records := RemoveAt(q.records, i))
  }

  function Enqueued(q: Queue, r: Record): Queue {
    if q.closed then q
    else if Refused(q, r) then Drop(q, r.tier)
    else
      var s := Shed(q, Victim(q, r));
      s.(records := s.records + [r], enqueued := s.enqueued + 1)
  }

  /** How many records a batch of at most `n` takes. */
  function Grab(q: Queue, n: nat): nat { if n > |q.records| then |q.records| else n }

  function Dequeued(q: Queue, n: nat): Queue {
    q.(records := q.records[Grab(q, n)..], dequeued := q.dequeued + Grab(q, n))
  }

  class BoundedQueue {
    const capacity: nat
    var records: seq<Record>
    var closed: bool
    var totalEnqueued: nat
    var totalDequeued: nat
    var droppedTier2: nat
    var droppedTier1: nat

    ghost function State(): Queue
      reads this
    {
      Queue(capacity, records, closed, totalEnqueued, totalDequeued, droppedTier2, droppedTier1)
    }

    constructor (capacity: int)
      ensures State() == Empty(if capacity <= 0 then DEFAULT_EVENT_BUFFER_SIZE else capacity)
    {
      this.capacity := if capacity <= 0 then DEFAULT_EVENT_BUFFER_SIZE else capacity;
      records, closed := [], false;
      totalEnqueued, totalDequeued, droppedTier2, droppedTier1 := 0, 0, 0, 0;
    }

    method Enqueue(record: Record) returns (ok: bool)
      modifies this
      ensures State() == Enqueued(old(State()), record)
      ensures ok == !Refused(old(State()), record)
    {
      if closed {
        return false;
      }
      if record.tier == TIER0_LIFECYCLE {
        Append(record);
        return true;
      }
      if |records| >= capacity {
        var shed := ShedTier2Locked();
        if shed {
          Append(record);
          return true;
        }
        if record.tier == TIER2_VERBOSE {
          droppedTier2 := droppedTier2 + 1;
          return false;
        }
        if record.tier == TIER1_OPERATION {
          shed := ShedTier1Locked();
          if shed {
            Append(record);
            return true;
          }
          droppedTier1 := droppedTier1 + 1;
          return false;
        }
      }
      Append(record);
      return true;
    }

    method Append(record: Record)
      modifies this
      ensures State() == old(State()).(records := old(records) + [record], enqueued := old(totalEnqueued) + 1)
    {
      records := records + [record];
      totalEnqueued := totalEnqueued + 1;
    }

    method ShedTier2Locked() returns (found: bool)
      modifies this
      ensures found == Holds(old(records), TIER2_VERBOSE)
      ensures State() == Shed(old(State()), First(old(records), TIER2_VERBOSE))
    {
      for i := 0 to |records|
        invariant State() == old(State()) && i <= First(records, TIER2_VERBOSE)
      {
        if records[i].tier == TIER2_VERBOSE {
          records := records[..i] + records[i + 1..];
          droppedTier2 := droppedTier2 + 1;
          return true;
        }
      }
      return false;
    }

    method ShedTier1Locked() returns (found: bool)
      modifies this
      ensures found == Holds(old(records), TIER1_OPERATION)
      ensures State() == Shed(old(State()), First(old(records), TIER1_OPERATION))
    {
      for i := 0 to |records|
        invariant State() == old(State()) && i <= First(records, TIER1_OPERATION)
      {
        if records[i].tier == TIER1_OPERATION {
          records := records[..i] + records[i + 1..];
          droppedTier1 := droppedTier1 + 1;
          return true;
        }
      }
      return false;
    }

    /** `TryDequeueBatch`; `Dequeue`, `TryDequeue` and `DequeueBatch` are this once they hold the lock. */
    method TryDequeueBatch(n: nat) returns (batch: seq<Record>)
      modifies this
      ensures State() == Dequeued(old(State()), n)
      ensures batch == old(records)[..Grab(old(State()), n)]
      ensures batch + records == old(records) && |batch| == if n < |old(records)| then n else |old(records)|
    {
      if |records| == 0 {
        return [];
      }
      var count := n;
      if count > |records| {
        count := |records|;
      }
      batch := records[..count];
      records := records[count..];
      totalDequeued := totalDequeued + count;
    }

    method Close()
      modifies this
      ensures State() == old(State()).(closed := true)
    {
      closed := true;
    }
  }

  function Empty(capacity: nat): Queue { Queue(capacity, [], false, 0, 0, 0, 0) }

  // ---------------------------------------------------------------------------
  // Runs: any order of calls, with the history of what was accepted, handed out and shed

  datatype Call = Enqueue(r: Record) | Dequeue(n: nat) | Close

  /** `refused` are the records turned away while the queue was open. */
  datatype History = History(
    q: Queue, accepted: seq<Record>, out: seq<Record>, shed: seq<Record>, refused: seq<Record>)

  function Step(h: History, c: Call): History {
    match c
    case Close => h.(q := h.q.(closed := true))
    case Dequeue(n) => h.(q := Dequeued(h.q, n), out := h.out + h.q.records[..Grab(h.q, n)])
    case Enqueue(r) =>
      var v := Victim(h.q, r);
      History(
        Enqueued(h.q, r),
        if Refused(h.q, r) then h.accepted else h.accepted + [r],
        h.out,
        if v < |h.q.records| then h.shed + [h.q.records[v]] else h.shed,
        if Refused(h.q, r) && !h.q.closed then h.refused + [r] else h.refused)
  }

  function Exec(h: History, cs: seq<Call>): History
    decreases |cs|
  {
    if cs == [] then h else Exec(Step(h, cs[0]), cs[1..])
  }

  /** `a` is `b` with some elements left out. */
  ghost predicate Subsequence<T>(a: seq<T>, b: seq<T>)
    decreases |b|
  {
    a == [] ||
    (b != [] &&
     ((a[|a| - 1] == b[|b| - 1] && Subsequence(a[..|a| - 1], b[..|b| - 1])) || Subsequence(a, b[..|b| - 1])))
  }

  function Lifecycle(rs: seq<Record>): seq<Record> {
    if rs == [] then []
    else Lifecycle(rs[..|rs| - 1]) +
         (if rs[|rs| - 1].tier == TIER0_LIFECYCLE then [rs[|rs| - 1]] else [])
  }

  function Sheddable(rs: seq<Record>): nat {
    if rs == [] then 0
    else Sheddable(rs[..|rs| - 1]) + (if rs[|rs| - 1].tier == TIER0_LIFECYCLE then 0 else 1)
  }

  ghost predicate Conserved(h: History) {
    && multiset(h.accepted) == multiset(h.out) + multiset(h.q.records) + multiset(h.shed)
    && h.q.enqueued == |h.accepted| && h.q.dequeued == |h.out|
    && Subsequence(h.out + h.q.records, h.accepted)
    && Lifecycle(h.accepted) == Lifecycle(h.out + h.q.records)
    && forall r <- h.shed :: r.tier in {TIER1_OPERATION, TIER2_VERBOSE}
  }

  lemma {:induction false} SubsequenceDrops<T>(a: seq<T>, b: seq<T>, i: nat)
    requires Subsequence(a, b) && i < |a|
    ensures Subsequence(RemoveAt(a, i), b)
    decreases |b|
  {
    var b', n := b[..|b| - 1], |a| - 1;
    if a[n] == b[|b| - 1] && Subsequence(a[..n], b') {
      if i == n {
        assert RemoveAt(a, i) == a[..n];
      } else {
        SubsequenceDrops(a[..n], b', i);
        assert RemoveAt(a, i)[..n - 1] == RemoveAt(a[..n], i);
      }
    } else {
      SubsequenceDrops(a, b', i);
    }
  }

  lemma {:induction false} LifecycleDrops(a: seq<Record>, i: nat)
    requires i < |a| && a[i].tier != TIER0_LIFECYCLE
    ensures Lifecycle(RemoveAt(a, i)) == Lifecycle(a)
    ensures Sheddable(RemoveAt(a, i)) == Sheddable(a) - 1
  {
    var n := |a| - 1;
    if i == n {
      assert RemoveAt(a, i) == a[..n];
    } else {
      LifecycleDrops(a[..n], i);
      assert RemoveAt(a, i)[..n - 1] == RemoveAt(a[..n], i);
    }
  }

  lemma RemoveMultiset(a: seq<Record>, i: nat)
    requires i < |a|
    ensures multiset(a) == multiset(RemoveAt(a, i)) + multiset{a[i]}
  {
    assert a == a[..i] + [a[i]] + a[i + 1..];
  }

  /** Room is made: one record leaves the queue for the shed list, nothing else moves. */
  lemma ShedConserves(h: History, i: nat)
    requires Conserved(h) && i < |h.q.records| && h.q.records[i].tier in {TIER1_OPERATION, TIER2_VERBOSE}
    ensures Conserved(h.(q := Shed(h.q, i), shed := h.shed + [h.q.records[i]]))
  {
    ShedCounts(h.accepted, h.out, h.q.records, h.shed, i);
    ShedKeepsOrder(h.out, h.q.records, h.accepted, i);
    ShedTiers(h.shed, h.q.records[i]);
  }

  lemma ShedCounts(accepted: seq<Record>, out: seq<Record>, records: seq<Record>, shed: seq<Record>, i: nat)
    requires i < |records| && multiset(accepted) == multiset(out) + multiset(records) + multiset(shed)
    ensures multiset(accepted) ==
            multiset(out) + multiset(RemoveAt(records, i)) + multiset(shed + [records[i]])
  {
    RemoveMultiset(records, i);
  }

  lemma RemoveAfter<T>(a: seq<T>, b: seq<T>, i: nat)
    requires i < |b|
    ensures a + RemoveAt(b, i) == RemoveAt(a + b, |a| + i) && (a + b)[|a| + i] == b[i]
  {
  }

  lemma ShedKeepsOrder(out: seq<Record>, records: seq<Record>, accepted: seq<Record>, i: nat)
    requires i < |records| && records[i].tier != TIER0_LIFECYCLE && Subsequence(out + records, accepted)
    ensures Subsequence(out + RemoveAt(records, i), accepted)
    ensures Lifecycle(out + RemoveAt(records, i)) == Lifecycle(out + records)
  {
    RemoveAfter(out, records, i);
    SubsequenceDrops(out + records, accepted, |out| + i);
    LifecycleDrops(out + records, |out| + i);
  }

  lemma ShedTiers(shed: seq<Record>, r: Record)
    requires r.tier in {TIER1_OPERATION, TIER2_VERBOSE}
    requires forall x <- shed :: x.tier in {TIER1_OPERATION, TIER2_VERBOSE}
    ensures forall x <- shed + [r] :: x.tier in {TIER1_OPERATION, TIER2_VERBOSE}
  {
  }

  lemma SnocTogether(a: seq<Record>, b: seq<Record>, r: Record)
    requires Subsequence(a, b)
    ensures Subsequence(a + [r], b + [r])
    ensures Lifecycle(a + [r]) == Lifecycle(a) + Lifecycle([r]) && Lifecycle(b + [r]) == Lifecycle(b) + Lifecycle([r])
  {
    assert (a + [r])[..|a|] == a && (b + [r])[..|b|] == b && [r][..0] == [];
  }

  lemma AppendConserves(h: History, r: Record)
    requires Conserved(h)
    ensures Conserved(h.(q := h.q.(records := h.q.records + [r], enqueued := h.q.enqueued + 1),
                         accepted := h.accepted + [r]))
  {
    Associative(h.out, h.q.records, [r]);
    SnocTogether(h.out + h.q.records, h.accepted, r);
  }

  lemma DequeueConserves(h: History, n: nat)
    requires Conserved(h)
    ensures Conserved(Step(h, Dequeue(n)))
  {
    var k := Grab(h.q, n);
    assert h.q.records == h.q.records[..k] + h.q.records[k..];
    assert h.out + h.q.records[..k] + h.q.records[k..] == h.out + h.q.records;
  }

  lemma EnqueueConserves(h: History, r: Record)
    requires Conserved(h)
    ensures Conserved(Step(h, Enqueue(r)))
  {
    if !Refused(h.q, r) {
      var v := Victim(h.q, r);
      if v < |h.q.records| {
        ShedConserves(h, v);
        AppendConserves(h.(q := Shed(h.q, v), shed := h.shed + [h.q.records[v]]), r);
      } else {
        AppendConserves(h, r);
      }
    }
  }

  lemma StepConserves(h: History, c: Call)
    requires Conserved(h)
    ensures Conserved(Step(h, c))
  {
    match c
    case Close =>
    case Dequeue(n) => DequeueConserves(h, n);
    case Enqueue(r) => EnqueueConserves(h, r);
  }

  lemma {:induction false} QueueConserves(h: History, cs: seq<Call>)
    requires Conserved(h)
    ensures Conserved(Exec(h, cs))
    decreases |cs|
  {
    if cs != [] {
      StepConserves(h, cs[0]);
      QueueConserves(Step(h, cs[0]), cs[1..]);
    }
  }

  /**
   Over every run: accepted = handed out + queued + shed; what is handed out and
   queued keeps the order of acceptance; and the lifecycle records among them are
   exactly the lifecycle records accepted, in order, so none is ever shed.
   */
  lemma RunsConserve(capacity: nat, cs: seq<Call>)
    ensures Conserved(Exec(History(Empty(capacity), [], [], [], []), cs))
  {
    var none: seq<Record> := [];
    assert none + none == none;
    QueueConserves(History(Empty(capacity), [], [], [], []), cs);
  }

  // ---------------------------------------------------------------------------
  // The capacity bound

  const KNOWN := {TIER0_LIFECYCLE, TIER1_OPERATION, TIER2_VERBOSE}

  predicate TiersIn(cs: seq<Call>, tiers: set<int>) { forall c <- cs :: c.Enqueue? ==> c.r.tier in tiers }

  ghost predicate WithinCapacity(q: Queue) { Sheddable(q.records) <= q.capacity }

  lemma {:induction false} SheddableSplit(a: seq<Record>, b: seq<Record>)
    ensures Sheddable(a + b) == Sheddable(a) + Sheddable(b)
    ensures Sheddable(a) <= |a|
    decreases |a| + |b|
  {
    if b == [] {
      assert a + b == a;
      if a != [] {
        SheddableSplit(a[..|a| - 1], []);
      }
    } else {
      assert (a + b)[..|a + b| - 1] == a + b[..|b| - 1];
      SheddableSplit(a, b[..|b| - 1]);
    }
  }

  /** With nothing sheddable of tiers 1 and 2, a full queue of known tiers is all lifecycle. */
  lemma EnqueueWithinCapacity(q: Queue, r: Record)
    requires WithinCapacity(q) && r.tier in KNOWN
    ensures WithinCapacity(Enqueued(q, r))
  {
    var v := Victim(q, r);
    var rs := if v < |q.records| then RemoveAt(q.records, v) else q.records;
    if v < |q.records| {
      LifecycleDrops(q.records, v);
    }
    SheddableSplit(q.records, []);
    assert q.records + [] == q.records;
    SheddableSplit(rs, [r]);
    assert Sheddable([r]) == (if r.tier == TIER0_LIFECYCLE then 0 else 1) by {
      assert [r][..0] == [];
    }
  }

  lemma {:induction false} QueueWithinCapacity(h: History, cs: seq<Call>)
    requires WithinCapacity(h.q) && TiersIn(cs, KNOWN)
    ensures WithinCapacity(Exec(h, cs).q) && Exec(h, cs).q.capacity == h.q.capacity
    decreases |cs|
  {
    if cs != [] {
      var c := cs[0];
      assert c in cs && forall d <- cs[1..] :: d in cs;
      if c.Enqueue? {
        EnqueueWithinCapacity(h.q, c.r);
      } else if c.Dequeue? {
        var k := Grab(h.q, c.n);
        assert h.q.records == h.q.records[..k] + h.q.records[k..];
        SheddableSplit(h.q.records[..k], h.q.records[k..]);
      }
      QueueWithinCapacity(Step(h, c), cs[1..]);
    }
  }

  /** A record of any other tier is never refused and sheds nothing, so it alone breaks the bound. */
  lemma UnknownTierOverflows(q: Queue, r: Record)
    requires !q.closed && Sheddable(q.records) == q.capacity && !Holds(q.records, TIER2_VERBOSE)
    ensures !WithinCapacity(Enqueued(q, r)) <==>
            r.tier !in KNOWN
  {
    SheddableSplit(q.records, []);
    assert q.records + [] == q.records;
    SheddableSplit(q.records, [r]);
    assert [r][..0] == [];
    if r.tier in KNOWN {
      EnqueueWithinCapacity(q, r);
    }
  }

  lemma {:induction false} ExecSnoc(h: History, cs: seq<Call>, c: Call)
    ensures Exec(h, cs + [c]) == Step(Exec(h, cs), c)
    decreases |cs|
  {
    if cs == [] {
      assert [] + [c] == [c] && [c][1..] == [];
    } else {
      assert (cs + [c])[1..] == cs[1..] + [c];
      ExecSnoc(Step(h, cs[0]), cs[1..], c);
    }
  }

  /** An open queue without verbose records that holds `k` sheddable ones. */
  ghost predicate Piled(q: Queue, k: nat) {
    !q.closed && Sheddable(q.records) == k && forall r <- q.records :: r.tier != TIER2_VERBOSE
  }

  lemma SheddableSnoc(rs: seq<Record>, r: Record)
    requires r.tier != TIER0_LIFECYCLE
    ensures Sheddable(rs + [r]) == Sheddable(rs) + 1
  {
    assert (rs + [r])[..|rs|] == rs;
  }

  /** A record of an unknown tier is not refused, and nothing makes room for it. */
  lemma UnknownAdded(q: Queue, k: nat, r: Record)
    requires r.tier !in KNOWN && Piled(q, k)
    ensures Piled(Enqueued(q, r), k + 1)
  {
    assert Enqueued(q, r).records == q.records + [r];
    SheddableSnoc(q.records, r);
  }

  lemma PileGrows(h: History, k: nat, r: Record)
    requires r.tier !in KNOWN && Piled(h.q, k)
    ensures Piled(Step(h, Enqueue(r)).q, k + 1)
  {
    UnknownAdded(h.q, k, r);
  }

  predicate AllAre(cs: seq<Call>, c: Call) { forall x <- cs :: x == c }

  lemma OneMoreSame(cs: seq<Call>, c: Call)
    requires AllAre(cs, c)
    ensures AllAre(cs + [c], c)
  {
  }

  lemma {:induction false} UnknownPileUp(h: History, n: nat, r: Record) returns (cs: seq<Call>)
    requires r.tier !in KNOWN && Piled(h.q, 0)
    ensures Piled(Exec(h, cs).q, n) && AllAre(cs, Enqueue(r))
    decreases n
  {
    if n == 0 {
      cs := [];
    } else {
      var some := UnknownPileUp(h, n - 1, r);
      var g := Exec(h, some);
      PileGrows(g, n - 1, r);
      ExecSnoc(h, some, Enqueue(r));
      OneMoreSame(some, Enqueue(r));
      cs := some + [Enqueue(r)];
    }
  }

  lemma {:induction false} CapacityStays(h: History, cs: seq<Call>)
    ensures Exec(h, cs).q.capacity == h.q.capacity
    decreases |cs|
  {
    if cs != [] {
      CapacityStays(Step(h, cs[0]), cs[1..]);
    }
  }

  lemma Outside<T>(a: set<T>, b: set<T>) returns (x: T)
    requires !(a <= b)
    ensures x in a && x !in b
  {
    x :| x in a && x !in b;
  }

  /** A queue of any size stays within it, over every run of records of these tiers, exactly when all are known. */
  lemma BoundedIffKnown(capacity: nat, tiers: set<int>)
    ensures (forall cs :: TiersIn(cs, tiers) ==> WithinCapacity(Exec(History(Empty(capacity), [], [], [], []), cs).q))
            <==> tiers <= KNOWN
  {
    var h := History(Empty(capacity), [], [], [], []);
    if tiers <= KNOWN {
      forall cs | TiersIn(cs, tiers) ensures WithinCapacity(Exec(h, cs).q) {
        QueueWithinCapacity(h, cs);
      }
    } else {
      var t := Outside(tiers, KNOWN);
      var cs := UnknownPileUp(h, capacity + 1, Record(t, 0));
      CapacityStays(h, cs);
      assert TiersIn(cs, tiers) && !WithinCapacity(Exec(h, cs).q);
    }
  }

  // ---------------------------------------------------------------------------
  // What an enqueue does, told without the functions that do it

  /** While there is room every record of every tier joins the end, and nothing is dropped. */
  lemma RoomForAll(q: Queue, r: Record)
    requires !q.closed && |q.records| < q.capacity
    ensures !Refused(q, r) && Enqueued(q, r) == q.(records := q.records + [r], enqueued := q.enqueued + 1)
  {
  }

  /** The first record of a tier. */
  ghost predicate FirstOf(rs: seq<Record>, tier: int, i: nat) {
    i < |rs| && rs[i].tier == tier && forall j :: 0 <= j < i ==> rs[j].tier != tier
  }

  /** A full queue and a record that is not tier 0: the first verbose record makes room. */
  lemma VerboseMakesRoom(q: Queue, r: Record, i: nat)
    requires !q.closed && |q.records| >= q.capacity && r.tier != 0 && FirstOf(q.records, 2, i)
    ensures !Refused(q, r)
    ensures Enqueued(q, r) == q.(records := q.records[..i] + q.records[i + 1..] + [r],
                                 enqueued := q.enqueued + 1, dropped2 := q.dropped2 + 1)
  {
    assert First(q.records, 2) == i;
  }

  /**
   A full queue without a verbose record: tier 2 is refused; tier 1 takes the place
   of the first tier 1 record, or is refused if there is none; all else is appended.
   */
  lemma NoVerboseLeft(q: Queue, r: Record)
    requires !q.closed && |q.records| >= q.capacity && forall x <- q.records :: x.tier != 2
    ensures r.tier == 2 ==> Refused(q, r) && Enqueued(q, r) == q.(dropped2 := q.dropped2 + 1)
    ensures r.tier == 1 && (forall x <- q.records :: x.tier != 1) ==>
              Refused(q, r) && Enqueued(q, r) == q.(dropped1 := q.dropped1 + 1)
    ensures r.tier == 1 ==> forall i: nat :: FirstOf(q.records, 1, i) ==>
              && !Refused(q, r)
              && Enqueued(q, r) == q.(records := q.records[..i] + q.records[i + 1..] + [r],
                                      enqueued := q.enqueued + 1, dropped1 := q.dropped1 + 1)
    ensures r.tier != 1 && r.tier != 2 ==>
              !Refused(q, r) && Enqueued(q, r) == q.(records := q.records + [r], enqueued := q.enqueued + 1)
  {
    forall i: nat | FirstOf(q.records, 1, i) ensures First(q.records, 1) == i {
    }
  }

  /** A lifecycle record joins the end of any open queue, and a closed queue takes and drops nothing. */
  lemma LifecycleAlwaysTaken(q: Queue, r: Record)
    ensures !q.closed && r.tier == 0 ==>
              !Refused(q, r) && Enqueued(q, r) == q.(records := q.records + [r], enqueued := q.enqueued + 1)
    ensures q.closed ==> Refused(q, r) && Enqueued(q, r) == q
  {
  }

  ghost predicate Tallied(h: History) {
    && h.q.enqueued == |h.accepted| && h.q.dequeued == |h.out|
    && h.q.dropped1 + h.q.dropped2 == |h.shed| + |h.refused|
  }

  lemma StepTallies(h: History, c: Call)
    requires Tallied(h) && forall x <- h.shed :: x.tier == 1 || x.tier == 2
    ensures Tallied(Step(h, c))
    ensures Step(h, c).q.dropped1 + Step(h, c).q.dropped2 > h.q.dropped1 + h.q.dropped2 ==>
              c.Enqueue? && !h.q.closed && |h.q.records| >= h.q.capacity
  {
  }

  lemma {:induction false} RunTallies(h: History, cs: seq<Call>)
    requires Tallied(h) && Conserved(h)
    ensures Tallied(Exec(h, cs))
    decreases |cs|
  {
    if cs != [] {
      StepTallies(h, cs[0]);
      StepConserves(h, cs[0]);
      RunTallies(Step(h, cs[0]), cs[1..]);
    }
  }

  /** Over every run the counters count the records accepted, handed out, and shed or refused. */
  lemma CountersExact(capacity: nat, cs: seq<Call>)
    ensures Tallied(Exec(History(Empty(capacity), [], [], [], []), cs))
  {
    RunsConserve(capacity, []);
    RunTallies(History(Empty(capacity), [], [], [], []), cs);
  }

  /**
   Priority: a Tier 1 record is lost, shed or refused, only while the queue is
   full with no Tier 2 record in it; a Tier 0 record is refused only after close.
   */
  lemma Priority(q: Queue, r: Record)
    requires !q.closed
    ensures var v := Victim(q, r);
            (v < |q.records| && q.records[v].tier == TIER1_OPERATION) ||
            (Refused(q, r) && r.tier == TIER1_OPERATION) ==>
              |q.records| >= q.capacity && forall x <- q.records :: x.tier != TIER2_VERBOSE
    ensures Refused(q, r) ==> r.tier != TIER0_LIFECYCLE
    ensures Refused(q, r) && r.tier == TIER1_OPERATION ==> forall x <- q.records :: x.tier != TIER1_OPERATION
    ensures Victim(q, r) < |q.records| ==> !Refused(q, r)
  {
  }
}
