/**
 Delivery of work assignments: the server keeps a bounded queue per worker and a
 list of what was delivered but not acknowledged, and requeues what times out;
 the worker starts each lease at most once at a time and acknowledges what it
 started.
 */
module Assignments {

  const DEFAULT_MAX_PENDING := 100

  datatype Assignment = Assignment(run: string, lease: string, vuStart: int, vuEnd: int)
  datatype Delivered = Delivered(assignment: Assignment, deliveredAt: int)

  function Limit(configured: int): (n: nat)
    ensures n > 0 && n == if configured > 0 then configured else 100
  {
    if configured <= 0 then DEFAULT_MAX_PENDING else configured
  }

  function Excess(limit: nat, q: seq<Assignment>): (n: nat)
    requires limit > 0
    ensures n <= |q|
  {
    if |q| >= limit then |q| - limit + 1 else 0
  }

  /** The queue after an add: the oldest go when it is full. */
  function Added(limit: nat, q: seq<Assignment>, a: Assignment): seq<Assignment>
    requires limit > 0
  {
    q[Excess(limit, q)..] + [a]
  }

  /** The last `n` of a sequence, or all of it. */
  function Newest<T>(s: seq<T>, n: nat): seq<T> { if |s| <= n then s else s[|s| - n..] }

  /** An add keeps the newest, up to the limit, and drops nothing while there is room. */
  lemma AddKeepsNewest(limit: nat, q: seq<Assignment>, a: Assignment)
    requires limit > 0
    ensures Added(limit, q, a) == Newest(q + [a], limit)
    ensures q[..Excess(limit, q)] + Added(limit, q, a) == q + [a]
    ensures |q| < limit ==> Added(limit, q, a) == q + [a]
  {
  }

  /** Requeueing, item by item: the queue, what stays delivered, and what fell off the queue. */
  datatype Sweep = Sweep(queue: seq<Assignment>, kept: seq<Delivered>, dropped: seq<Assignment>, count: nat)

  function SweepOne(limit: nat, s: Sweep, d: Delivered, now: int, timeout: int): Sweep
    requires limit > 0
  {
    if now - d.deliveredAt > timeout
    then Sweep(Added(limit, s.queue, d.assignment), s.kept, s.dropped + s.queue[..Excess(limit, s.queue)], s.count + 1)
    else s.(kept := s.kept + [d])
  }

  function SweepAll(limit: nat, s: Sweep, ds: seq<Delivered>, now: int, timeout: int): Sweep
    requires limit > 0
    decreases |ds|
  {
    if ds == [] then s else SweepAll(limit, SweepOne(limit, s, ds[0], now, timeout), ds[1..], now, timeout)
  }

  function Unacked(ds: seq<Delivered>, leases: set<string>): seq<Delivered> {
    if ds == [] then []
    else (if ds[0].assignment.lease in leases then [] else [ds[0]]) + Unacked(ds[1..], leases)
  }

  function Acked(ds: seq<Delivered>, leases: set<string>): seq<Delivered> {
    if ds == [] then []
    else (if ds[0].assignment.lease in leases then [ds[0]] else []) + Acked(ds[1..], leases)
  }

  function Stamp(q: seq<Assignment>, now: int): seq<Delivered> {
    seq(|q|, i requires 0 <= i < |q| => Delivered(q[i], now))
  }

  function Get<V>(m: map<string, seq<V>>, w: string): seq<V> { if w in m then m[w] else [] }

  /** How many deliveries a sweep requeues, worker by worker. */
  function Counts(limit: nat, queues: map<string, seq<Assignment>>, delivered: map<string, seq<Delivered>>,
                  now: int, timeout: int): map<string, nat>
    requires limit > 0
  {
    map w | w in delivered :: SweepAll(limit, Sweep(Get(queues, w), [], [], 0), delivered[w], now, timeout).count
  }

  /** What the sweep left for one worker. */
  ghost predicate Swept(limit: nat, q0: map<string, seq<Assignment>>, d0: map<string, seq<Delivered>>,
                        now: int, timeout: int,
                        q: map<string, seq<Assignment>>, d: map<string, seq<Delivered>>, w: string)
    requires limit > 0
  {
    var s := SweepAll(limit, Sweep(Get(q0, w), [], [], 0), Get(d0, w), now, timeout);
    Get(q, w) == s.queue && Get(d, w) == s.kept
  }

  /** All workers are swept but those still to do, which are as they were. */
  ghost predicate SweptBut(limit: nat, q0: map<string, seq<Assignment>>, d0: map<string, seq<Delivered>>,
                           now: int, timeout: int,
                           q: map<string, seq<Assignment>>, d: map<string, seq<Delivered>>, todo: set<string>)
    requires limit > 0
  {
    && (forall w :: w in todo ==> w in d0 && Get(q, w) == Get(q0, w) && w in d && d[w] == d0[w])
    && (forall w :: w !in todo ==> Swept(limit, q0, d0, now, timeout, q, d, w))
  }

  lemma OneMoreSwept(limit: nat, q0: map<string, seq<Assignment>>, d0: map<string, seq<Delivered>>,
                     now: int, timeout: int,
                     q: map<string, seq<Assignment>>, d: map<string, seq<Delivered>>,
                     q': map<string, seq<Assignment>>, d': map<string, seq<Delivered>>,
                     todo: set<string>, worker: string, n: nat)
    requires limit > 0 && worker in todo && SweptBut(limit, q0, d0, now, timeout, q, d, todo)
    requires var s := SweepAll(limit, Sweep(Get(q, worker), [], [], 0), d[worker], now, timeout);
             Get(q', worker) == s.queue && Get(d', worker) == s.kept && n == s.count
    requires forall w :: w != worker ==> Get(q', w) == Get(q, w)
    requires forall w :: w != worker ==> (w in d' <==> w in d) && Get(d', w) == Get(d, w)
    ensures SweptBut(limit, q0, d0, now, timeout, q', d', todo - {worker})
    ensures n == Counts(limit, q0, d0, now, timeout)[worker]
  {
    forall w | w !in todo - {worker} ensures Swept(limit, q0, d0, now, timeout, q', d', w) {
      if w != worker {
        assert Swept(limit, q0, d0, now, timeout, q, d, w);
      }
    }
  }

  function Only(m: map<string, nat>, keys: set<string>): map<string, nat> { map k | k in m && k in keys :: m[k] }

  lemma OnlyAll(m: map<string, nat>)
    ensures Only(m, m.Keys) == m && Total(Only(m, {})) == 0
  {
    assert Only(m, {}) == map[];
  }

  lemma OnlyOneLess(m: map<string, nat>, keys: set<string>, k: string)
    requires k in m && k in keys
    ensures Total(Only(m, keys)) == m[k] + Total(Only(m, keys - {k}))
  {
    TotalWithout(Only(m, keys), k);
    assert Only(m, keys) - {k} == Only(m, keys - {k});
  }

  ghost function Total(m: map<string, nat>): nat
    decreases |m|
  {
    if m == map[] then 0 else var k :| k in m; m[k] + Total(m - {k})
  }

  lemma {:induction false} TotalWithout(m: map<string, nat>, k: string)
    requires k in m
    ensures Total(m) == m[k] + Total(m - {k})
    decreases |m|
  {
    var j :| j in m && Total(m) == m[j] + Total(m - {j});
    if j != k {
      TotalWithout(m - {j}, k);
      TotalWithout(m - {k}, j);
      assert m - {j} - {k} == m - {k} - {j};
    }
  }

  // ---------------------------------------------------------------------------
  // The server

  class Server {
    var pendingAssignments: map<string, seq<Assignment>>
    var pendingAck: map<string, seq<Delivered>>
    var maxPending: int

    constructor (maxPending: int)
      ensures pendingAssignments == map[] && pendingAck == map[] && this.maxPending == maxPending
    {
      pendingAssignments, pendingAck, this.maxPending := map[], map[], maxPending;
    }

    /** `addAssignmentLocked`. */
    method AddAssignmentLocked(worker: string, a: Assignment)
      modifies this`pendingAssignments
      ensures pendingAssignments ==
              old(pendingAssignments)[worker := Added(Limit(maxPending), Get(old(pendingAssignments), worker), a)]
      ensures |pendingAssignments[worker]| <= Limit(maxPending)
    {
      var limit := maxPending;
      if limit <= 0 {
        limit := DEFAULT_MAX_PENDING;
      }
      var queue := if worker in pendingAssignments then pendingAssignments[worker] else [];
      if |queue| >= limit {
        var dropCount := |queue| - limit + 1;
        queue := queue[dropCount..];
      }
      queue := queue + [a];
      pendingAssignments := pendingAssignments[worker := queue];
    }

    /** `getAssignmentsForWorker`. */
    method GetAssignmentsForWorker(worker: string, now: int) returns (r: seq<Assignment>)
      modifies this`pendingAssignments, this`pendingAck
      ensures r == Get(old(pendingAssignments), worker)
      ensures pendingAssignments == old(pendingAssignments) - {worker}
      ensures forall w :: Get(pendingAck, w) ==
                Get(old(pendingAck), w) + (if w == worker then Stamp(r, now) else [])
    {
      if worker !in pendingAssignments {
        assert pendingAssignments - {worker} == pendingAssignments;
        return [];
      }
      r := pendingAssignments[worker];
      pendingAssignments := pendingAssignments - {worker};
      var delivered: seq<Delivered> := [];
      for i := 0 to |r|
        invariant delivered == Stamp(r[..i], now)
        invariant pendingAck == old(pendingAck) && pendingAssignments == old(pendingAssignments) - {worker}
      {
        delivered := delivered + [Delivered(r[i], now)];
      }
      assert r[..|r|] == r;
      var have := if worker in pendingAck then pendingAck[worker] else [];
      pendingAck := pendingAck[worker := have + delivered];
    }

    /** `ackAssignmentsForWorker`. */
    method AckAssignmentsForWorker(worker: string, leaseIDs: seq<string>) returns (acked: nat)
      modifies this`pendingAck
      ensures var leases := Named(leaseIDs);
              && acked == |Acked(Get(old(pendingAck), worker), leases)|
              && forall w :: Get(pendingAck, w) ==
                   if w == worker then Unacked(Get(old(pendingAck), worker), leases) else Get(old(pendingAck), w)
    {
      var leases := LeaseSet(leaseIDs);
      var pending := if worker in pendingAck then pendingAck[worker] else [];
      NoLeases(pending);
      if |leases| == 0 {
        return 0;
      }
      if |pending| == 0 {
        return 0;
      }
      var remaining;
      remaining, acked := Settle(pending, leases);
      if |remaining| == 0 {
        pendingAck := pendingAck - {worker};
      } else {
        pendingAck := pendingAck[worker := remaining];
      }
    }

    /** `requeueExpiredPendingAcks`, one worker after another. */
    method RequeueExpiredPendingAcks(now: int, timeout: int) returns (requeued: nat)
      modifies this`pendingAssignments, this`pendingAck
      ensures timeout <= 0 ==> unchanged(this) && requeued == 0
      ensures timeout > 0 ==> forall w ::
                Swept(Limit(maxPending), old(pendingAssignments), old(pendingAck), now, timeout,
                      pendingAssignments, pendingAck, w)
      ensures timeout > 0 ==>
                requeued == Total(Counts(Limit(maxPending), old(pendingAssignments), old(pendingAck), now, timeout))
    {
      requeued := 0;
      if timeout <= 0 {
        return;
      }
      ghost var limit, q0, d0 := Limit(maxPending), pendingAssignments, pendingAck;
      ghost var counts := Counts(limit, q0, d0, now, timeout);
      var todo := pendingAck.Keys;
      OnlyAll(counts);
      assert counts.Keys == todo;
      while todo != {}
        invariant todo <= d0.Keys
        invariant SweptBut(limit, q0, d0, now, timeout, pendingAssignments, pendingAck, todo)
        invariant requeued + Total(Only(counts, todo)) == Total(counts)
        decreases todo
      {
        var worker :| worker in todo;
        ghost var q, d := pendingAssignments, pendingAck;
        var n := RequeueWorker(worker, now, timeout);
        OneMoreSwept(limit, q0, d0, now, timeout, q, d, pendingAssignments, pendingAck, todo, worker, n);
        OnlyOneLess(counts, todo, worker);
        requeued := requeued + n;
        todo := todo - {worker};
      }
    }

    method RequeueWorker(worker: string, now: int, timeout: int) returns (requeued: nat)
      requires worker in pendingAck
      modifies this`pendingAssignments, this`pendingAck
      ensures var s := SweepAll(Limit(maxPending), Sweep(Get(old(pendingAssignments), worker), [], [], 0),
                                old(pendingAck)[worker], now, timeout);
              Get(pendingAssignments, worker) == s.queue && Get(pendingAck, worker) == s.kept && requeued == s.count
      ensures forall w :: w != worker ==> Get(pendingAssignments, w) == Get(old(pendingAssignments), w)
      ensures forall w :: w != worker ==>
                (w in pendingAck <==> w in old(pendingAck)) && Get(pendingAck, w) == Get(old(pendingAck), w)
    {
      var pending := pendingAck[worker];
      requeued := 0;
      if |pending| == 0 {
        pendingAck := pendingAck - {worker};
        return;
      }
      ghost var start := Sweep(Get(pendingAssignments, worker), [], [], 0);
      ghost var dropped: seq<Assignment> := [];
      var remaining: seq<Delivered> := [];
      for i := 0 to |pending|
        invariant pendingAck == old(pendingAck)
        invariant forall w :: w != worker ==> Get(pendingAssignments, w) == Get(old(pendingAssignments), w)
        invariant SweepAll(Limit(maxPending), Sweep(Get(pendingAssignments, worker), remaining, dropped, requeued),
                           pending[i..], now, timeout)
               == SweepAll(Limit(maxPending), start, pending, now, timeout)
      {
        assert pending[i..][0] == pending[i] && pending[i..][1..] == pending[i + 1..];
        if now - pending[i].deliveredAt > timeout {
          ghost var q := Get(pendingAssignments, worker);
          dropped := dropped + q[..Excess(Limit(maxPending), q)];
          AddAssignmentLocked(worker, pending[i].assignment);
          requeued := requeued + 1;
        } else {
          remaining := remaining + [pending[i]];
        }
      }
      assert pending[|pending|..] == [];
      if |remaining| == 0 {
        pendingAck := pendingAck - {worker};
      } else {
        pendingAck := pendingAck[worker := remaining];
      }
    }
  }

  function Named(leaseIDs: seq<string>): set<string> { set l | l in leaseIDs && l != "" }

  method LeaseSet(leaseIDs: seq<string>) returns (leases: set<string>)
    ensures leases == Named(leaseIDs) && forall l :: l in leases <==> l in leaseIDs && l != ""
  {
    leases := {};
    for i := 0 to |leaseIDs|
      invariant leases == Named(leaseIDs[..i])
    {
      assert leaseIDs[..i + 1] == leaseIDs[..i] + [leaseIDs[i]];
      if leaseIDs[i] != "" {
        leases := leases + {leaseIDs[i]};
      }
    }
    assert leaseIDs[..|leaseIDs|] == leaseIDs;
  }

  /** The deliveries left, and how many were acknowledged. */
  method Settle(pending: seq<Delivered>, leases: set<string>) returns (remaining: seq<Delivered>, acked: nat)
    ensures remaining == Unacked(pending, leases) && acked == |Acked(pending, leases)|
  {
    var buffer := new Delivered[|pending|](i requires 0 <= i < |pending| => pending[i]);
    assert buffer[..] == pending;
    var kept := CompactUnacked(buffer, leases);
    SplitByAck(pending, leases);
    remaining, acked := buffer[..kept], |pending| - kept;
  }

  /** The compaction through `pending[:0]`: survivors move down over the slots already read. */
  method CompactUnacked(a: array<Delivered>, leases: set<string>) returns (kept: nat)
    modifies a
    ensures kept <= a.Length && a[..kept] == Unacked(old(a[..]), leases)
  {
    kept := 0;
    ghost var was := a[..];
    for i := 0 to a.Length
      invariant kept <= i && a[..kept] == Unacked(was[..i], leases)
      invariant a[i..] == was[i..]
    {
      UnackedSnoc(was, i, leases);
      assert a[i] == a[i..][0] == was[i] && a[i + 1..] == a[i..][1..] == was[i + 1..];
      if a[i].assignment.lease !in leases {
        a[kept] := a[i];
        kept := kept + 1;
        assert a[..kept] == Unacked(was[..i], leases) + [was[i]];
      }
    }
    assert was[..a.Length] == was;
  }

  lemma {:induction false} UnackedJoin(a: seq<Delivered>, b: seq<Delivered>, leases: set<string>)
    ensures Unacked(a + b, leases) == Unacked(a, leases) + Unacked(b, leases)
    decreases |a|
  {
    if a == [] {
      assert a + b == b;
    } else {
      assert (a + b)[1..] == a[1..] + b;
      UnackedJoin(a[1..], b, leases);
    }
  }

  lemma UnackedSnoc(ds: seq<Delivered>, i: nat, leases: set<string>)
    requires i < |ds|
    ensures Unacked(ds[..i + 1], leases) ==
            Unacked(ds[..i], leases) + if ds[i].assignment.lease in leases then [] else [ds[i]]
  {
    assert ds[..i + 1] == ds[..i] + [ds[i]];
    UnackedJoin(ds[..i], [ds[i]], leases);
    assert [ds[i]][1..] == [];
  }

  lemma {:induction false} SplitByAck(ds: seq<Delivered>, leases: set<string>)
    ensures |Acked(ds, leases)| + |Unacked(ds, leases)| == |ds|
    ensures multiset(Acked(ds, leases)) + multiset(Unacked(ds, leases)) == multiset(ds)
    ensures forall d <- Acked(ds, leases) :: d.assignment.lease in leases && d in ds
    ensures forall d <- Unacked(ds, leases) :: d.assignment.lease !in leases
  {
    if ds != [] {
      SplitByAck(ds[1..], leases);
      assert ds == [ds[0]] + ds[1..];
    }
  }

  lemma {:induction false} NoLeases(ds: seq<Delivered>)
    ensures Acked(ds, {}) == [] && Unacked(ds, {}) == ds
  {
    if ds != [] {
      NoLeases(ds[1..]);
    }
  }

  // ---------------------------------------------------------------------------
  // The worker's executor

  /** `Execute` returns nil for the first two. */
  datatype Outcome = AlreadyRunning | Launched | InvalidRange

  function Executed(active: set<string>, a: Assignment): Outcome {
    if a.lease in active then AlreadyRunning
    else if a.vuEnd - a.vuStart <= 0 then InvalidRange
    else Launched
  }

  /** `runLeases` lists, run by run, exactly the active leases. */
  ghost predicate Indexed(active: map<string, Assignment>, runLeases: map<string, set<string>>) {
    && (forall l <- active :: active[l].lease == l && active[l].run in runLeases && l in runLeases[active[l].run])
    && (forall r <- runLeases :: runLeases[r] != {})
    && (forall r, l :: r in runLeases && l in runLeases[r] ==> l in active && active[l].run == r)
  }

  function Unindexed(runLeases: map<string, set<string>>, run: string, lease: string): map<string, set<string>> {
    if run !in runLeases then runLeases
    else if runLeases[run] - {lease} == {} then runLeases - {run} else runLeases[run := runLeases[run] - {lease}]
  }

  lemma CleanedIndex(active: map<string, Assignment>, runLeases: map<string, set<string>>, run: string, lease: string)
    requires Indexed(active, runLeases)
    ensures Indexed(active - {lease}, Unindexed(runLeases, run, lease)) <==>
            (lease in active ==> active[lease].run == run)
  {
    var a, r := active - {lease}, Unindexed(runLeases, run, lease);
    if lease in active && active[lease].run != run {
      var other := active[lease].run;
      assert other in r && lease in r[other] && lease !in a;
    } else {
      IndexWithout(active, runLeases, run, lease);
    }
  }

  lemma IndexWithout(active: map<string, Assignment>, runLeases: map<string, set<string>>, run: string, lease: string)
    requires Indexed(active, runLeases) && (lease in active ==> active[lease].run == run)
    ensures Indexed(active - {lease}, Unindexed(runLeases, run, lease))
  {
    var a, r := active - {lease}, Unindexed(runLeases, run, lease);
    forall l | l in a ensures a[l].lease == l && a[l].run in r && l in r[a[l].run] {
      assert l in runLeases[active[l].run];
      assert active[l].run == run ==> l in runLeases[run] - {lease};
    }
  }

  class AssignmentExecutor {
    var active: map<string, Assignment>
    var runLeases: map<string, set<string>>
    var cancelled: set<Assignment>
    var immediateStop: set<Assignment>

    constructor ()
      ensures Indexed(active, runLeases) && active == map[] && cancelled == {} && immediateStop == {}
    {
      active, runLeases, cancelled, immediateStop := map[], map[], {}, {};
    }

    /** `Execute`, up to the start of the goroutine. */
    method Execute(a: Assignment) returns (r: Outcome)
      requires Indexed(active, runLeases)
      modifies this`active, this`runLeases
      ensures Indexed(active, runLeases)
      ensures r == Executed(old(active).Keys, a)
      ensures r == Launched <==> a.lease !in old(active) && a.vuStart < a.vuEnd
      ensures r == AlreadyRunning <==> a.lease in old(active)
      ensures active == if r == Launched then old(active)[a.lease := a] else old(active)
    {
      if a.lease in active {
        return AlreadyRunning;
      }
      if a.vuEnd - a.vuStart <= 0 {
        return InvalidRange;
      }
      active := active[a.lease := a];
      var leases := if a.run in runLeases then runLeases[a.run] else {};
      runLeases := runLeases[a.run := leases + {a.lease}];
      return Launched;
    }

    /**
     `cleanupAssignment`, deferred by the goroutine that runs the lease. The index
     stays right exactly when the lease, if it is active, is one of that run.
     */
    method CleanupAssignment(run: string, lease: string)
      requires Indexed(active, runLeases)
      modifies this`active, this`runLeases
      ensures active == old(active) - {lease} && runLeases == Unindexed(old(runLeases), run, lease)
      ensures Indexed(active, runLeases) <==> (lease in old(active) ==> old(active)[lease].run == run)
    {
      CleanedIndex(active, runLeases, run, lease);
      active := active - {lease};
      if run in runLeases {
        var leases := runLeases[run] - {lease};
        if leases == {} {
          runLeases := runLeases - {run};
        } else {
          runLeases := runLeases[run := leases];
        }
      }
    }

    /** `StopRun` cancels the assignments of that run and no other; when `immediate`, it marks them first. */
    method StopRun(run: string, immediate: bool) returns (toStop: set<Assignment>)
      requires Indexed(active, runLeases)
      modifies this`cancelled, this`immediateStop
      ensures toStop == set l | l in active && active[l].run == run :: active[l]
      ensures cancelled == old(cancelled) + toStop
      ensures immediateStop == old(immediateStop) + if immediate then toStop else {}
    {
      toStop := Collect(run);
      if immediate {
        immediateStop := immediateStop + toStop;
      }
      cancelled := cancelled + toStop;
    }

    /** The part of `StopRun` under the read lock. */
    method Collect(run: string) returns (toStop: set<Assignment>)
      requires Indexed(active, runLeases)
      ensures toStop == set l | l in active && active[l].run == run :: active[l]
    {
      toStop := {};
      if run !in runLeases {
        return;
      }
      var leases := runLeases[run];
      var todo := leases;
      while todo != {}
        invariant todo <= leases
        invariant toStop == set l | l in leases && l !in todo && l in active :: active[l]
        decreases todo
      {
        var lease :| lease in todo;
        if lease in active {
          toStop := toStop + {active[lease]};
        }
        todo := todo - {lease};
      }
    }
  }

  // ---------------------------------------------------------------------------
  // The protocol between the server and one worker

  /**
   `pending` and `delivered` are the worker's entries on the server, `replies` and
   `acks` what is on the wire, `todo` and `started` the worker's poll loop, `active`
   its lease map and `running` the goroutines. The rest is history.
   */
  datatype World = World(
    pending: seq<Assignment>, delivered: seq<Delivered>,
    replies: seq<seq<Assignment>>, acks: seq<set<string>>,
    todo: seq<Assignment>, started: seq<Assignment>,
    active: set<string>, running: multiset<string>,
    launched: seq<string>, added: multiset<Assignment>, acked: multiset<Assignment>, dropped: multiset<Assignment>)

  const NOTHING := World([], [], [], [], [], [], {}, multiset{}, [], multiset{}, multiset{}, multiset{})

  datatype Step =
    | Add(a: Assignment)
    | Poll(now: int)
    | Fetch(i: nat)              // the worker gets a reply; one never fetched is lost
    | ExecuteNext
    | SendAck
    | Finish(lease: string)      // a goroutine ends and cleans up
    | ReceiveAck(i: nat)         // late, repeated or never
    | Requeue(now: int, timeout: int)

  predicate Enabled(w: World, st: Step) {
    match st
    case Fetch(i) => i < |w.replies| && w.todo == [] && w.started == []
    case ExecuteNext => w.todo != []
    case SendAck => w.todo == [] && w.started != []
    case Finish(lease) => lease in w.running
    case ReceiveAck(i) => i < |w.acks|
    case Requeue(_, timeout) => timeout > 0
    case _ => true
  }

  function Bodies(ds: seq<Delivered>): seq<Assignment> {
    seq(|ds|, i requires 0 <= i < |ds| => ds[i].assignment)
  }

  function Next(limit: nat, w: World, st: Step): World
    requires limit > 0 && Enabled(w, st)
  {
    match st
    case Add(a) =>
      w.(pending := Added(limit, w.pending, a), added := w.added + multiset{a},
         dropped := w.dropped + multiset(w.pending[..Excess(limit, w.pending)]))
    case Poll(now) =>
      w.(pending := [], delivered := w.delivered + Stamp(w.pending, now), replies := w.replies + [w.pending])
    case Fetch(i) =>
      w.(todo := w.replies[i], replies := w.replies[..i] + w.replies[i + 1..])
    case ExecuteNext =>
      var a := w.todo[0];
      var v := w.(todo := w.todo[1..]);
      (match Executed(w.active, a)
       case InvalidRange => v
       case AlreadyRunning => v.(started := w.started + [a])
       case Launched =>
         v.(started := w.started + [a], active := w.active + {a.lease},
            running := w.running + multiset{a.lease}, launched := w.launched + [a.lease]))
    case SendAck =>
      w.(started := [], acks := w.acks + [set a | a in w.started && a.lease != "" :: a.lease])
    case Finish(lease) =>
      w.(running := w.running - multiset{lease}, active := w.active - {lease})
    case ReceiveAck(i) =>
      w.(delivered := Unacked(w.delivered, w.acks[i]),
         acked := w.acked + multiset(Bodies(Acked(w.delivered, w.acks[i]))))
    case Requeue(now, timeout) =>
      var s := SweepAll(limit, Sweep(w.pending, [], [], 0), w.delivered, now, timeout);
      w.(pending := s.queue, delivered := s.kept, dropped := w.dropped + multiset(s.dropped))
  }

  ghost predicate Run(limit: nat, w: World, steps: seq<Step>, v: World)
    requires limit > 0
    decreases |steps|
  {
    if steps == [] then w == v
    else Enabled(w, steps[0]) && Run(limit, Next(limit, w, steps[0]), steps[1..], v)
  }

  /** Every assignment ever added is pending, delivered, acknowledged or dropped, and only one of these. */
  ghost predicate Conserved(w: World) {
    w.added == multiset(w.pending) + multiset(Bodies(w.delivered)) + w.acked + w.dropped
  }

  /** The lease map mirrors the goroutines, of which there is one per lease. */
  ghost predicate OneEach(w: World) {
    (forall l :: w.running[l] <= 1) && (forall l :: l in w.active <==> l in w.running)
  }

  /** Acknowledgements, sent or counted, are for leases the worker launched. */
  ghost predicate OnlyLaunched(w: World) {
    && (forall l <- w.active :: l in w.launched)
    && (forall a <- w.started :: a.lease in w.launched)
    && (forall m <- w.acks :: forall l <- m :: l in w.launched)
    && (forall a <- w.acked :: a.lease in w.launched)
  }

  ghost predicate Inv(w: World) { Conserved(w) && OneEach(w) && OnlyLaunched(w) }

  lemma BodiesAppend(a: seq<Delivered>, b: seq<Delivered>)
    ensures Bodies(a + b) == Bodies(a) + Bodies(b)
  {
  }

  lemma {:induction false} AckConserves(ds: seq<Delivered>, leases: set<string>)
    ensures multiset(Bodies(Acked(ds, leases))) + multiset(Bodies(Unacked(ds, leases))) == multiset(Bodies(ds))
    ensures forall a <- Bodies(Acked(ds, leases)) :: a.lease in leases
  {
    if ds != [] {
      AckConserves(ds[1..], leases);
      AckedFirst(ds, leases);
    }
  }

  lemma AckedFirst(ds: seq<Delivered>, leases: set<string>)
    requires ds != []
    ensures multiset(Bodies(ds)) == multiset{ds[0].assignment} + multiset(Bodies(ds[1..]))
    ensures var a, u, x := Bodies(Acked(ds[1..], leases)), Bodies(Unacked(ds[1..], leases)), ds[0].assignment;
            if x.lease in leases then Bodies(Acked(ds, leases)) == [x] + a && Bodies(Unacked(ds, leases)) == u
            else Bodies(Acked(ds, leases)) == a && Bodies(Unacked(ds, leases)) == [x] + u
  {
    var a, u := Acked(ds[1..], leases), Unacked(ds[1..], leases);
    assert ds == [ds[0]] + ds[1..];
    BodiesFirst(ds[0], ds[1..]);
    BodiesFirst(ds[0], a);
    BodiesFirst(ds[0], u);
    assert [] + a == a && [] + u == u;
  }

  lemma BodiesFirst(d: Delivered, ds: seq<Delivered>)
    ensures Bodies([d] + ds) == [d.assignment] + Bodies(ds)
    ensures multiset(Bodies([d] + ds)) == multiset{d.assignment} + multiset(Bodies(ds))
  {
    assert Bodies([d] + ds) == [d.assignment] + Bodies(ds);
  }

  function Held(s: Sweep): multiset<Assignment> {
    multiset(s.queue) + multiset(Bodies(s.kept)) + multiset(s.dropped)
  }

  lemma SweepOneConserves(limit: nat, s: Sweep, d: Delivered, now: int, timeout: int)
    requires limit > 0
    ensures Held(SweepOne(limit, s, d, now, timeout)) == Held(s) + multiset{d.assignment}
  {
    var k := Excess(limit, s.queue);
    assert s.queue == s.queue[..k] + s.queue[k..];
    BodiesAppend(s.kept, [d]);
    assert Bodies([d]) == [d.assignment];
  }

  lemma {:induction false} SweepConserves(limit: nat, s: Sweep, ds: seq<Delivered>, now: int, timeout: int)
    requires limit > 0
    ensures Held(SweepAll(limit, s, ds, now, timeout)) == Held(s) + multiset(Bodies(ds))
    decreases |ds|
  {
    if ds != [] {
      SweepOneConserves(limit, s, ds[0], now, timeout);
      SweepConserves(limit, SweepOne(limit, s, ds[0], now, timeout), ds[1..], now, timeout);
      assert ds == [ds[0]] + ds[1..];
      BodiesAppend([ds[0]], ds[1..]);
      assert Bodies([ds[0]]) == [ds[0].assignment];
    }
  }

  lemma PollConserves(limit: nat, w: World, now: int)
    requires limit > 0 && Conserved(w)
    ensures Conserved(Next(limit, w, Poll(now)))
  {
    BodiesAppend(w.delivered, Stamp(w.pending, now));
    assert Bodies(Stamp(w.pending, now)) == w.pending;
  }

  lemma RequeueConserves(limit: nat, w: World, now: int, timeout: int)
    requires limit > 0 && timeout > 0 && Conserved(w)
    ensures Conserved(Next(limit, w, Requeue(now, timeout)))
  {
    var s := Sweep(w.pending, [], [], 0);
    SweepConserves(limit, s, w.delivered, now, timeout);
    assert Held(s) == multiset(w.pending);
  }

  lemma StepConserves(limit: nat, w: World, st: Step)
    requires limit > 0 && Enabled(w, st) && Conserved(w)
    ensures Conserved(Next(limit, w, st))
  {
    match st
    case Add(a) =>
      var k := Excess(limit, w.pending);
      assert w.pending == w.pending[..k] + w.pending[k..];
    case Poll(now) => PollConserves(limit, w, now);
    case ReceiveAck(i) => AckConserves(w.delivered, w.acks[i]);
    case Requeue(now, timeout) => RequeueConserves(limit, w, now, timeout);
    case _ =>
  }

  lemma StepOnlyLaunched(limit: nat, w: World, st: Step)
    requires limit > 0 && Enabled(w, st) && OnlyLaunched(w)
    ensures OnlyLaunched(Next(limit, w, st))
  {
    if st.ReceiveAck? {
      AckConserves(w.delivered, w.acks[st.i]);
      assert w.acks[st.i] in w.acks;
    }
  }

  lemma StepOneEach(limit: nat, w: World, st: Step)
    requires limit > 0 && Enabled(w, st) && OneEach(w)
    ensures OneEach(Next(limit, w, st))
  {
  }

  lemma {:induction false} RunKeepsInv(limit: nat, w: World, steps: seq<Step>, v: World)
    requires limit > 0 && Inv(w) && Run(limit, w, steps, v)
    ensures Inv(v)
    decreases |steps|
  {
    if steps != [] {
      StepConserves(limit, w, steps[0]);
      StepOneEach(limit, w, steps[0]);
      StepOnlyLaunched(limit, w, steps[0]);
      RunKeepsInv(limit, Next(limit, w, steps[0]), steps[1..], v);
    }
  }

  lemma {:induction false} RunKeepsBound(limit: nat, w: World, steps: seq<Step>, v: World)
    requires limit > 0 && |w.pending| <= limit && Run(limit, w, steps, v)
    ensures |v.pending| <= limit
    decreases |steps|
  {
    if steps != [] {
      var st := steps[0];
      if st.Requeue? {
        QueueBounded(limit, Sweep(w.pending, [], [], 0), w.delivered, st.now, st.timeout);
      }
      RunKeepsBound(limit, Next(limit, w, st), steps[1..], v);
    }
  }

  lemma NothingInv()
    ensures Inv(NOTHING)
  {
    assert Bodies([]) == [];
  }

  /**
   Over every interleaving of adds, polls, executions, acknowledgements (lost, late
   or repeated) and requeues: assignments are conserved, nothing is acknowledged
   that was not launched, no lease has two goroutines at once, and the queue stays
   within its limit.
   */
  lemma ProtocolSafe(limit: nat, steps: seq<Step>, v: World)
    requires limit > 0 && Run(limit, NOTHING, steps, v)
    ensures v.added == multiset(v.pending) + multiset(Bodies(v.delivered)) + v.acked + v.dropped
    ensures forall lease :: v.running[lease] <= 1
    ensures forall a <- v.acked :: a.lease in v.launched
    ensures |v.pending| <= limit
  {
    NothingInv();
    RunKeepsInv(limit, NOTHING, steps, v);
    RunKeepsBound(limit, NOTHING, steps, v);
  }

  /** An add, and a requeue that requeues anything, leaves the queue within its limit. */
  lemma {:induction false} QueueBounded(limit: nat, s: Sweep, ds: seq<Delivered>, now: int, timeout: int)
    requires limit > 0
    ensures forall q, a :: |Added(limit, q, a)| <= limit
    ensures var r := SweepAll(limit, s, ds, now, timeout);
            r.queue == s.queue || |r.queue| <= limit
    decreases |ds|
  {
    if ds != [] {
      QueueBounded(limit, SweepOne(limit, s, ds[0], now, timeout), ds[1..], now, timeout);
    }
  }

  // ---------------------------------------------------------------------------
  // What a step does, told without the functions that do it

  /** The assignments of deliveries that have waited longer than the timeout, in order. */
  function Late(ds: seq<Delivered>, now: int, timeout: int): seq<Assignment> {
    if ds == [] then []
    else (if now - ds[0].deliveredAt > timeout then [ds[0].assignment] else []) + Late(ds[1..], now, timeout)
  }

  /** The deliveries that have not, in order. */
  function InTime(ds: seq<Delivered>, now: int, timeout: int): seq<Delivered> {
    if ds == [] then []
    else (if now - ds[0].deliveredAt > timeout then [] else [ds[0]]) + InTime(ds[1..], now, timeout)
  }

  lemma NewestTwice<T>(a: seq<T>, x: T, b: seq<T>, n: nat)
    requires |a| <= n
    ensures Newest(Newest(a + [x], n) + b, n) == Newest(a + ([x] + b), n)
  {
    Regrouped(a, x, b);
    var ax := a + [x];
    if |ax| > n {
      assert ax[|ax| - n..] + b == (ax + b)[|ax| - n..];
    }
  }

  lemma Regrouped<T>(a: seq<T>, x: T, b: seq<T>)
    ensures a + ([x] + b) == a + [x] + b
  {
  }

  /** What a sweep of a queue within its limit comes to. */
  ghost predicate SweptTo(limit: nat, s: Sweep, late: seq<Assignment>, early: seq<Delivered>, r: Sweep) {
    && r.queue == Newest(s.queue + late, limit) && r.kept == s.kept + early
    && r.count == s.count + |late| && |r.dropped| + |r.queue| == |s.dropped| + |s.queue| + |late|
  }

  lemma LateFirst(limit: nat, s: Sweep, t: Sweep, a: Assignment,
                  late: seq<Assignment>, early: seq<Delivered>, r: Sweep)
    requires |s.queue| <= limit && SweptTo(limit, s, [a], [], t) && SweptTo(limit, t, late, early, r)
    ensures SweptTo(limit, s, [a] + late, early, r)
  {
    NewestTwice(s.queue, a, late, limit);
  }

  lemma EarlyFirst(limit: nat, s: Sweep, d: Delivered, late: seq<Assignment>, early: seq<Delivered>, r: Sweep)
    requires SweptTo(limit, s.(kept := s.kept + [d]), late, early, r)
    ensures SweptTo(limit, s, late, [d] + early, r)
  {
    Regrouped(s.kept, d, early);
  }

  lemma SweepOneLate(limit: nat, s: Sweep, d: Delivered, now: int, timeout: int)
    requires limit > 0 && |s.queue| <= limit && now - d.deliveredAt > timeout
    ensures SweptTo(limit, s, [d.assignment], [], SweepOne(limit, s, d, now, timeout))
  {
    AddKeepsNewest(limit, s.queue, d.assignment);
  }

  /**
   A sweep of a queue within its limit: what is late joins the queue, of which the
   newest stay; what falls off is what comes before them; the rest stays delivered.
   */
  lemma {:induction false} SweepExact(limit: nat, s: Sweep, ds: seq<Delivered>, now: int, timeout: int)
    requires limit > 0 && |s.queue| <= limit
    ensures SweptTo(limit, s, Late(ds, now, timeout), InTime(ds, now, timeout), SweepAll(limit, s, ds, now, timeout))
    decreases |ds|
  {
    if ds != [] {
      var t := SweepOne(limit, s, ds[0], now, timeout);
      var late, early := Late(ds[1..], now, timeout), InTime(ds[1..], now, timeout);
      if now - ds[0].deliveredAt > timeout {
        SweepOneLate(limit, s, ds[0], now, timeout);
        SweepExact(limit, t, ds[1..], now, timeout);
        LateFirst(limit, s, t, ds[0].assignment, late, early, SweepAll(limit, s, ds, now, timeout));
      } else {
        SweepExact(limit, t, ds[1..], now, timeout);
        EarlyFirst(limit, s, ds[0], late, early, SweepAll(limit, s, ds, now, timeout));
      }
    }
  }

  /**
   Over every run: an add, or a requeue, drops exactly as many of the oldest as are
   more than the limit, so none while there is room.
   */
  lemma DropsOnlyOverLimit(limit: nat, steps: seq<Step>, w: World, st: Step)
    requires limit > 0 && Run(limit, NOTHING, steps, w) && Enabled(w, st)
    ensures var v := Next(limit, w, st);
            var come := match st case Add(a) => [a]
                                 case Requeue(now, timeout) => Late(w.delivered, now, timeout)
                                 case _ => [];
            && (st.Add? || st.Requeue? ==> v.pending == Newest(w.pending + come, limit))
            && |v.dropped| == |w.dropped| + (if |w.pending| + |come| <= limit then 0 else |w.pending| + |come| - limit)
            && (st.Requeue? ==> v.delivered == InTime(w.delivered, st.now, st.timeout))
  {
    RunKeepsBound(limit, NOTHING, steps, w);
    match st
    case Add(a) => AddKeepsNewest(limit, w.pending, a);
    case Requeue(now, timeout) => SweepExact(limit, Sweep(w.pending, [], [], 0), w.delivered, now, timeout);
    case _ =>
  }

  lemma {:induction false} StampedLate(q: seq<Assignment>, at: int, now: int, timeout: int)
    ensures Late(Stamp(q, at), now, timeout) == if now - at > timeout then q else []
    ensures InTime(Stamp(q, at), now, timeout) == if now - at > timeout then [] else Stamp(q, at)
    decreases |q|
  {
    if q != [] {
      assert Stamp(q, at)[1..] == Stamp(q[1..], at);
      StampedLate(q[1..], at, now, timeout);
    }
  }

  /** Delivered at one time and swept at another: all come back, in order, exactly when the timeout has passed. */
  lemma RequeueUndoesPoll(limit: nat, w: World, at: int, now: int, timeout: int)
    requires limit > 0 && |w.pending| <= limit && w.delivered == [] && timeout > 0
    ensures var v := Next(limit, Next(limit, w, Poll(at)), Requeue(now, timeout));
            if now - at > timeout then v.pending == w.pending && v.delivered == []
            else v.pending == [] && v.delivered == Stamp(w.pending, at)
  {
    var u := Next(limit, w, Poll(at));
    assert u.delivered == Stamp(w.pending, at);
    SweepExact(limit, Sweep([], [], [], 0), u.delivered, now, timeout);
    StampedLate(w.pending, at, now, timeout);
    assert [] + w.pending == w.pending;
  }

  /** The worker launches an assignment exactly when its lease is not active and its range is not empty. */
  lemma LaunchesIff(limit: nat, w: World)
    requires limit > 0 && w.todo != []
    ensures var a, v := w.todo[0], Next(limit, w, ExecuteNext);
            && (v.launched == w.launched + [a.lease] <==> a.lease !in w.active && a.vuStart < a.vuEnd)
            && (a in v.started[|w.started|..] <==> a.lease in w.active || a.vuStart < a.vuEnd)
  {
    var a, v := w.todo[0], Next(limit, w, ExecuteNext);
    assert |w.launched + [a.lease]| != |w.launched|;
    assert (w.started + [a])[|w.started|..] == [a] && w.started[|w.started|..] == [];
  }

  // ---------------------------------------------------------------------------
  // At most once at a time, but not at most once

  lemma {:induction false} RunThen(limit: nat, w: World, a: seq<Step>, v: World, b: seq<Step>, u: World)
    requires limit > 0 && Run(limit, w, a, v) && Run(limit, v, b, u)
    ensures Run(limit, w, a + b, u)
    decreases |a|
  {
    if a == [] {
      assert a + b == b;
    } else {
      assert (a + b)[0] == a[0] && (a + b)[1..] == a[1..] + b;
      RunThen(limit, Next(limit, w, a[0]), a[1..], v, b, u);
    }
  }

  ghost predicate Reaches(limit: nat, w: World, v: World)
    requires limit > 0
  {
    exists steps :: Run(limit, w, steps, v)
  }

  lemma ReachesOne(limit: nat, w: World, st: Step, v: World)
    requires limit > 0 && Enabled(w, st) && v == Next(limit, w, st)
    ensures Reaches(limit, w, v)
  {
    assert [st][1..] == [];
    assert Run(limit, w, [st], v);
  }

  lemma ReachesThen(limit: nat, w: World, v: World, u: World)
    requires limit > 0 && Reaches(limit, w, v) && Reaches(limit, v, u)
    ensures Reaches(limit, w, u)
  {
    var a :| Run(limit, w, a, v);
    var b :| Run(limit, v, b, u);
    RunThen(limit, w, a, v, b, u);
  }

  /** With one assignment pending and the lease idle, three steps launch it. */
  lemma PollLaunches(limit: nat, w: World, a: Assignment, now: int) returns (v: World)
    requires limit > 0 && a.vuStart < a.vuEnd && w.pending == [a] && a.lease !in w.active
    requires w.replies == [] && w.todo == [] && w.started == []
    ensures Reaches(limit, w, v)
    ensures v == w.(pending := [], delivered := w.delivered + [Delivered(a, now)], started := [a],
                    active := w.active + {a.lease}, running := w.running + multiset{a.lease},
                    launched := w.launched + [a.lease])
  {
    var w1 := Next(limit, w, Poll(now));
    assert w1.replies == [[a]] && Stamp([a], now) == [Delivered(a, now)];
    var w2 := Next(limit, w1, Fetch(0));
    assert w2.todo == [a] && w2.replies == [];
    v := Next(limit, w2, ExecuteNext);
    ReachesOne(limit, w, Poll(now), w1);
    ReachesOne(limit, w1, Fetch(0), w2);
    ReachesOne(limit, w2, ExecuteNext, v);
    ReachesThen(limit, w, w1, w2);
    ReachesThen(limit, w, w2, v);
  }

  /** The lease ends, its acknowledgement is sent and lost, and the timeout requeues it. */
  lemma LostAckRequeues(limit: nat, w: World, a: Assignment) returns (v: World)
    requires limit > 0 && w.pending == [] && w.todo == [] && w.started == [a] && w.delivered == [Delivered(a, 0)]
    requires a.lease in w.running
    ensures Reaches(limit, w, v)
    ensures v.pending == [a] && v.delivered == [] && a.lease !in v.active && v.todo == v.started == []
    ensures v.replies == w.replies && v.launched == w.launched
  {
    var w1 := Next(limit, w, Finish(a.lease));
    var w2 := Next(limit, w1, SendAck);
    v := Next(limit, w2, Requeue(61, 60));
    SweepExpired(limit, a);
    ReachesOne(limit, w, Finish(a.lease), w1);
    ReachesOne(limit, w1, SendAck, w2);
    ReachesOne(limit, w2, Requeue(61, 60), v);
    ReachesThen(limit, w, w1, w2);
    ReachesThen(limit, w, w2, v);
  }

  lemma SweepExpired(limit: nat, a: Assignment)
    requires limit > 0
    ensures SweepAll(limit, Sweep([], [], [], 0), [Delivered(a, 0)], 61, 60) == Sweep([a], [], [], 1)
  {
    var s := Sweep([], [], [], 0);
    assert SweepOne(limit, s, Delivered(a, 0), 61, 60) == Sweep([a], [], [], 1);
    assert [Delivered(a, 0)][1..] == [];
  }

  /** Delivered and launched, finished, the acknowledgement lost, requeued, delivered and launched again. */
  lemma LostAckRerunsLease(limit: nat, a: Assignment) returns (v: World)
    requires limit > 0 && a.vuStart < a.vuEnd
    ensures Reaches(limit, NOTHING, v) && v.launched == [a.lease, a.lease]
  {
    var w1 := Next(limit, NOTHING, Add(a));
    assert w1.pending == [a];
    ReachesOne(limit, NOTHING, Add(a), w1);
    var w2 := PollLaunches(limit, w1, a, 0);
    ReachesThen(limit, NOTHING, w1, w2);
    var w3 := LostAckRequeues(limit, w2, a);
    ReachesThen(limit, NOTHING, w2, w3);
    v := PollLaunches(limit, w3, a, 61);
    ReachesThen(limit, NOTHING, w3, v);
  }

  // ---------------------------------------------------------------------------
  // How often a lease can be launched

  /** How many assignments have the lease. */
  function Of(lease: string, q: seq<Assignment>): nat {
    if q == [] then 0 else Of(lease, q[..|q| - 1]) + if q[|q| - 1].lease == lease then 1 else 0
  }

  function OfAll(lease: string, replies: seq<seq<Assignment>>): nat {
    if replies == [] then 0 else OfAll(lease, replies[..|replies| - 1]) + Of(lease, replies[|replies| - 1])
  }

  function Times(lease: string, launched: seq<string>): nat { multiset(launched)[lease] }

  lemma {:induction false} OfJoin(lease: string, a: seq<Assignment>, b: seq<Assignment>)
    ensures Of(lease, a + b) == Of(lease, a) + Of(lease, b)
    decreases |b|
  {
    if b == [] {
      assert a + b == a;
    } else {
      assert (a + b)[..|a + b| - 1] == a + b[..|b| - 1];
      OfJoin(lease, a, b[..|b| - 1]);
    }
  }

  lemma OfSnoc(lease: string, q: seq<Assignment>, a: Assignment)
    ensures Of(lease, q + [a]) == Of(lease, q) + if a.lease == lease then 1 else 0
  {
    assert (q + [a])[..|q|] == q;
  }

  lemma OfSplit(lease: string, q: seq<Assignment>, k: nat)
    requires k <= |q|
    ensures Of(lease, q) == Of(lease, q[..k]) + Of(lease, q[k..])
  {
    assert q == q[..k] + q[k..];
    OfJoin(lease, q[..k], q[k..]);
  }

  lemma {:induction false} OfAllJoin(lease: string, a: seq<seq<Assignment>>, b: seq<seq<Assignment>>)
    ensures OfAll(lease, a + b) == OfAll(lease, a) + OfAll(lease, b)
    decreases |b|
  {
    if b == [] {
      assert a + b == a;
    } else {
      assert (a + b)[..|a + b| - 1] == a + b[..|b| - 1];
      OfAllJoin(lease, a, b[..|b| - 1]);
    }
  }

  lemma OfAllWithout(lease: string, replies: seq<seq<Assignment>>, i: nat)
    requires i < |replies|
    ensures OfAll(lease, replies[..i] + replies[i + 1..]) + Of(lease, replies[i]) == OfAll(lease, replies)
  {
    OfAllJoin(lease, replies[..i], replies[i + 1..]);
    assert replies == replies[..i] + ([replies[i]] + replies[i + 1..]);
    OfAllJoin(lease, replies[..i], [replies[i]] + replies[i + 1..]);
    OfAllJoin(lease, [replies[i]], replies[i + 1..]);
    assert [replies[i]][..0] == [];
  }

  /** Launches of the lease, past and still possible without another add or requeue. */
  function Potential(w: World, lease: string): nat {
    Times(lease, w.launched) + Of(lease, w.todo) + OfAll(lease, w.replies) + Of(lease, w.pending)
  }

  /** How often a step puts the lease into the queue: by an add, or by requeueing expired deliveries. */
  function Supplied(limit: nat, w: World, st: Step, lease: string): int
    requires limit > 0
  {
    match st
    case Add(a) => if a.lease == lease then 1 else 0
    case Requeue(now, timeout) =>
      Of(lease, Bodies(w.delivered)) -
      Of(lease, Bodies(SweepAll(limit, Sweep(w.pending, [], [], 0), w.delivered, now, timeout).kept))
    case _ => 0
  }

  function SuppliedBy(limit: nat, w: World, steps: seq<Step>, lease: string): int
    requires limit > 0
    decreases |steps|
  {
    if steps == [] || !Enabled(w, steps[0]) then 0
    else Supplied(limit, w, steps[0], lease) + SuppliedBy(limit, Next(limit, w, steps[0]), steps[1..], lease)
  }

  lemma AddedSupplies(limit: nat, q: seq<Assignment>, a: Assignment, lease: string)
    requires limit > 0
    ensures Of(lease, Added(limit, q, a)) <= Of(lease, q) + if a.lease == lease then 1 else 0
  {
    var k := Excess(limit, q);
    OfSplit(lease, q, k);
    OfSnoc(lease, q[k..], a);
  }

  lemma BodiesCons(d: Delivered, ds: seq<Delivered>)
    ensures Bodies([d] + ds) == [d.assignment] + Bodies(ds) && Bodies(ds + [d]) == Bodies(ds) + [d.assignment]
  {
  }

  lemma SweptOne(limit: nat, s: Sweep, d: Delivered, now: int, timeout: int, lease: string)
    requires limit > 0
    ensures var r := SweepOne(limit, s, d, now, timeout);
            Of(lease, r.queue) + Of(lease, Bodies(r.kept)) <=
            Of(lease, s.queue) + Of(lease, Bodies(s.kept)) + Of(lease, [d.assignment])
  {
    AddedSupplies(limit, s.queue, d.assignment, lease);
    BodiesCons(d, s.kept);
    OfSnoc(lease, Bodies(s.kept), d.assignment);
    OfSnoc(lease, [], d.assignment);
    assert [] + [d.assignment] == [d.assignment];
  }

  lemma {:induction false} SweepSupplies(
      limit: nat, s: Sweep, ds: seq<Delivered>, now: int, timeout: int, lease: string)
    requires limit > 0
    ensures var r := SweepAll(limit, s, ds, now, timeout);
            Of(lease, r.queue) + Of(lease, Bodies(r.kept)) <=
            Of(lease, s.queue) + Of(lease, Bodies(s.kept)) + Of(lease, Bodies(ds))
    decreases |ds|
  {
    if ds != [] {
      SweptOne(limit, s, ds[0], now, timeout, lease);
      SweepSupplies(limit, SweepOne(limit, s, ds[0], now, timeout), ds[1..], now, timeout, lease);
      assert ds == [ds[0]] + ds[1..];
      BodiesCons(ds[0], ds[1..]);
      OfJoin(lease, [ds[0].assignment], Bodies(ds[1..]));
    }
  }

  /** A step raises the potential of a lease by no more than what it puts into the queue. */
  lemma StepSupplies(limit: nat, w: World, st: Step, lease: string)
    requires limit > 0 && Enabled(w, st)
    ensures Potential(Next(limit, w, st), lease) <= Potential(w, lease) + Supplied(limit, w, st, lease)
  {
    match st
    case Add(a) => AddedSupplies(limit, w.pending, a, lease);
    case Poll(now) =>
      OfAllJoin(lease, w.replies, [w.pending]);
      assert [w.pending][..0] == [];
    case Fetch(i) => OfAllWithout(lease, w.replies, i);
    case ExecuteNext => ExecuteSupplies(limit, w, lease);
    case Requeue(now, timeout) =>
      SweepSupplies(limit, Sweep(w.pending, [], [], 0), w.delivered, now, timeout, lease);
      assert Bodies([]) == [];
    case _ =>
  }

  lemma ExecuteSupplies(limit: nat, w: World, lease: string)
    requires limit > 0 && w.todo != []
    ensures Potential(Next(limit, w, ExecuteNext), lease) <= Potential(w, lease)
  {
    OfSplit(lease, w.todo, 1);
    assert w.todo[..1][..0] == [];
    assert Of(lease, w.todo[..1]) == if w.todo[0].lease == lease then 1 else 0;
  }

  lemma {:induction false} RunSupplies(limit: nat, w: World, steps: seq<Step>, v: World, lease: string)
    requires limit > 0 && Run(limit, w, steps, v)
    ensures Potential(v, lease) <= Potential(w, lease) + SuppliedBy(limit, w, steps, lease)
    decreases |steps|
  {
    if steps != [] {
      StepSupplies(limit, w, steps[0], lease);
      RunSupplies(limit, Next(limit, w, steps[0]), steps[1..], v, lease);
    }
  }

  /** A lease is launched at most once for each time it is added and each time it is requeued. */
  lemma LaunchesBounded(limit: nat, steps: seq<Step>, v: World, lease: string)
    requires limit > 0 && Run(limit, NOTHING, steps, v)
    ensures Times(lease, v.launched) <= SuppliedBy(limit, NOTHING, steps, lease)
  {
    RunSupplies(limit, NOTHING, steps, v, lease);
  }

  function Adds(steps: seq<Step>, lease: string): nat {
    if steps == [] then 0
    else (if steps[0].Add? && steps[0].a.lease == lease then 1 else 0) + Adds(steps[1..], lease)
  }

  lemma {:induction false} OnlyAddsSupply(limit: nat, w: World, steps: seq<Step>, v: World, lease: string)
    requires limit > 0 && Run(limit, w, steps, v) && forall st <- steps :: !st.Requeue?
    ensures SuppliedBy(limit, w, steps, lease) == Adds(steps, lease)
    decreases |steps|
  {
    if steps != [] {
      assert steps[0] in steps && forall st <- steps[1..] :: st in steps;
      OnlyAddsSupply(limit, Next(limit, w, steps[0]), steps[1..], v, lease);
    }
  }

  /** Without requeueing, at most once it is: a lease added once is launched once at most. */
  lemma OnceUnlessRequeued(limit: nat, steps: seq<Step>, v: World, lease: string)
    requires limit > 0 && Run(limit, NOTHING, steps, v) && forall st <- steps :: !st.Requeue?
    ensures Times(lease, v.launched) <= Adds(steps, lease)
  {
    LaunchesBounded(limit, steps, v, lease);
    OnlyAddsSupply(limit, NOTHING, steps, v, lease);
  }
}
