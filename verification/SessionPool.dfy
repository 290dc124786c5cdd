/**
 The bounded session pool, its evictor, and the borrowers of pool mode. Each
 section under the pool's mutex is one step; the evictor marks a session under
 the session's own lock and removes it under the pool's, as two steps; `closed`
 is read before the mutex is taken, again as a step of its own. Whether a
 session's time is up is an input, so no ordering of clocks is assumed.
 */
module SessionPool {
  import opened Sequences

  datatype SessionState = Active | Idle | Expired | Closed

  /** `dead` are the sessions whose connection has been closed. */
  datatype Pool = Pool(
    maxSize: nat, idle: seq<nat>, inUse: set<nat>, pending: nat, closed: bool, drained: bool,
    states: map<nat, SessionState>, dead: set<nat>)

  function StateOf(p: Pool, s: nat): SessionState { if s in p.states then p.states[s] else Active }

  predicate Unusable(p: Pool, s: nat, expired: set<nat>) { s in expired || StateOf(p, s) == Closed }

  /** How many sessions at the head of the idle list `Acquire` throws away. */
  function Skipped(p: Pool, expired: set<nat>, from: nat): (k: nat)
    requires from <= |p.idle|
    ensures from <= k <= |p.idle|
    ensures k < |p.idle| ==> !Unusable(p, p.idle[k], expired)
    ensures forall i :: from <= i < k ==> Unusable(p, p.idle[i], expired)
    decreases |p.idle| - from
  {
    if from == |p.idle| || !Unusable(p, p.idle[from], expired) then from else Skipped(p, expired, from + 1)
  }

  function Elements(s: seq<nat>): set<nat> { set x | x in s }

  lemma SkipOne(idle: seq<nat>, n: nat)
    requires n < |idle|
    ensures idle[n..][0] == idle[n] && idle[n..][1..] == idle[n + 1..]
    ensures Elements(idle[..n + 1]) == Elements(idle[..n]) + {idle[n]}
  {
    assert idle[..n + 1] == idle[..n] + [idle[n]];
  }

  datatype Outcome = Got(session: nat) | Reserved | MustWait

  function Acquired(p: Pool, expired: set<nat>): Outcome {
    var k := Skipped(p, expired, 0);
    if k < |p.idle| then Got(p.idle[k])
    else if |p.inUse| + p.pending < p.maxSize then Reserved
    else MustWait
  }

  /** The pool after one pass of the loop in `Acquire`. */
  function AfterAcquire(p: Pool, expired: set<nat>): Pool {
    var k := Skipped(p, expired, 0);
    var q := p.(dead := p.dead + Elements(p.idle[..k]));
    match Acquired(p, expired)
    case Got(s) => q.(idle := p.idle[k + 1..], inUse := p.inUse + {s}, states := p.states[s := Active])
    case Reserved => q.(idle := [], pending := p.pending + 1)
    case MustWait => q.(idle := [])
  }

  function Dec(n: nat): nat { if n > 0 then n - 1 else 0 }

  function AfterAdd(p: Pool, s: nat): Pool { p.(pending := Dec(p.pending), inUse := p.inUse + {s}) }

  function AfterCancel(p: Pool): Pool { p.(pending := Dec(p.pending)) }

  predicate GivenUp(p: Pool, s: nat, expired: bool) {
    expired || StateOf(p, s) == Closed || StateOf(p, s) == Expired
  }

  function AfterRelease(p: Pool, s: nat, expired: bool): Pool {
    var q := p.(inUse := p.inUse - {s});
    if GivenUp(p, s, expired) then q.(dead := p.dead + {s})
    else q.(idle := p.idle + [s], states := p.states[s := Idle])
  }

  function AfterRemove(p: Pool, s: nat): Pool {
    p.(inUse := p.inUse - {s}, idle := Without(p.idle, s), dead := p.dead + {s})
  }

  /** `removeSession`, the evictor's callback: a session in use is left to its borrower. */
  function AfterEviction(p: Pool, s: nat): Pool {
    if s in p.inUse then p else p.(idle := Without(p.idle, s), dead := p.dead + {s})
  }

  function Closing(states: map<nat, SessionState>, all: set<nat>): map<nat, SessionState> {
    map s | s in states.Keys + all :: if s in all then Closed else states[s]
  }

  lemma ClosingMore(states: map<nat, SessionState>, done: set<nat>, s: nat)
    ensures Closing(states, done)[s := Closed] == Closing(states, done + {s})
  {
  }

  lemma ClosingBoth(states: map<nat, SessionState>, a: set<nat>, b: set<nat>)
    ensures Closing(Closing(states, a), b) == Closing(states, a + b)
  {
  }

  function AfterClose(p: Pool): Pool {
    var all := Elements(p.idle) + p.inUse;
    p.(drained := true, idle := [], inUse := {}, dead := p.dead + all, states := Closing(p.states, all))
  }

  // ---------------------------------------------------------------------------
  // The pool itself; the fields of its sessions are kept in maps

  class Sessions {
    const maxSize: nat
    var sessions: seq<nat>
    var inUse: set<nat>
    var pendingCreates: nat
    var closed: bool
    var drained: bool
    var states: map<nat, SessionState>
    var dead: set<nat>

    ghost function Abs(): Pool
      reads this
    {
      Pool(maxSize, sessions, inUse, pendingCreates, closed, drained, states, dead)
    }

    constructor (maxSize: nat)
      ensures Abs() == Empty(maxSize)
    {
      this.maxSize := maxSize;
      sessions, inUse, pendingCreates, closed, drained, states, dead := [], {}, 0, false, false, map[], {};
    }

    /** The loop of `Acquire` as far as the first session that can be used. */
    method SkipUnusable(expired: set<nat>)
      modifies this`sessions, this`dead
      ensures var k := Skipped(old(Abs()), expired, 0);
              sessions == old(sessions)[k..] && dead == old(dead) + Elements(old(sessions)[..k])
    {
      ghost var p, n := Abs(), 0;
      while |sessions| > 0 && (sessions[0] in expired || (sessions[0] in states && states[sessions[0]] == Closed))
        invariant n <= |p.idle| && sessions == p.idle[n..] && dead == p.dead + Elements(p.idle[..n])
        invariant Skipped(p, expired, 0) == Skipped(p, expired, n)
        decreases |sessions|
      {
        SkipOne(p.idle, n);
        dead := dead + {sessions[0]};
        sessions := sessions[1..];
        n := n + 1;
      }
    }

    /** One pass of `Acquire` with the mutex held. */
    method Acquire(expired: set<nat>) returns (r: Outcome)
      modifies this
      ensures Abs() == AfterAcquire(old(Abs()), expired) && r == Acquired(old(Abs()), expired)
    {
      SkipUnusable(expired);
      if |sessions| > 0 {
        var session := sessions[0];
        sessions := sessions[1..];
        states := states[session := Active];
        inUse := inUse + {session};
        return Got(session);
      }
      if |sessions| + |inUse| + pendingCreates < maxSize {
        pendingCreates := pendingCreates + 1;
        return Reserved;
      }
      return MustWait;
    }

    /** `Acquire` from the start: the test of `closed` with the mutex held, then a pass. */
    method AcquireUnlessClosed(expired: set<nat>) returns (refused: bool, r: Outcome)
      modifies this
      ensures refused == old(closed)
      ensures refused ==> Abs() == old(Abs())
      ensures !refused ==> Abs() == AfterAcquire(old(Abs()), expired) && r == Acquired(old(Abs()), expired)
    {
      if closed {
        return true, MustWait;
      }
      r := Acquire(expired);
      refused := false;
    }

    /** The locked section of `Add`. */
    method Add(session: nat)
      modifies this
      ensures Abs() == AfterAdd(old(Abs()), session)
    {
      if pendingCreates > 0 {
        pendingCreates := pendingCreates - 1;
      }
      inUse := inUse + {session};
    }

    method CancelReservation()
      modifies this
      ensures Abs() == AfterCancel(old(Abs()))
    {
      if pendingCreates > 0 {
        pendingCreates := pendingCreates - 1;
      }
    }

    /** The locked section of `Release`. */
    method Release(session: nat, expired: bool)
      modifies this
      ensures Abs() == AfterRelease(old(Abs()), session, expired)
    {
      inUse := inUse - {session};
      if expired || (session in states && (states[session] == Closed || states[session] == Expired)) {
        dead := dead + {session};
        return;
      }
      states := states[session := Idle];
      sessions := sessions + [session];
    }

    /** The loop of `Remove` and `removeSession` over the idle list. */
    method Unlist(session: nat)
      modifies this`sessions
      ensures sessions == Without(old(sessions), session)
    {
      EndsOf(sessions);
      for i := 0 to |sessions|
        invariant sessions == old(sessions)
        invariant Without(sessions, session) == sessions[..i] + Without(sessions[i..], session)
      {
        WithoutAt(sessions, i, session);
        Shift(sessions, i, Without(sessions[i + 1..], session));
        if sessions[i] == session {
          sessions := sessions[..i] + sessions[i + 1..];
          return;
        }
      }
    }

    method Remove(session: nat)
      modifies this
      ensures Abs() == AfterRemove(old(Abs()), session)
    {
      inUse := inUse - {session};
      Unlist(session);
      dead := dead + {session};
    }

    method CloseSession(session: nat)
      modifies this`states, this`dead
      ensures states == old(states)[session := Closed] && dead == old(dead) + {session}
    {
      states := states[session := Closed];
      dead := dead + {session};
    }

    /** The locked section of `Close`. */
    method CloseAll()
      modifies this
      ensures Abs() == AfterClose(old(Abs()))
    {
      CloseIdle();
      CloseInUse();
      ClosingBoth(old(states), Elements(sessions), inUse);
      sessions, inUse, drained := [], {}, true;
    }

    method CloseIdle()
      modifies this`states, this`dead
      ensures states == Closing(old(states), Elements(sessions)) && dead == old(dead) + Elements(sessions)
    {
      assert Closing(states, {}) == states;
      for i := 0 to |sessions|
        invariant states == Closing(old(states), Elements(sessions[..i])) && dead == old(dead) + Elements(sessions[..i])
      {
        assert Elements(sessions[..i + 1]) == Elements(sessions[..i]) + {sessions[i]};
        ClosingMore(old(states), Elements(sessions[..i]), sessions[i]);
        CloseSession(sessions[i]);
      }
      assert sessions[..|sessions|] == sessions;
    }

    method CloseInUse()
      modifies this`states, this`dead
      ensures states == Closing(old(states), inUse) && dead == old(dead) + inUse
    {
      assert Closing(states, {}) == states;
      var todo := inUse;
      while todo != {}
        invariant todo <= inUse
        invariant states == Closing(old(states), inUse - todo) && dead == old(dead) + (inUse - todo)
        decreases todo
      {
        var session :| session in todo;
        assert inUse - (todo - {session}) == inUse - todo + {session};
        ClosingMore(old(states), inUse - todo, session);
        CloseSession(session);
        todo := todo - {session};
      }
    }

    method RemoveSession(session: nat)
      modifies this
      ensures Abs() == AfterEviction(old(Abs()), session)
    {
      if session in inUse {
        return;
      }
      Unlist(session);
      dead := dead + {session};
    }
  }

  function Empty(maxSize: nat): Pool { Pool(maxSize, [], {}, 0, false, false, map[], {}) }

  // ---------------------------------------------------------------------------
  // Borrowers, creators and the evictor around the pool

  /**
   `waiting` are the borrowers in `cond.Wait`; `holders` says which session each
   borrower holds; `returning` are the borrowers
   between the `closed` test of `Release` and its locked section; `reserved` are
   creating a session; `adding` hold one and are about to lock in `Add`;
   `evicting` are marked and not yet removed.
   */
  datatype World = World(
    p: Pool, waiting: set<nat>, holders: map<nat, nat>, returning: set<nat>, reserved: set<nat>, adding: map<nat, nat>,
    evicting: set<nat>, next: nat)

  datatype Step =
    | Acquire(b: nat, expired: set<nat>)   // after the closed test
    | Wake(b: nat, expired: set<nat>)      // from cond.Wait, with no closed test
    | GiveUp(b: nat)                       // a waiter whose context is done
    | CreateFails(b: nat)
    | Created(b: nat)                      // and Add's closed test
    | AddLocked(b: nat)
    | ReleaseTest(b: nat)                  // Release's closed test
    | ReleaseLocked(b: nat, late: bool)
    | Invalidate(b: nat)
    | Mark(s: nat)                         // the evictor, under the session's lock
    | Evict(s: nat)                        // its callback, under the pool's
    | CloseFlag
    | CloseLocked

  /** The borrower has no session and is not about to get one. */
  predicate EmptyHanded(w: World, b: nat) { b !in w.holders && b !in w.reserved && b !in w.adding }

  predicate Enabled(w: World, st: Step) {
    match st
    case Acquire(b, _) => EmptyHanded(w, b) && b !in w.waiting && !w.p.drained
    case Wake(b, _) => b in w.waiting
    case GiveUp(b) => b in w.waiting
    case CreateFails(b) => b in w.reserved
    case Created(b) => b in w.reserved
    case AddLocked(b) => b in w.adding
    case ReleaseTest(b) => b in w.holders && b !in w.returning
    case ReleaseLocked(b, _) => b in w.holders && b in w.returning
    case Invalidate(b) => b in w.holders && b !in w.returning
    case Mark(s) => s < w.next && StateOf(w.p, s) == Idle
    case Evict(s) => s in w.evicting
    case CloseFlag => true
    case CloseLocked => w.p.closed && !w.p.drained
  }

  function Attempt(w: World, b: nat, expired: set<nat>): World {
    var v := w.(p := AfterAcquire(w.p, expired));
    match Acquired(w.p, expired)
    case Got(s) => v.(holders := w.holders[b := s], waiting := w.waiting - {b})
    case Reserved => v.(reserved := w.reserved + {b}, waiting := w.waiting - {b})
    case MustWait => v.(waiting := w.waiting + {b})
  }

  function Next(w: World, st: Step): World
    requires Enabled(w, st)
  {
    match st
    case Acquire(b, expired) => Attempt(w, b, expired)
    case Wake(b, expired) => Attempt(w, b, expired)
    case GiveUp(b) => w.(waiting := w.waiting - {b})
    case CreateFails(b) => w.(p := AfterCancel(w.p), reserved := w.reserved - {b})
    case Created(b) =>
      var v := w.(reserved := w.reserved - {b}, next := w.next + 1);
      if w.p.closed then v.(p := w.p.(dead := w.p.dead + {w.next}), holders := w.holders[b := w.next])
      else v.(adding := w.adding[b := w.next])
    case AddLocked(b) =>
      w.(p := AfterAdd(w.p, w.adding[b]), holders := w.holders[b := w.adding[b]], adding := w.adding - {b})
    case ReleaseTest(b) =>
      if w.p.closed then w.(p := w.p.(dead := w.p.dead + {w.holders[b]}), holders := w.holders - {b})
      else w.(returning := w.returning + {b})
    case ReleaseLocked(b, late) =>
      w.(p := AfterRelease(w.p, w.holders[b], late), holders := w.holders - {b}, returning := w.returning - {b})
    case Invalidate(b) => w.(p := AfterRemove(w.p, w.holders[b]), holders := w.holders - {b})
    case Mark(s) => w.(p := w.p.(states := w.p.states[s := Expired]), evicting := w.evicting + {s})
    case Evict(s) => w.(p := AfterEviction(w.p, s), evicting := w.evicting - {s})
    case CloseFlag => w.(p := w.p.(closed := true))
    case CloseLocked => w.(p := AfterClose(w.p))
  }

  ghost predicate Run(w: World, steps: seq<Step>, v: World)
    decreases |steps|
  {
    if steps == [] then w == v
    else Enabled(w, steps[0]) && Run(Next(w, steps[0]), steps[1..], v)
  }

  // ---------------------------------------------------------------------------
  // The invariant

  ghost predicate Injective(m: map<nat, nat>) {
    forall b, c :: b in m && c in m && b != c ==> m[b] != m[c]
  }

  /** The bound; no session twice in the idle list; nothing idle once the pool is drained. */
  ghost predicate SizesOk(w: World) {
    && |w.p.idle| + |w.p.inUse| + w.p.pending <= w.p.maxSize
    && |w.reserved| + |w.adding| <= w.p.pending
    && Distinct(w.p.idle) && (w.p.drained ==> w.p.closed && w.p.idle == [])
  }

  ghost predicate Placed(w: World, s: nat) {
    s in w.p.idle || s in w.p.inUse || s in w.p.dead || s in w.holders.Values || s in w.adding.Values ||
    s in w.p.states || s in w.evicting
  }

  /** A session that is idle, or just created, is nowhere else, and its connection is open. */
  ghost predicate PlaceOk(w: World, s: nat) {
    && (s in w.p.idle ==> s !in w.p.inUse && s !in w.p.dead && s !in w.holders.Values && s !in w.adding.Values)
    && (s in w.adding.Values ==> s !in w.p.inUse && s !in w.p.dead && s !in w.holders.Values &&
                                 StateOf(w.p, s) == Active && s !in w.evicting)
    && (Placed(w, s) ==> s < w.next) && (StateOf(w.p, s) == Closed ==> w.p.drained)
  }

  /** A held session is in use with its connection open, or the pool has been closed over it. */
  ghost predicate HeldOk(w: World, b: nat) {
    b in w.holders ==>
      var s := w.holders[b];
      && (s in w.p.inUse ==> s !in w.p.dead)
      && (s in w.p.inUse || StateOf(w.p, s) == Closed || (w.p.closed && b !in w.returning))
      && (w.p.drained && b in w.returning ==> StateOf(w.p, s) == Closed)
  }

  /** A borrower is creating, adding or holding, one at a time, and holds a session of its own. */
  ghost predicate PhasesOk(w: World) {
    && Injective(w.holders) && Injective(w.adding) && w.returning <= w.holders.Keys
    && (forall b <- w.waiting :: EmptyHanded(w, b))
    && w.reserved !! w.holders.Keys && w.reserved !! w.adding.Keys && w.adding.Keys !! w.holders.Keys
  }

  ghost predicate Inv(w: World) {
    SizesOk(w) && (forall s :: PlaceOk(w, s)) && (forall b :: HeldOk(w, b)) && PhasesOk(w)
  }

  // ---------------------------------------------------------------------------
  // What each step keeps

  lemma ValuesAfterAdd(m: map<nat, nat>, b: nat, t: nat)
    requires b !in m && Injective(m) && t !in m.Values
    ensures forall s :: s in m[b := t].Values <==> s in m.Values || s == t
    ensures Injective(m[b := t])
  {
    var n := m[b := t];
    assert n[b] == t;
    forall s | s in m.Values ensures s in n.Values {
      var c :| c in m && m[c] == s;
      assert n[c] == s;
    }
    forall s | s in n.Values ensures s in m.Values || s == t {
      var c :| c in n && n[c] == s;
      assert c != b ==> m[c] == s;
    }
  }

  lemma ValuesAfterRemove(m: map<nat, nat>, b: nat)
    requires b in m && Injective(m)
    ensures forall s :: s in (m - {b}).Values <==> s in m.Values && s != m[b]
    ensures Injective(m - {b})
  {
    var n := m - {b};
    forall s | s in m.Values && s != m[b] ensures s in n.Values {
      var c :| c in m && m[c] == s;
      assert n[c] == s;
    }
    forall s | s in n.Values ensures s in m.Values && s != m[b] {
      var c :| c in n && n[c] == s;
      assert m[c] == s;
    }
  }

  lemma AcquireIdle(p: Pool, expired: set<nat>)
    requires Distinct(p.idle)
    ensures var q := AfterAcquire(p, expired); Distinct(q.idle) && forall s <- q.idle :: s in p.idle
  {
  }

  /** Every idle session thrown away leaves the idle list. */
  lemma SkippedLeave(idle: seq<nat>, k: nat, s: nat)
    requires Distinct(idle) && k <= |idle| && s in Elements(idle[..k])
    ensures s in idle && s !in idle[k..] && (k < |idle| ==> s !in idle[k + 1..] && s != idle[k])
  {
    var i :| 0 <= i < k && idle[i] == s;
  }

  lemma AcquireDead(p: Pool, expired: set<nat>)
    requires Distinct(p.idle)
    ensures var q := AfterAcquire(p, expired); forall s <- q.dead :: s in p.dead || (s in p.idle && s !in q.idle)
  {
    var k := Skipped(p, expired, 0);
    forall s | s in Elements(p.idle[..k]) ensures s in p.idle && s !in AfterAcquire(p, expired).idle {
      SkippedLeave(p.idle, k, s);
    }
  }

  lemma AcquireGot(p: Pool, expired: set<nat>)
    requires Distinct(p.idle) && Acquired(p, expired).Got?
    ensures var q, s := AfterAcquire(p, expired), Acquired(p, expired).session;
            s in p.idle && s !in q.idle && (s in q.dead ==> s in p.dead) && |q.idle| < |p.idle|
  {
    var k := Skipped(p, expired, 0);
    if p.idle[k] in Elements(p.idle[..k]) {
      SkippedLeave(p.idle, k, p.idle[k]);
    }
  }

  lemma AcquireFacts(p: Pool, expired: set<nat>)
    requires Distinct(p.idle)
    ensures var q := AfterAcquire(p, expired);
            && Distinct(q.idle)
            && (forall s <- q.idle :: s in p.idle)
            && (forall s <- q.dead :: s in p.dead || (s in p.idle && s !in q.idle))
            && (Acquired(p, expired).Got? ==>
                  var s := Acquired(p, expired).session;
                  s in p.idle && s !in q.idle && (s in q.dead ==> s in p.dead) && |q.idle| < |p.idle|)
  {
    AcquireIdle(p, expired);
    AcquireDead(p, expired);
    if Acquired(p, expired).Got? {
      AcquireGot(p, expired);
    }
  }

  lemma GotKeepsPhases(w: World, b: nat, expired: set<nat>)
    requires Inv(w) && EmptyHanded(w, b) && Acquired(w.p, expired).Got?
    ensures PhasesOk(Attempt(w, b, expired))
  {
    var t := Acquired(w.p, expired).session;
    AcquireGot(w.p, expired);
    assert PlaceOk(w, t);
    ValuesAfterAdd(w.holders, b, t);
  }

  lemma AttemptKeepsPhases(w: World, b: nat, expired: set<nat>)
    requires Inv(w) && EmptyHanded(w, b)
    ensures PhasesOk(Attempt(w, b, expired))
  {
    match Acquired(w.p, expired)
    case Got(_) => GotKeepsPhases(w, b, expired);
    case Reserved =>
    case MustWait =>
  }

  lemma AttemptKeepsPlace(w: World, b: nat, expired: set<nat>, s: nat)
    requires Inv(w) && EmptyHanded(w, b)
    ensures PlaceOk(Attempt(w, b, expired), s)
  {
    assert PlaceOk(w, s);
    AcquireFacts(w.p, expired);
    if Acquired(w.p, expired).Got? {
      var t := Acquired(w.p, expired).session;
      assert PlaceOk(w, t);
      ValuesAfterAdd(w.holders, b, t);
    }
  }

  lemma AttemptKeepsHolder(w: World, b: nat, expired: set<nat>, c: nat)
    requires Inv(w) && EmptyHanded(w, b)
    ensures HeldOk(Attempt(w, b, expired), c)
  {
    assert HeldOk(w, c);
    AcquireFacts(w.p, expired);
    if c in w.holders {
      assert w.holders[c] in w.holders.Values && PlaceOk(w, w.holders[c]);
    } else if Acquired(w.p, expired).Got? {
      assert PlaceOk(w, Acquired(w.p, expired).session);
    }
  }

  lemma AttemptKeepsSizes(w: World, b: nat, expired: set<nat>)
    requires SizesOk(w)
    ensures SizesOk(Attempt(w, b, expired))
  {
    AcquireFacts(w.p, expired);
  }

  lemma StepKeepsPhases(w: World, st: Step)
    requires Inv(w) && Enabled(w, st)
    ensures PhasesOk(Next(w, st))
  {
    match st
    case Acquire(b, expired) => AttemptKeepsPhases(w, b, expired);
    case Wake(b, expired) => AttemptKeepsPhases(w, b, expired);
    case Created(b) =>
      assert PlaceOk(w, w.next);
      if w.p.closed {
        ValuesAfterAdd(w.holders, b, w.next);
      } else {
        ValuesAfterAdd(w.adding, b, w.next);
      }
    case AddLocked(b) =>
      assert w.adding[b] in w.adding.Values && PlaceOk(w, w.adding[b]);
      ValuesAfterAdd(w.holders, b, w.adding[b]);
      ValuesAfterRemove(w.adding, b);
    case ReleaseTest(b) => ValuesAfterRemove(w.holders, b);
    case ReleaseLocked(b, _) => ValuesAfterRemove(w.holders, b);
    case Invalidate(b) => ValuesAfterRemove(w.holders, b);
    case _ =>
  }

  lemma CreatedKeepsPlace(w: World, b: nat, s: nat)
    requires Inv(w) && b in w.reserved
    ensures PlaceOk(Next(w, Created(b)), s)
  {
    assert PlaceOk(w, s) && PlaceOk(w, w.next);
    if w.p.closed {
      ValuesAfterAdd(w.holders, b, w.next);
    } else {
      ValuesAfterAdd(w.adding, b, w.next);
    }
  }

  lemma AddKeepsPlace(w: World, b: nat, s: nat)
    requires Inv(w) && b in w.adding
    ensures PlaceOk(Next(w, AddLocked(b)), s)
  {
    assert PlaceOk(w, s);
    assert w.adding[b] in w.adding.Values && PlaceOk(w, w.adding[b]);
    ValuesAfterAdd(w.holders, b, w.adding[b]);
    ValuesAfterRemove(w.adding, b);
  }

  lemma ReleaseKeepsPlace(w: World, st: Step, s: nat)
    requires Inv(w) && Enabled(w, st) && (st.ReleaseTest? || st.ReleaseLocked? || st.Invalidate?)
    ensures PlaceOk(Next(w, st), s)
  {
    assert PlaceOk(w, s) && HeldOk(w, st.b);
    assert w.holders[st.b] in w.holders.Values && PlaceOk(w, w.holders[st.b]);
    ValuesAfterRemove(w.holders, st.b);
    WithoutFacts(w.p.idle, w.holders[st.b]);
  }

  lemma EvictKeepsPlace(w: World, t: nat, s: nat)
    requires Inv(w) && t in w.evicting
    ensures PlaceOk(Next(w, Evict(t)), s)
  {
    assert PlaceOk(w, s) && PlaceOk(w, t);
    WithoutFacts(w.p.idle, t);
  }

  lemma StepKeepsPlaces(w: World, st: Step, s: nat)
    requires Inv(w) && Enabled(w, st)
    ensures PlaceOk(Next(w, st), s)
  {
    match st
    case Acquire(b, expired) => AttemptKeepsPlace(w, b, expired, s);
    case Wake(b, expired) => AttemptKeepsPlace(w, b, expired, s);
    case Created(b) => CreatedKeepsPlace(w, b, s);
    case AddLocked(b) => AddKeepsPlace(w, b, s);
    case ReleaseTest(b) => ReleaseKeepsPlace(w, st, s);
    case ReleaseLocked(b, _) => ReleaseKeepsPlace(w, st, s);
    case Invalidate(b) => ReleaseKeepsPlace(w, st, s);
    case Evict(t) => EvictKeepsPlace(w, t, s);
    case _ => assert PlaceOk(w, s);
  }

  lemma StepKeepsHeld(w: World, st: Step, c: nat)
    requires Inv(w) && Enabled(w, st)
    ensures HeldOk(Next(w, st), c)
  {
    assert HeldOk(w, c);
    if c in w.holders {
      assert w.holders[c] in w.holders.Values && PlaceOk(w, w.holders[c]);
    }
    match st
    case Acquire(b, expired) => AttemptKeepsHolder(w, b, expired, c);
    case Wake(b, expired) => AttemptKeepsHolder(w, b, expired, c);
    case Created(b) => assert PlaceOk(w, w.next);
    case AddLocked(b) => assert w.adding[b] in w.adding.Values && PlaceOk(w, w.adding[b]);
    case _ =>
  }

  lemma AddKeepsSizes(w: World, b: nat)
    requires SizesOk(w) && b in w.adding
    ensures SizesOk(Next(w, AddLocked(b)))
  {
    assert (w.adding - {b}).Keys == w.adding.Keys - {b};
    assert |w.adding| == |w.adding.Keys| && |w.adding - {b}| == |(w.adding - {b}).Keys|;
  }

  lemma CreatedKeepsSizes(w: World, b: nat)
    requires SizesOk(w) && b in w.reserved && b !in w.adding
    ensures SizesOk(Next(w, Created(b)))
  {
    assert |w.reserved - {b}| == |w.reserved| - 1;
    assert |w.adding[b := w.next]| == |w.adding| + 1;
  }

  lemma ReleaseKeepsSizes(w: World, b: nat, late: bool)
    requires SizesOk(w) && b in w.holders && b in w.returning && HeldOk(w, b) && w.holders[b] !in w.p.idle
    ensures SizesOk(Next(w, ReleaseLocked(b, late)))
  {
    var s := w.holders[b];
    if !GivenUp(w.p, s, late) {
      assert |w.p.inUse - {s}| == |w.p.inUse| - 1;
    } else {
      assert |w.p.inUse - {s}| <= |w.p.inUse|;
    }
  }

  lemma RemovalKeepsSizes(w: World, s: nat)
    requires SizesOk(w)
    ensures SizesOk(w.(p := AfterRemove(w.p, s))) && SizesOk(w.(p := AfterEviction(w.p, s)))
  {
    WithoutFacts(w.p.idle, s);
    assert |w.p.inUse - {s}| <= |w.p.inUse|;
  }

  lemma StepKeepsSizes(w: World, st: Step)
    requires Inv(w) && Enabled(w, st)
    ensures SizesOk(Next(w, st))
  {
    match st
    case Acquire(b, expired) => AttemptKeepsSizes(w, b, expired);
    case Wake(b, expired) => AttemptKeepsSizes(w, b, expired);
    case AddLocked(b) => AddKeepsSizes(w, b);
    case Created(b) => CreatedKeepsSizes(w, b);
    case ReleaseLocked(b, late) =>
      assert HeldOk(w, b) && w.holders[b] in w.holders.Values && PlaceOk(w, w.holders[b]);
      ReleaseKeepsSizes(w, b, late);
    case Invalidate(b) => RemovalKeepsSizes(w, w.holders[b]);
    case Evict(t) => RemovalKeepsSizes(w, t);
    case CreateFails(b) => assert |w.reserved - {b}| == |w.reserved| - 1;
    case _ =>
  }

  lemma StepKeepsInv(w: World, st: Step)
    requires Inv(w) && Enabled(w, st)
    ensures Inv(Next(w, st))
  {
    StepKeepsPhases(w, st);
    StepKeepsSizes(w, st);
    forall s ensures PlaceOk(Next(w, st), s) {
      StepKeepsPlaces(w, st, s);
    }
    forall b ensures HeldOk(Next(w, st), b) {
      StepKeepsHeld(w, st, b);
    }
  }

  lemma StepKeepsLimit(w: World, st: Step)
    requires Enabled(w, st)
    ensures Next(w, st).p.maxSize == w.p.maxSize
  {
  }

  lemma {:induction false} RunKeepsInv(w: World, steps: seq<Step>, v: World)
    requires Inv(w) && Run(w, steps, v)
    ensures Inv(v) && v.p.maxSize == w.p.maxSize
    decreases |steps|
  {
    if steps != [] {
      StepKeepsInv(w, steps[0]);
      StepKeepsLimit(w, steps[0]);
      RunKeepsInv(Next(w, steps[0]), steps[1..], v);
    }
  }

  function Start(maxSize: nat): World { World(Empty(maxSize), {}, map[], {}, {}, map[], {}, 0) }

  lemma StartInv(maxSize: nat)
    ensures Inv(Start(maxSize))
  {
  }

  /**
   Over every interleaving of borrowers, creators, evictor and close: idle, in use
   and pending never exceed the limit together; no session has two borrowers or is
   idle while held; no session in the idle list has a closed connection, and none
   that is held, as long as the pool has not been closed.
   */
  lemma PoolSafe(maxSize: nat, steps: seq<Step>, v: World)
    requires Run(Start(maxSize), steps, v)
    ensures |v.p.idle| + |v.p.inUse| + v.p.pending <= maxSize
    ensures Distinct(v.p.idle) && Injective(v.holders) && forall b <- v.holders :: v.holders[b] !in v.p.idle
    ensures forall s <- v.p.idle :: s !in v.p.dead
    ensures v.p.drained ==> v.p.idle == []
    ensures !v.p.closed ==> forall b <- v.holders :: v.holders[b] !in v.p.dead
  {
    StartInv(maxSize);
    RunKeepsInv(Start(maxSize), steps, v);
    forall b | b in v.holders && !v.p.closed ensures v.holders[b] !in v.p.dead {
      assert HeldOk(v, b) && PlaceOk(v, v.holders[b]);
    }
    forall b | b in v.holders ensures v.holders[b] !in v.p.idle {
      assert v.holders[b] in v.holders.Values && PlaceOk(v, v.holders[b]);
    }
    forall s | s in v.p.idle ensures s !in v.p.dead {
      assert PlaceOk(v, s);
    }
  }

  // ---------------------------------------------------------------------------
  // Closing over a waiter

  ghost predicate Reaches(w: World, v: World) { exists steps :: Run(w, steps, v) }

  lemma ReachesItself(w: World)
    ensures Reaches(w, w)
  {
    assert Run(w, [], w);
  }

  lemma {:induction false} RunSnoc(w: World, steps: seq<Step>, v: World, st: Step)
    requires Run(w, steps, v) && Enabled(v, st)
    ensures Run(w, steps + [st], Next(v, st))
    decreases |steps|
  {
    if steps == [] {
      assert ([] + [st])[1..] == [];
    } else {
      RunSnoc(Next(w, steps[0]), steps[1..], v, st);
      assert (steps + [st])[1..] == steps[1..] + [st];
    }
  }

  lemma ReachesNext(w: World, v: World, st: Step)
    requires Reaches(w, v) && Enabled(v, st)
    ensures Reaches(w, Next(v, st))
  {
    var steps :| Run(w, steps, v);
    RunSnoc(w, steps, v, st);
  }

  lemma ReachedInv(maxSize: nat, w: World)
    requires Reaches(Start(maxSize), w)
    ensures Inv(w) && w.p.maxSize == maxSize
  {
    StartInv(maxSize);
    var steps :| Run(Start(maxSize), steps, w);
    RunKeepsInv(Start(maxSize), steps, w);
  }

  /** An open pool with `k` sessions, all lent out, to borrowers numbered below `k`. */
  ghost predicate LentOut(maxSize: nat, w: World, k: nat) {
    && Reaches(Start(maxSize), w)
    && w.p.idle == [] && |w.p.inUse| == k && w.p.pending == 0 && !w.p.closed && !w.p.drained
    && w.waiting == {} && w.reserved == {} && w.adding == map[] && forall b <- w.holders :: b < k
  }

  lemma LendOne(maxSize: nat, w: World, k: nat) returns (v: World)
    requires k < maxSize && LentOut(maxSize, w, k)
    ensures LentOut(maxSize, v, k + 1)
  {
    ReachedInv(maxSize, w);
    assert Skipped(w.p, {}, 0) == 0;
    var w1 := Next(w, Acquire(k, {}));
    ReachesNext(Start(maxSize), w, Acquire(k, {}));
    v := Lend(maxSize, w1, k);
  }

  /** The borrower that has reserved creates its session and adds it. */
  lemma Lend(maxSize: nat, w: World, k: nat) returns (v: World)
    requires Reaches(Start(maxSize), w)
    requires w.p.idle == [] && |w.p.inUse| == k && w.p.pending == 1 && !w.p.closed && !w.p.drained
    requires w.waiting == {} && w.reserved == {k} && w.adding == map[] && forall b <- w.holders :: b < k
    ensures LentOut(maxSize, v, k + 1)
  {
    ReachedInv(maxSize, w);
    var w1 := Next(w, Created(k));
    ReachesNext(Start(maxSize), w, Created(k));
    v := Next(w1, AddLocked(k));
    ReachesNext(Start(maxSize), w1, AddLocked(k));
    assert PlaceOk(w, w.next);
    assert w.next !in w.p.inUse;
    assert v.adding == map[];
  }

  lemma {:induction false} LendAll(maxSize: nat, k: nat) returns (w: World)
    requires k <= maxSize
    ensures LentOut(maxSize, w, k)
  {
    if k == 0 {
      w := Start(maxSize);
      ReachesItself(w);
    } else {
      var v := LendAll(maxSize, k - 1);
      w := LendOne(maxSize, v, k - 1);
    }
  }

  /** A drained pool with a waiter and a place not reserved: woken, the waiter reserves and creates. */
  lemma WokenAfterClose(u: World, w: World, b: nat) returns (v: World)
    requires Reaches(u, w) && b in w.waiting && w.p.closed && w.p.idle == []
    requires |w.p.inUse| + w.p.pending < w.p.maxSize
    ensures Reaches(u, v) && b in v.holders && v.holders[b] in v.p.dead
  {
    assert Skipped(w.p, {}, 0) == 0;
    var w1 := Next(w, Wake(b, {}));
    ReachesNext(u, w, Wake(b, {}));
    v := Next(w1, Created(b));
    ReachesNext(u, w1, Created(b));
  }

  /** Closing an open pool leaves its waiters waiting. */
  lemma CloseOver(u: World, w: World) returns (v: World)
    requires Reaches(u, w) && !w.p.drained
    ensures Reaches(u, v) && v.waiting == w.waiting && v.p.closed && v.p.idle == [] && v.p.inUse == {}
    ensures v.p.pending == w.p.pending && v.p.maxSize == w.p.maxSize
  {
    var w1 := Next(w, CloseFlag);
    ReachesNext(u, w, CloseFlag);
    v := Next(w1, CloseLocked);
    ReachesNext(u, w1, CloseLocked);
  }

  /**
   In a pool of any size that is all lent out, one borrower more has to wait. A
   waiter woken by `Close` does not look at `closed` again: it reserves a place in
   the drained pool, creates a session, and is handed it without an error although
   `Add` has just closed its connection.
   */
  lemma WaiterGetsDeadSession(maxSize: nat) returns (w: World, v: World)
    requires maxSize > 0
    ensures Reaches(Start(maxSize), w) && Enabled(w, Acquire(maxSize, {}))
    ensures Acquired(w.p, {}) == MustWait && !w.p.closed
    ensures Reaches(Next(w, Acquire(maxSize, {})), v)
    ensures maxSize in v.holders && v.holders[maxSize] in v.p.dead
  {
    w := LendAll(maxSize, maxSize);
    ReachedInv(maxSize, w);
    assert Skipped(w.p, {}, 0) == 0;
    var u := Next(w, Acquire(maxSize, {}));
    ReachesItself(u);
    var closed := CloseOver(u, u);
    v := WokenAfterClose(u, closed, maxSize);
  }

  lemma GotIsLive(w: World, b: nat, expired: set<nat>)
    requires Inv(w) && EmptyHanded(w, b)
    ensures var v := Attempt(w, b, expired); b in v.holders ==> v.holders[b] !in v.p.dead
  {
    if Acquired(w.p, expired).Got? {
      AcquireGot(w.p, expired);
      assert PlaceOk(w, Acquired(w.p, expired).session);
    }
  }

  lemma AddedIsLive(w: World, b: nat)
    requires Inv(w) && b in w.adding
    ensures w.adding[b] !in w.p.dead
  {
    assert w.adding[b] in w.adding.Values && PlaceOk(w, w.adding[b]);
  }

  /**
   At every step of every run: a borrower comes to hold a closed connection exactly
   when it is handed a session it created in a pool that was closed by then. A
   session from the idle list and one added under the lock are always open.
   */
  lemma HandedDeadIff(maxSize: nat, steps: seq<Step>, w: World, st: Step, b: nat)
    requires Run(Start(maxSize), steps, w) && Enabled(w, st) && b !in w.holders
    ensures var v := Next(w, st);
            (b in v.holders && v.holders[b] in v.p.dead) <==> (st == Created(b) && w.p.closed)
  {
    StartInv(maxSize);
    RunKeepsInv(Start(maxSize), steps, w);
    match st
    case Acquire(c, expired) => GotIsLive(w, c, expired);
    case Wake(c, expired) => GotIsLive(w, c, expired);
    case AddLocked(c) => AddedIsLive(w, c);
    case _ =>
  }

  // ---------------------------------------------------------------------------
  // No connection is lost, and none is given up that could be used

  /** A session made is in the idle list, in use, held, being added, or has its connection closed. */
  ghost predicate Accounted(w: World, s: nat) {
    s < w.next ==>
      s in w.p.idle || s in w.p.inUse || s in w.p.dead || s in w.holders.Values || s in w.adding.Values
  }

  lemma AttemptAccounts(w: World, b: nat, expired: set<nat>, s: nat)
    requires Inv(w) && EmptyHanded(w, b) && Accounted(w, s)
    ensures Accounted(Attempt(w, b, expired), s)
  {
    var k, v := Skipped(w.p, expired, 0), Attempt(w, b, expired);
    if s in w.p.idle {
      var i :| 0 <= i < |w.p.idle| && w.p.idle[i] == s;
      assert i < k ==> s in Elements(w.p.idle[..k]);
      assert i > k ==> v.p.idle[i - k - 1] == s;
    } else if s in w.holders.Values {
      var c :| c in w.holders && w.holders[c] == s;
      assert c in v.holders && v.holders[c] == s;
    }
  }

  lemma HolderAccounts(w: World, v: World, b: nat, s: nat)
    requires PhasesOk(w) && b in w.holders && Accounted(w, s)
    requires v.holders == w.holders - {b} && v.adding == w.adding && v.next == w.next
    requires forall x :: x != w.holders[b] ==>
               && (x in w.p.idle ==> x in v.p.idle) && (x in w.p.inUse ==> x in v.p.inUse)
               && (x in w.p.dead ==> x in v.p.dead)
    requires w.holders[b] in v.p.idle || w.holders[b] in v.p.dead
    ensures Accounted(v, s)
  {
    ValuesAfterRemove(w.holders, b);
  }

  lemma AddAccounts(w: World, b: nat, s: nat)
    requires Inv(w) && b in w.adding && Accounted(w, s)
    ensures Accounted(Next(w, AddLocked(b)), s)
  {
    var v := Next(w, AddLocked(b));
    ValuesAfterRemove(w.adding, b);
    if s in w.holders.Values {
      var c :| c in w.holders && w.holders[c] == s;
      assert c in v.holders && v.holders[c] == s;
    }
  }

  lemma CreatedAccounts(w: World, b: nat, s: nat)
    requires Inv(w) && b in w.reserved && Accounted(w, s)
    ensures Accounted(Next(w, Created(b)), s)
  {
    var v := Next(w, Created(b));
    assert w.p.closed ==> v.holders[b] == w.next;
    assert !w.p.closed ==> v.adding[b] == w.next;
    if s in w.holders.Values {
      var c :| c in w.holders && w.holders[c] == s;
      assert c in v.holders && v.holders[c] == s;
    } else if s in w.adding.Values {
      var c :| c in w.adding && w.adding[c] == s;
      assert c in v.adding && v.adding[c] == s;
    }
  }

  lemma KeptWithout(idle: seq<nat>, t: nat)
    requires Distinct(idle)
    ensures forall s :: s != t && s in idle ==> s in Without(idle, t)
  {
    WithoutFacts(idle, t);
  }

  lemma StepAccounts(w: World, st: Step, s: nat)
    requires Inv(w) && Enabled(w, st) && Accounted(w, s)
    ensures Accounted(Next(w, st), s)
  {
    match st
    case Acquire(b, expired) => AttemptAccounts(w, b, expired, s);
    case Wake(b, expired) => AttemptAccounts(w, b, expired, s);
    case Created(b) => CreatedAccounts(w, b, s);
    case AddLocked(b) => AddAccounts(w, b, s);
    case ReleaseTest(b) =>
      if w.p.closed {
        HolderAccounts(w, Next(w, st), b, s);
      }
    case ReleaseLocked(b, _) => ReleaseAccounts(w, st, s);
    case Invalidate(b) =>
      KeptWithout(w.p.idle, w.holders[b]);
      HolderAccounts(w, Next(w, st), b, s);
    case Evict(t) => KeptWithout(w.p.idle, t);
    case _ =>
  }

  lemma ReleaseAccounts(w: World, st: Step, s: nat)
    requires Inv(w) && Enabled(w, st) && st.ReleaseLocked? && Accounted(w, s)
    ensures Accounted(Next(w, st), s)
  {
    var v := Next(w, st);
    assert !GivenUp(w.p, w.holders[st.b], st.late) ==> v.p.idle[|w.p.idle|] == w.holders[st.b];
    HolderAccounts(w, v, st.b, s);
  }

  lemma {:induction false} RunAccounts(w: World, steps: seq<Step>, v: World, s: nat)
    requires Inv(w) && Run(w, steps, v) && Accounted(w, s)
    ensures Accounted(v, s)
    decreases |steps|
  {
    if steps != [] {
      StepAccounts(w, steps[0], s);
      StepKeepsInv(w, steps[0]);
      RunAccounts(Next(w, steps[0]), steps[1..], v, s);
    }
  }

  /** Over every interleaving: no connection is open that is not idle, in use, held or about to be added. */
  lemma NoConnectionLost(maxSize: nat, steps: seq<Step>, v: World, s: nat)
    requires Run(Start(maxSize), steps, v) && s < v.next && s !in v.p.dead
    ensures s in v.p.idle || s in v.p.inUse || s in v.holders.Values || s in v.adding.Values
  {
    StartInv(maxSize);
    RunAccounts(Start(maxSize), steps, v, s);
  }

  /** A session given back goes to the end of the idle list, open, unless its time is up or it was marked. */
  lemma ReleasedComesBackIff(maxSize: nat, steps: seq<Step>, w: World, b: nat, late: bool)
    requires Run(Start(maxSize), steps, w) && Enabled(w, ReleaseLocked(b, late))
    ensures var s, v := w.holders[b], Next(w, ReleaseLocked(b, late));
            if late || StateOf(w.p, s) == Closed || StateOf(w.p, s) == Expired
            then v.p.idle == w.p.idle && s in v.p.dead
            else v.p.idle == w.p.idle + [s] && s !in v.p.dead && StateOf(v.p, s) == Idle
  {
    StartInv(maxSize);
    RunKeepsInv(Start(maxSize), steps, w);
    var s := w.holders[b];
    assert HeldOk(w, b) && PlaceOk(w, s);
    if !(late || StateOf(w.p, s) == Closed || StateOf(w.p, s) == Expired) {
      StepKeepsInv(w, ReleaseLocked(b, late));
      var v := Next(w, ReleaseLocked(b, late));
      assert v.p.idle[|w.p.idle|] == s && PlaceOk(v, s);
    }
  }

  /** The first idle session whose time is not up is at `k`. */
  ghost predicate FirstUsable(p: Pool, expired: set<nat>, k: nat) {
    k < |p.idle| && p.idle[k] !in expired && forall i :: 0 <= i < k ==> p.idle[i] in expired
  }

  lemma AcquiredIff(p: Pool, expired: set<nat>)
    requires forall i :: 0 <= i < |p.idle| ==> StateOf(p, p.idle[i]) != Closed
    ensures var k := Skipped(p, expired, 0);
            if exists s <- p.idle :: s !in expired
            then FirstUsable(p, expired, k) && Acquired(p, expired) == Got(p.idle[k])
            else !Acquired(p, expired).Got?
  {
  }

  /** An acquire is handed the first idle session whose time is not up, exactly when there is one. */
  lemma IdleIsReusedIff(maxSize: nat, steps: seq<Step>, w: World, b: nat, expired: set<nat>)
    requires Run(Start(maxSize), steps, w) && Enabled(w, Acquire(b, expired))
    ensures var v := Next(w, Acquire(b, expired));
            if exists s <- w.p.idle :: s !in expired
            then exists k: nat :: FirstUsable(w.p, expired, k) && b in v.holders && v.holders[b] == w.p.idle[k] &&
                             v.p.idle == w.p.idle[k + 1..] && v.p.pending == w.p.pending
            else b !in v.holders
  {
    StartInv(maxSize);
    RunKeepsInv(Start(maxSize), steps, w);
    forall i | 0 <= i < |w.p.idle| ensures StateOf(w.p, w.p.idle[i]) != Closed {
      assert PlaceOk(w, w.p.idle[i]);
    }
    AcquiredIff(w.p, expired);
  }

  /** While the pool is open, what is in use is what is held. */
  ghost predicate UseOk(w: World, s: nat) { !w.p.closed ==> (s in w.p.inUse <==> s in w.holders.Values) }

  /** While the pool is open, every reservation has a borrower at work on it. */
  ghost predicate PendingOk(w: World) { !w.p.closed ==> w.p.pending == |w.reserved| + |w.adding| }

  lemma AttemptKeepsUse(w: World, b: nat, expired: set<nat>, s: nat)
    requires Inv(w) && EmptyHanded(w, b) && UseOk(w, s)
    ensures UseOk(Attempt(w, b, expired), s)
  {
    if Acquired(w.p, expired).Got? {
      AcquireGot(w.p, expired);
      assert PlaceOk(w, Acquired(w.p, expired).session);
      ValuesAfterAdd(w.holders, b, Acquired(w.p, expired).session);
    }
  }

  lemma AddKeepsUse(w: World, b: nat, s: nat)
    requires Inv(w) && b in w.adding && UseOk(w, s)
    ensures UseOk(Next(w, AddLocked(b)), s)
  {
    assert w.adding[b] in w.adding.Values && PlaceOk(w, w.adding[b]);
    ValuesAfterAdd(w.holders, b, w.adding[b]);
  }

  lemma StepKeepsUse(w: World, st: Step, s: nat)
    requires Inv(w) && Enabled(w, st) && UseOk(w, s)
    ensures UseOk(Next(w, st), s)
  {
    match st
    case Acquire(b, expired) => AttemptKeepsUse(w, b, expired, s);
    case Wake(b, expired) => AttemptKeepsUse(w, b, expired, s);
    case AddLocked(b) => AddKeepsUse(w, b, s);
    case ReleaseLocked(b, _) => ValuesAfterRemove(w.holders, b);
    case Invalidate(b) => ValuesAfterRemove(w.holders, b);
    case _ =>
  }

  lemma SizeAfter(m: map<nat, nat>, b: nat, t: nat)
    ensures b !in m ==> |m[b := t]| == |m| + 1
    ensures b in m ==> |m - {b}| == |m| - 1
  {
    assert |m| == |m.Keys| && |m[b := t]| == |m[b := t].Keys| && |m - {b}| == |(m - {b}).Keys|;
    assert m[b := t].Keys == m.Keys + {b} && (m - {b}).Keys == m.Keys - {b};
  }

  lemma AttemptKeepsPending(w: World, b: nat, expired: set<nat>)
    requires PendingOk(w) && EmptyHanded(w, b)
    ensures PendingOk(Attempt(w, b, expired))
  {
  }

  lemma CreatedKeepsPending(w: World, b: nat)
    requires PendingOk(w) && PhasesOk(w) && b in w.reserved
    ensures PendingOk(Next(w, Created(b)))
  {
    SizeAfter(w.adding, b, w.next);
  }

  lemma AddKeepsPending(w: World, b: nat)
    requires PendingOk(w) && b in w.adding
    ensures PendingOk(Next(w, AddLocked(b)))
  {
    SizeAfter(w.adding, b, 0);
  }

  lemma CancelKeepsPending(w: World, b: nat)
    requires PendingOk(w) && b in w.reserved
    ensures PendingOk(Next(w, CreateFails(b)))
  {
  }

  lemma StepKeepsPending(w: World, st: Step)
    requires PhasesOk(w) && Enabled(w, st) && PendingOk(w)
    ensures PendingOk(Next(w, st))
  {
    match st
    case Acquire(b, expired) => AttemptKeepsPending(w, b, expired);
    case Wake(b, expired) => AttemptKeepsPending(w, b, expired);
    case Created(b) => CreatedKeepsPending(w, b);
    case AddLocked(b) => AddKeepsPending(w, b);
    case CreateFails(b) => CancelKeepsPending(w, b);
    case _ =>
  }

  lemma {:induction false} RunKeepsUse(w: World, steps: seq<Step>, v: World, s: nat)
    requires Inv(w) && Run(w, steps, v) && UseOk(w, s) && PendingOk(w)
    ensures UseOk(v, s) && PendingOk(v)
    decreases |steps|
  {
    if steps != [] {
      StepKeepsUse(w, steps[0], s);
      StepKeepsPending(w, steps[0]);
      StepKeepsInv(w, steps[0]);
      RunKeepsUse(Next(w, steps[0]), steps[1..], v, s);
    }
  }

  /** Over every interleaving, as long as the pool is open, no place in it is taken by nobody. */
  lemma OpenPoolExact(maxSize: nat, steps: seq<Step>, v: World)
    requires Run(Start(maxSize), steps, v) && !v.p.closed
    ensures forall s: nat :: s in v.p.inUse <==> s in v.holders.Values
    ensures v.p.pending == |v.reserved| + |v.adding|
  {
    StartInv(maxSize);
    RunKeepsUse(Start(maxSize), steps, v, 0);
    forall s ensures s in v.p.inUse <==> s in v.holders.Values {
      RunKeepsUse(Start(maxSize), steps, v, s);
    }
  }
}
