/**
 Reuse mode: one session per virtual user, kept in three maps under one mutex.
 Every section under that mutex, every section under a session's own lock and the
 test of `closed` is a step of its own, so acquires, invalidations, evictions and
 close interleave freely. Whether a session's time is up is an input.

 A session is an object, `num`, that carries the identifier `id`. Identifiers come
 from the server, so two objects may carry the same one; the theorems say where
 that matters.
 */
module ReuseMode {

  datatype SessionState = Active | Idle | Expired | Closed

  datatype Session = Session(num: nat, id: string)

  /** `timers` maps a virtual user to the session its timer watches; `dead` are the closed connections. */
  datatype Table = Table(
    sessions: map<nat, Session>, toVU: map<string, nat>, timers: map<nat, Session>,
    states: map<Session, SessionState>, dead: set<Session>)

  function StateOf(t: Table, s: Session): SessionState { if s in t.states then t.states[s] else Active }

  function AfterInsert(t: Table, vu: nat, s: Session): Table {
    if vu in t.sessions then t
    else t.(sessions := t.sessions[vu := s], toVU := t.toVU[s.id := vu], timers := t.timers[vu := s])
  }

  /** The entry found through the identifier of `s` is removed. */
  function Unlisted(t: Table, s: Session): Table {
    if s.id !in t.toVU then t
    else var vu := t.toVU[s.id];
         t.(sessions := t.sessions - {vu}, toVU := t.toVU - {s.id}, timers := t.timers - {vu})
  }

  function AfterInvalidate(t: Table, s: Session): Table {
    Unlisted(t, s).(states := t.states[s := Closed], dead := t.dead + {s})
  }

  function AfterEviction(t: Table, s: Session): Table { Unlisted(t, s).(dead := t.dead + {s}) }

  function Closing(states: map<Session, SessionState>, all: set<Session>): map<Session, SessionState> {
    map s | s in states.Keys + all :: if s in all then Closed else states[s]
  }

  lemma ClosingMore(states: map<Session, SessionState>, done: set<Session>, s: Session)
    ensures Closing(states, done)[s := Closed] == Closing(states, done + {s})
  {
  }

  function AfterClose(t: Table): Table {
    Table(map[], map[], map[], Closing(t.states, t.sessions.Values), t.dead + t.sessions.Values)
  }

  const EMPTY: Table := Table(map[], map[], map[], map[], {})

  // ---------------------------------------------------------------------------
  // The mode itself; the fields of its sessions are kept in maps

  class Mode {
    var sessions: map<nat, Session>
    var sessionToVU: map<string, nat>
    var timers: map<nat, Session>
    var states: map<Session, SessionState>
    var dead: set<Session>

    ghost function Abs(): Table
      reads this
    {
      Table(sessions, sessionToVU, timers, states, dead)
    }

    constructor ()
      ensures Abs() == EMPTY
    {
      sessions, sessionToVU, timers, states, dead := map[], map[], map[], map[], {};
    }

    /** The locked section of `Acquire`: the new session, unless another acquire was first. */
    method Insert(vu: nat, session: Session) returns (kept: Session)
      modifies this
      ensures Abs() == AfterInsert(old(Abs()), vu, session) && vu in sessions && kept == sessions[vu]
    {
      if vu in sessions {
        return sessions[vu];
      }
      sessions := sessions[vu := session];
      sessionToVU := sessionToVU[session.id := vu];
      timers := timers[vu := session];
      return session;
    }

    method Unlist(session: Session)
      modifies this`sessions, this`sessionToVU, this`timers
      ensures Abs() == Unlisted(old(Abs()), session)
    {
      if session.id in sessionToVU {
        var vu := sessionToVU[session.id];
        sessions := sessions - {vu};
        sessionToVU := sessionToVU - {session.id};
        timers := timers - {vu};
      }
    }

    method Invalidate(session: Session)
      modifies this
      ensures Abs() == AfterInvalidate(old(Abs()), session)
    {
      Unlist(session);
      states := states[session := Closed];
      dead := dead + {session};
    }

    method OnEviction(session: Session)
      modifies this
      ensures Abs() == AfterEviction(old(Abs()), session)
    {
      Unlist(session);
      dead := dead + {session};
    }

    /** The locked section of `Close`. */
    method CloseAll()
      modifies this
      ensures Abs() == AfterClose(old(Abs()))
    {
      timers := map[];
      var todo := sessions.Values;
      assert Closing(states, {}) == states;
      while todo != {}
        invariant todo <= sessions.Values && sessions == old(sessions) && timers == map[]
        invariant states == Closing(old(states), sessions.Values - todo)
        invariant dead == old(dead) + (sessions.Values - todo)
        decreases todo
      {
        var session :| session in todo;
        ClosingMore(old(states), sessions.Values - todo, session);
        assert sessions.Values - (todo - {session}) == sessions.Values - todo + {session};
        states := states[session := Closed];
        dead := dead + {session};
        todo := todo - {session};
      }
      sessions, sessionToVU := map[], map[];
    }
  }

  // ---------------------------------------------------------------------------
  // The maps

  /** The two maps are inverse to each other, and every entry has the timer of its own session. */
  ghost predicate Linked(t: Table) {
    && (forall vu <- t.sessions :: t.sessions[vu].id in t.toVU && t.toVU[t.sessions[vu].id] == vu)
    && (forall id <- t.toVU :: t.toVU[id] in t.sessions && t.sessions[t.toVU[id]].id == id)
    && t.timers == t.sessions
  }

  predicate Listed(t: Table, s: Session) {
    s.id in t.toVU && t.toVU[s.id] in t.sessions && t.sessions[t.toVU[s.id]] == s
  }

  lemma ListedIffValue(t: Table, s: Session)
    requires Linked(t)
    ensures Listed(t, s) <==> s in t.sessions.Values
  {
    if s in t.sessions.Values {
      var vu :| vu in t.sessions && t.sessions[vu] == s;
    }
  }

  /** A new entry keeps the maps inverse exactly when its identifier is not in the table already. */
  lemma InsertKeepsLinksIff(t: Table, vu: nat, s: Session)
    requires Linked(t) && vu !in t.sessions
    ensures Linked(AfterInsert(t, vu, s)) <==> s.id !in t.toVU
  {
    var u := AfterInsert(t, vu, s);
    if s.id in t.toVU {
      var v := t.toVU[s.id];
      assert v in u.sessions && u.sessions[v].id == s.id && u.toVU[s.id] == vu;
    } else {
      forall v | v in u.sessions ensures u.sessions[v].id in u.toVU && u.toVU[u.sessions[v].id] == v {
      }
    }
  }

  lemma UnlistKeepsLinks(t: Table, s: Session)
    requires Linked(t)
    ensures Linked(Unlisted(t, s))
    ensures forall vu <- t.sessions :: t.sessions[vu].id != s.id ==>
              vu in Unlisted(t, s).sessions && Unlisted(t, s).sessions[vu] == t.sessions[vu]
    ensures forall vu <- Unlisted(t, s).sessions :: t.sessions[vu].id != s.id
  {
  }

  // ---------------------------------------------------------------------------
  // Acquires, evictors and close around the table

  /** How far one call of `Acquire` has come. */
  datatype Phase =
    | Asked(vu: nat)
    | Found(vu: nat, session: Session)     // read under the read lock, state not yet looked at
    | Unfit(vu: nat, session: Session)     // about to invalidate it
    | Missing(vu: nat)                     // about to connect
    | Made(vu: nat, session: Session)      // connected, about to insert
    | Beaten(session: Session, other: Session)
    | Reusing(session: Session)            // about to be marked active
    | Holding(session: Session)
    | Failed

  /** `issued` are all sessions connected so far, `shown` those that have been in the table. */
  datatype World = World(
    t: Table, calls: map<nat, Phase>, issued: set<Session>, shown: set<Session>,
    evicting: multiset<Session>, closed: bool, drained: bool)

  const START: World := World(EMPTY, map[], {}, {}, multiset{}, false, false)

  datatype Step =
    | Ask(c: nat, vu: nat)
    | Lookup(c: nat)
    | Check(c: nat, late: bool)
    | InvalidateUnfit(c: nat)
    | Connect(c: nat, session: Session)
    | ConnectFails(c: nat)
    | Insert(c: nat)
    | Discard(c: nat)
    | Resume(c: nat)
    | Release(session: Session)
    | Invalidate(session: Session)
    | Expire(session: Session)             // evictor or timer, under the session's lock
    | Evict(session: Session)              // their callback
    | CloseFlag
    | CloseLocked

  predicate Enabled(w: World, st: Step) {
    match st
    case Ask(c, _) => c !in w.calls && !w.closed
    case Lookup(c) => c in w.calls && w.calls[c].Asked?
    case Check(c, _) => c in w.calls && w.calls[c].Found?
    case InvalidateUnfit(c) => c in w.calls && w.calls[c].Unfit?
    case Connect(c, s) => c in w.calls && w.calls[c].Missing? && s !in w.issued
    case ConnectFails(c) => c in w.calls && w.calls[c].Missing?
    case Insert(c) => c in w.calls && w.calls[c].Made?
    case Discard(c) => c in w.calls && w.calls[c].Beaten?
    case Resume(c) => c in w.calls && w.calls[c].Reusing?
    case Release(s) => s in w.shown
    case Invalidate(s) => s in w.shown
    case Expire(s) => s in w.shown && (StateOf(w.t, s) == Active || StateOf(w.t, s) == Idle)
    case Evict(s) => s in w.evicting
    case CloseFlag => true
    case CloseLocked => w.closed && !w.drained
  }

  function Put(w: World, c: nat, phase: Phase): World { w.(calls := w.calls[c := phase]) }

  function SetState(w: World, s: Session, state: SessionState): World {
    w.(t := w.t.(states := w.t.states[s := state]))
  }

  function Next(w: World, st: Step): World
    requires Enabled(w, st)
  {
    match st
    case Ask(c, vu) => Put(w, c, Asked(vu))
    case Lookup(c) =>
      var vu := w.calls[c].vu;
      Put(w, c, if vu in w.t.sessions then Found(vu, w.t.sessions[vu]) else Missing(vu))
    case Check(c, late) =>
      var Found(vu, s) := w.calls[c];
      var state := StateOf(w.t, s);
      Put(w, c, if late || state == Closed || state == Expired then Unfit(vu, s) else Reusing(s))
    case InvalidateUnfit(c) =>
      Put(w, c, Missing(w.calls[c].vu)).(t := AfterInvalidate(w.t, w.calls[c].session))
    case Connect(c, s) => Put(w, c, Made(w.calls[c].vu, s)).(issued := w.issued + {s})
    case ConnectFails(c) => Put(w, c, Failed)
    case Insert(c) =>
      var Made(vu, s) := w.calls[c];
      if vu in w.t.sessions then Put(w, c, Beaten(s, w.t.sessions[vu]))
      else Put(w, c, Holding(s)).(t := AfterInsert(w.t, vu, s), shown := w.shown + {s})
    case Discard(c) =>
      var Beaten(s, other) := w.calls[c];
      Put(w, c, Reusing(other)).(t := w.t.(states := w.t.states[s := Closed], dead := w.t.dead + {s}))
    case Resume(c) => SetState(Put(w, c, Holding(w.calls[c].session)), w.calls[c].session, Active)
    case Release(s) => if w.closed then w else SetState(w, s, Idle)
    case Invalidate(s) => w.(t := AfterInvalidate(w.t, s))
    case Expire(s) =>
      // a session in use is marked by its timer alone, which then calls nobody
      var v := SetState(w, s, Expired);
      if StateOf(w.t, s) == Active then v else v.(evicting := w.evicting + multiset{s})
    case Evict(s) => w.(t := AfterEviction(w.t, s), evicting := w.evicting - multiset{s})
    case CloseFlag => w.(closed := true)
    case CloseLocked => w.(t := AfterClose(w.t), drained := true)
  }

  ghost predicate Run(w: World, steps: seq<Step>, v: World)
    decreases |steps|
  {
    if steps == [] then w == v
    else Enabled(w, steps[0]) && Run(Next(w, steps[0]), steps[1..], v)
  }

  // ---------------------------------------------------------------------------
  // The invariant

  /** No two sessions were issued with the same identifier. */
  ghost predicate DistinctIds(issued: set<Session>) {
    forall s <- issued, u <- issued :: s.id == u.id ==> s == u
  }

  /** The call has connected `s`, which nobody else knows of yet. */
  predicate Carries(p: Phase, s: Session) { (p.Made? || p.Beaten?) && p.session == s }

  ghost predicate Carried(w: World, s: Session) { exists c :: c in w.calls && Carries(w.calls[c], s) }

  /** A session shown is either in the table or has its connection closed, never both. */
  ghost predicate SessionOk(w: World, s: Session) {
    && (Listed(w.t, s) ==> s in w.shown && s !in w.t.dead)
    && (s in w.shown ==> s in w.issued && (Listed(w.t, s) || s in w.t.dead))
    && (s in w.issued && s !in w.shown ==> s in w.t.dead || Carried(w, s))
    && (s in w.t.dead ==> s in w.issued) && (s in w.evicting ==> s in w.shown)
  }

  /** What a call knows of sessions. */
  ghost predicate CallOk(w: World, c: nat) {
    c in w.calls ==>
      match w.calls[c]
      case Found(_, s) => s in w.shown
      case Unfit(_, s) => s in w.shown
      case Made(_, s) => s in w.issued && s !in w.shown && s !in w.t.dead
      case Beaten(s, other) => s in w.issued && s !in w.shown && s !in w.t.dead && other in w.shown
      case Reusing(s) => s in w.shown
      case Holding(s) => s in w.shown
      case _ => true
  }

  ghost predicate OneCarrier(w: World) {
    forall c, d :: c in w.calls && d in w.calls && c != d && (w.calls[c].Made? || w.calls[c].Beaten?) ==>
                     !Carries(w.calls[d], w.calls[c].session)
  }

  ghost predicate Inv(w: World) {
    && Linked(w.t) && (forall s :: SessionOk(w, s)) && (forall c :: CallOk(w, c)) && OneCarrier(w)
    && (w.drained ==> w.closed)
  }

  lemma IssuedGrows(w: World, st: Step)
    requires Enabled(w, st)
    ensures w.issued <= Next(w, st).issued
  {
  }

  lemma UnlistedOthers(t: Table, s: Session, u: Session)
    requires Linked(t)
    ensures Listed(Unlisted(t, s), u) <==> Listed(t, u) && u.id != s.id
  {
  }

  lemma InsertedOthers(t: Table, vu: nat, s: Session, u: Session)
    requires Linked(t) && vu !in t.sessions && s.id !in t.toVU
    ensures Listed(AfterInsert(t, vu, s), u) <==> Listed(t, u) || u == s
  {
  }

  lemma ClosedValues(t: Table, u: Session)
    requires Linked(t)
    ensures !Listed(AfterClose(t), u)
    ensures u in AfterClose(t).dead <==> u in t.dead || Listed(t, u)
  {
    ListedIffValue(t, u);
  }

  lemma FreshIdUnlisted(w: World, c: nat)
    requires Inv(w) && DistinctIds(w.issued) && c in w.calls && w.calls[c].Made?
    ensures w.calls[c].session.id !in w.t.toVU
  {
    var s := w.calls[c].session;
    assert CallOk(w, c);
    if s.id in w.t.toVU {
      var u := w.t.sessions[w.t.toVU[s.id]];
      assert Listed(w.t, u) && SessionOk(w, u);
    }
  }

  lemma StepKeepsLinks(w: World, st: Step)
    requires Inv(w) && Enabled(w, st) && DistinctIds(w.issued)
    ensures Linked(Next(w, st).t)
  {
    match st
    case InvalidateUnfit(c) => UnlistKeepsLinks(w.t, w.calls[c].session);
    case Invalidate(s) => UnlistKeepsLinks(w.t, s);
    case Evict(s) => UnlistKeepsLinks(w.t, s);
    case Insert(c) =>
      FreshIdUnlisted(w, c);
      if w.calls[c].vu !in w.t.sessions {
        InsertKeepsLinksIff(w.t, w.calls[c].vu, w.calls[c].session);
      }
    case _ =>
  }

  lemma StillCarried(w: World, st: Step, u: Session)
    requires Inv(w) && Enabled(w, st) && Carried(w, u)
    ensures Carried(Next(w, st), u) || u in Next(w, st).shown || u in Next(w, st).t.dead
  {
    var c :| c in w.calls && Carries(w.calls[c], u);
    var v := Next(w, st);
    assert c in v.calls;
    assert Carries(v.calls[c], u) || u in v.shown || u in v.t.dead;
  }

  /** Taking a session out of the table, its connection closed, leaves every session accounted for. */
  lemma DropKeepsSession(w: World, v: World, s: Session, u: Session)
    requires Inv(w) && DistinctIds(w.issued) && s in w.shown
    requires v.t.sessions == Unlisted(w.t, s).sessions && v.t.toVU == Unlisted(w.t, s).toVU
    requires v.t.dead == w.t.dead + {s} && v.issued == w.issued && v.shown == w.shown
    requires u in v.evicting ==> u in w.evicting
    requires Carried(w, u) ==> Carried(v, u) || u in v.shown || u in v.t.dead
    ensures SessionOk(v, u)
  {
    assert SessionOk(w, u) && SessionOk(w, s);
    UnlistedOthers(w.t, s, u);
  }

  lemma InsertKeepsSession(w: World, c: nat, u: Session)
    requires Inv(w) && Enabled(w, Insert(c)) && DistinctIds(w.issued)
    ensures SessionOk(Next(w, Insert(c)), u)
  {
    assert SessionOk(w, u) && CallOk(w, c);
    if Carried(w, u) {
      StillCarried(w, Insert(c), u);
    }
    FreshIdUnlisted(w, c);
    if w.calls[c].vu !in w.t.sessions {
      InsertedOthers(w.t, w.calls[c].vu, w.calls[c].session, u);
    }
  }

  lemma StepKeepsSession(w: World, st: Step, u: Session)
    requires Inv(w) && Enabled(w, st) && DistinctIds(w.issued)
    ensures SessionOk(Next(w, st), u)
  {
    assert SessionOk(w, u);
    if Carried(w, u) {
      StillCarried(w, st, u);
    }
    match st
    case InvalidateUnfit(c) =>
      assert CallOk(w, c);
      DropKeepsSession(w, Next(w, st), w.calls[c].session, u);
    case Invalidate(s) => DropKeepsSession(w, Next(w, st), s, u);
    case Evict(s) =>
      assert SessionOk(w, s);
      DropKeepsSession(w, Next(w, st), s, u);
    case Insert(c) => InsertKeepsSession(w, c, u);
    case Connect(c, s) => assert Next(w, st).calls[c] == Made(w.calls[c].vu, s);
    case Discard(c) => assert CallOk(w, c);
    case CloseLocked => ClosedValues(w.t, u);
    case _ =>
  }

  /** A session known only to its connecting call is neither closed nor shown by any other step. */
  lemma StaysPrivate(w: World, st: Step, d: nat)
    requires Inv(w) && Enabled(w, st) && d in w.calls && (w.calls[d].Made? || w.calls[d].Beaten?)
    requires Next(w, st).calls[d] == w.calls[d]
    ensures w.calls[d].session !in Next(w, st).shown && w.calls[d].session !in Next(w, st).t.dead
  {
    var s := w.calls[d].session;
    assert CallOk(w, d) && SessionOk(w, s);
    match st
    case InvalidateUnfit(c) => assert CallOk(w, c);
    case Evict(u) => assert SessionOk(w, u);
    case CloseLocked => ClosedValues(w.t, s);
    case _ =>
  }

  lemma MovedCallKept(w: World, st: Step, d: nat)
    requires Inv(w) && Enabled(w, st) && d in Next(w, st).calls
    requires d !in w.calls || Next(w, st).calls[d] != w.calls[d]
    ensures CallOk(Next(w, st), d)
  {
    assert CallOk(w, d);
    match st
    case Lookup(c) => LookupShown(w, w.calls[c].vu);
    case Connect(c, s) => assert SessionOk(w, s);
    case Insert(c) => LookupShown(w, w.calls[c].vu);
    case _ =>
  }

  lemma StepKeepsCall(w: World, st: Step, d: nat)
    requires Inv(w) && Enabled(w, st)
    ensures CallOk(Next(w, st), d)
  {
    assert CallOk(w, d);
    if d in w.calls && Next(w, st).calls[d] == w.calls[d] {
      if w.calls[d].Made? || w.calls[d].Beaten? {
        StaysPrivate(w, st, d);
      }
    } else if d in Next(w, st).calls {
      MovedCallKept(w, st, d);
    }
  }

  lemma LookupShown(w: World, vu: nat)
    requires Inv(w)
    ensures vu in w.t.sessions ==> w.t.sessions[vu] in w.shown
  {
    if vu in w.t.sessions {
      assert SessionOk(w, w.t.sessions[vu]);
    }
  }

  lemma StepKeepsCarrier(w: World, st: Step)
    requires Inv(w) && Enabled(w, st)
    ensures OneCarrier(Next(w, st))
  {
    match st
    case Connect(c, s) =>
      forall d | d in w.calls ensures !Carries(w.calls[d], s) {
        assert CallOk(w, d);
      }
    case _ =>
  }

  lemma StepKeepsInv(w: World, st: Step)
    requires Inv(w) && Enabled(w, st) && DistinctIds(w.issued)
    ensures Inv(Next(w, st))
  {
    StepKeepsLinks(w, st);
    StepKeepsCarrier(w, st);
    forall s ensures SessionOk(Next(w, st), s) {
      StepKeepsSession(w, st, s);
    }
    forall c ensures CallOk(Next(w, st), c) {
      StepKeepsCall(w, st, c);
    }
  }

  lemma {:induction false} RunIssues(w: World, steps: seq<Step>, v: World)
    requires Run(w, steps, v)
    ensures w.issued <= v.issued
    decreases |steps|
  {
    if steps != [] {
      IssuedGrows(w, steps[0]);
      RunIssues(Next(w, steps[0]), steps[1..], v);
    }
  }

  lemma {:induction false} RunKeepsInv(w: World, steps: seq<Step>, v: World)
    requires Inv(w) && Run(w, steps, v) && DistinctIds(v.issued)
    ensures Inv(v)
    decreases |steps|
  {
    if steps != [] {
      RunIssues(w, steps, v);
      StepKeepsInv(w, steps[0]);
      RunKeepsInv(Next(w, steps[0]), steps[1..], v);
    }
  }

  /**
   Whatever acquires, invalidations, evictions and close do to each other, as long
   as the server never issued one identifier twice: the two maps are inverse, every
   entry has its own session's timer, no entry has a closed connection, and every
   session ever connected is in the table, closed, or still with the call that
   connected it.
   */
  lemma TablesSafe(steps: seq<Step>, v: World)
    requires Run(START, steps, v) && DistinctIds(v.issued)
    ensures Linked(v.t)
    ensures v.t.sessions.Values !! v.t.dead
    ensures forall s <- v.issued :: s in v.t.sessions.Values || s in v.t.dead || Carried(v, s)
  {
    RunKeepsInv(START, steps, v);
    forall s ensures s in v.t.sessions.Values ==> s !in v.t.dead {
      assert SessionOk(v, s);
      ListedIffValue(v.t, s);
    }
    forall s | s in v.issued ensures s in v.t.sessions.Values || s in v.t.dead || Carried(v, s) {
      assert SessionOk(v, s);
      ListedIffValue(v.t, s);
    }
  }

  /**
   Dropping a session, by whichever of the three routes and however late, removes no
   entry but its own: its replacement stays.
   */
  lemma ReplacementStays(steps: seq<Step>, v: World, stale: Session)
    requires Run(START, steps, v) && DistinctIds(v.issued) && stale in v.shown
    ensures forall vu <- v.t.sessions :: v.t.sessions[vu] != stale ==>
              && vu in AfterEviction(v.t, stale).sessions && AfterEviction(v.t, stale).sessions[vu] == v.t.sessions[vu]
              && vu in AfterInvalidate(v.t, stale).sessions
              && AfterInvalidate(v.t, stale).sessions[vu] == v.t.sessions[vu]
    ensures stale !in AfterEviction(v.t, stale).sessions.Values
  {
    RunKeepsInv(START, steps, v);
    assert SessionOk(v, stale);
    UnlistKeepsLinks(v.t, stale);
    ListedIffValue(Unlisted(v.t, stale), stale);
    forall vu | vu in v.t.sessions && v.t.sessions[vu] != stale ensures v.t.sessions[vu].id != stale.id {
      assert SessionOk(v, v.t.sessions[vu]);
    }
  }

  /**
   `Acquire` marks the session it found active without looking again: the caller is
   handed a closed connection exactly when the session has left the table meanwhile.
   */
  lemma ResumedDeadIffUnlisted(steps: seq<Step>, v: World, c: nat)
    requires Run(START, steps, v) && DistinctIds(v.issued) && Enabled(v, Resume(c))
    ensures var u := Next(v, Resume(c));
            u.calls[c].Holding? && (u.calls[c].session in u.t.dead <==> u.calls[c].session !in u.t.sessions.Values)
  {
    RunKeepsInv(START, steps, v);
    assert CallOk(v, c) && SessionOk(v, v.calls[c].session);
    ListedIffValue(v.t, v.calls[c].session);
  }

  /** After close, with no call under way, every connection is closed exactly when nothing was inserted late. */
  lemma ClosedIffTableEmpty(steps: seq<Step>, v: World)
    requires Run(START, steps, v) && DistinctIds(v.issued) && v.drained
    requires forall c <- v.calls :: v.calls[c].Holding? || v.calls[c].Failed?
    ensures v.issued <= v.t.dead <==> v.t.sessions == map[]
  {
    TablesSafe(steps, v);
    RunKeepsInv(START, steps, v);
    if v.t.sessions == map[] {
      assert v.t.sessions.Values == {};
    } else {
      var vu :| vu in v.t.sessions;
      assert v.t.sessions[vu] in v.t.sessions.Values;
      assert SessionOk(v, v.t.sessions[vu]);
    }
  }

  // ---------------------------------------------------------------------------
  // When close is final

  /** The call has passed the test of `closed` and may still insert. */
  predicate Underway(p: Phase) { p.Asked? || p.Found? || p.Unfit? || p.Missing? || p.Made? }

  /** Closed, the table empty, and nobody left who could fill it. */
  ghost predicate Quiet(w: World) {
    w.closed && w.t.sessions == map[] && w.t.toVU == map[] && forall c <- w.calls :: !Underway(w.calls[c])
  }

  lemma QuietStays(w: World, st: Step)
    requires Quiet(w) && Enabled(w, st)
    ensures Quiet(Next(w, st))
  {
  }

  lemma {:induction false} QuietForever(w: World, steps: seq<Step>, v: World)
    requires Quiet(w) && Run(w, steps, v)
    ensures Quiet(v)
    decreases |steps|
  {
    if steps != [] {
      QuietStays(w, steps[0]);
      QuietForever(Next(w, steps[0]), steps[1..], v);
    }
  }

  /** In every continuation the table stays empty. */
  ghost predicate StaysEmpty(w: World) {
    forall steps, v :: Run(w, steps, v) && DistinctIds(v.issued) ==> v.t.sessions == map[]
  }

  /** Close is final, the table empty ever after, exactly when no call was under way as it took the lock. */
  lemma CloseIsFinalIff(before: seq<Step>, w: World)
    requires Run(START, before, w) && DistinctIds(w.issued) && Enabled(w, CloseLocked)
    ensures StaysEmpty(Next(w, CloseLocked)) <==> forall c <- w.calls :: !Underway(w.calls[c])
  {
    var v := Next(w, CloseLocked);
    if forall c <- w.calls :: !Underway(w.calls[c]) {
      forall steps, u | Run(v, steps, u) && DistinctIds(u.issued) ensures u.t.sessions == map[] {
        QuietForever(v, steps, u);
      }
    } else {
      var c :| c in w.calls && Underway(w.calls[c]);
      RunKeepsInv(START, before, w);
      StepKeepsInv(w, CloseLocked);
      var u := InsertsLate(v, c);
      var steps :| Run(v, steps, u);
    }
  }

  /** With no call under way at close, every connection is closed once the calls have ended. */
  lemma AllClosedAfterQuietClose(before: seq<Step>, w: World, after: seq<Step>, v: World)
    requires Run(START, before, w) && Enabled(w, CloseLocked) && Run(Next(w, CloseLocked), after, v)
    requires (forall c <- w.calls :: !Underway(w.calls[c])) && DistinctIds(v.issued)
    requires forall c <- v.calls :: v.calls[c].Holding? || v.calls[c].Failed?
    ensures v.issued <= v.t.dead
  {
    RunIssues(Next(w, CloseLocked), after, v);
    RunKeepsInv(START, before, w);
    StepKeepsInv(w, CloseLocked);
    RunKeepsInv(Next(w, CloseLocked), after, v);
    QuietForever(Next(w, CloseLocked), after, v);
    forall s | s in v.issued ensures s in v.t.dead {
      assert SessionOk(v, s);
    }
  }

  /** A session the server has not issued, under an identifier it has not used. */
  lemma NewSession(issued: set<Session>) returns (s: Session)
    ensures s !in issued && forall u <- issued :: u.id != s.id
  {
    var n := LongerThan(issued);
    s := Session(0, Dashes(n));
  }

  function Dashes(n: nat): (s: string)
    ensures |s| == n
  {
    if n == 0 then "" else Dashes(n - 1) + "-"
  }

  lemma {:induction false} LongerThan(issued: set<Session>) returns (n: nat)
    ensures forall s <- issued :: |s.id| < n
    decreases |issued|
  {
    if issued == {} {
      n := 0;
    } else {
      var s :| s in issued;
      var m := LongerThan(issued - {s});
      n := if |s.id| < m then m else |s.id| + 1;
      assert forall u <- issued :: u == s || u in issued - {s};
    }
  }

  /** From an empty table a call under way can go on to fill it. */
  lemma InsertsLate(w: World, c: nat) returns (v: World)
    requires w.t.sessions == map[] && w.t.toVU == map[] && DistinctIds(w.issued)
    requires c in w.calls && Underway(w.calls[c])
    ensures Reaches(w, v) && DistinctIds(v.issued) && v.t.sessions != map[]
  {
    match w.calls[c]
    case Asked(vu) =>
      v := ConnectsLate(Next(w, Lookup(c)), c);
      ReachesFrom(w, Lookup(c), v);
    case Found(vu, s) =>
      var w1 := Next(w, Check(c, true));
      v := ConnectsLate(Next(w1, InvalidateUnfit(c)), c);
      ReachesFrom(w1, InvalidateUnfit(c), v);
      ReachesFrom(w, Check(c, true), v);
    case Unfit(vu, s) =>
      v := ConnectsLate(Next(w, InvalidateUnfit(c)), c);
      ReachesFrom(w, InvalidateUnfit(c), v);
    case Missing(vu) => v := ConnectsLate(w, c);
    case Made(vu, s) => v := FillsLate(w, c);
  }

  lemma ConnectsLate(w: World, c: nat) returns (v: World)
    requires w.t.sessions == map[] && DistinctIds(w.issued) && c in w.calls && w.calls[c].Missing?
    ensures Reaches(w, v) && DistinctIds(v.issued) && v.t.sessions != map[]
  {
    var s := NewSession(w.issued);
    v := FillsLate(Next(w, Connect(c, s)), c);
    ReachesFrom(w, Connect(c, s), v);
  }

  lemma FillsLate(w: World, c: nat) returns (v: World)
    requires w.t.sessions == map[] && DistinctIds(w.issued) && c in w.calls && w.calls[c].Made?
    ensures Reaches(w, v) && DistinctIds(v.issued) && v.t.sessions != map[]
  {
    v := Next(w, Insert(c));
    assert w.calls[c].vu in v.t.sessions;
    ReachesItself(v);
    ReachesFrom(w, Insert(c), v);
  }

  // ---------------------------------------------------------------------------
  // Runs in which a promise fails

  ghost predicate Reaches(w: World, v: World) { exists steps :: Run(w, steps, v) }

  lemma ReachesItself(w: World)
    ensures Reaches(w, w)
  {
    assert Run(w, [], w);
  }

  lemma ReachesFrom(w: World, st: Step, v: World)
    requires Enabled(w, st) && Reaches(Next(w, st), v)
    ensures Reaches(w, v)
  {
    var steps :| Run(Next(w, st), steps, v);
    assert ([st] + steps)[1..] == steps;
    assert Run(w, [st] + steps, v);
  }

  /** Call `c` has connected `s` for a virtual user that had no session. */
  function Served(w: World, c: nat, vu: nat, s: Session): World {
    World(AfterInsert(w.t, vu, s), w.calls[c := Holding(s)], w.issued + {s}, w.shown + {s},
          w.evicting, w.closed, w.drained)
  }

  lemma ServedFromLookup(w: World, c: nat, vu: nat, s: Session, v: World)
    requires c in w.calls && w.calls[c] == Asked(vu) && vu !in w.t.sessions && s !in w.issued
    requires Reaches(Served(w, c, vu, s), v)
    ensures Reaches(w, v)
  {
    var b := Next(w, Lookup(c));
    var d := Next(b, Connect(c, s));
    assert Next(d, Insert(c)).calls == w.calls[c := Holding(s)];
    assert Next(d, Insert(c)) == Served(w, c, vu, s);
    ReachesFrom(d, Insert(c), v);
    ReachesFrom(b, Connect(c, s), v);
    ReachesFrom(w, Lookup(c), v);
  }

  lemma ServedFromAsk(w: World, c: nat, vu: nat, s: Session, v: World)
    requires c !in w.calls && !w.closed && vu !in w.t.sessions && s !in w.issued
    requires Reaches(Served(w, c, vu, s), v)
    ensures Reaches(w, v)
  {
    var a := Next(w, Ask(c, vu));
    assert a.calls[c := Holding(s)] == w.calls[c := Holding(s)];
    assert Served(a, c, vu, s) == Served(w, c, vu, s);
    ServedFromLookup(a, c, vu, s, v);
    ReachesFrom(w, Ask(c, vu), v);
  }

  /** The session is released, runs out of time, and is evicted. */
  function Evicted(w: World, s: Session): World {
    w.(t := AfterEviction(w.t, s).(states := w.t.states[s := Idle][s := Expired]))
  }

  lemma EvictedAfterRelease(w: World, s: Session, v: World)
    requires s in w.shown && !w.closed && Reaches(Evicted(w, s), v)
    ensures Reaches(w, v)
  {
    var a := Next(w, Release(s));
    var b := Next(a, Expire(s));
    assert Next(b, Evict(s)).evicting == w.evicting;
    assert Next(b, Evict(s)) == Evicted(w, s);
    ReachesFrom(b, Evict(s), v);
    ReachesFrom(a, Expire(s), v);
    ReachesFrom(w, Release(s), v);
  }

  /** Two entries under one identifier, and the first one's session evicted. */
  lemma SharedEntryDropped(t: Table, s: Session, u: Session, x: nat, y: nat)
    requires t == AfterInsert(AfterInsert(EMPTY, x, s), y, u) && s.id == u.id && s != u && x != y
    ensures AfterEviction(t, s).sessions == map[x := s] && AfterEviction(t, s).toVU == map[]
    ensures s in AfterEviction(t, s).sessions.Values && u !in AfterEviction(t, s).sessions.Values
    ensures AfterEviction(t, s).dead == {s}
  {
    assert AfterEviction(t, s).sessions == map[x := s];
    assert AfterEviction(t, s).sessions[x] == s;
  }

  /**
   A server that issues one identifier to two virtual users: evicting the first
   user's session takes the second user's out of the table, still open and known to
   no map, and leaves the first one's in it, closed.
   */
  lemma SharedIdStrandsSession(id: string) returns (v: World, s: Session, u: Session)
    ensures Reaches(START, v) && s.id == id == u.id
    ensures !Linked(v.t) && s in v.t.sessions.Values && s in v.t.dead
    ensures u in v.shown && u !in v.t.sessions.Values && u !in v.t.dead
  {
    s, u := Session(0, id), Session(1, id);
    var w1 := Served(START, 0, 10, s);
    var w2 := Served(w1, 1, 11, u);
    v := Evicted(w2, s);
    ReachesItself(v);
    EvictedAfterRelease(w2, s, v);
    ServedFromAsk(w1, 1, 11, u, v);
    ServedFromAsk(START, 0, 10, s, v);
    SharedEntryDropped(w2.t, s, u, 10, 11);
    assert 10 in v.t.sessions;
  }

  /** An acquire that passed the test of `closed` inserts after close: the entry stays, its connection open. */
  lemma AcquireOutlivesClose(s: Session)
    ensures exists v :: Reaches(START, v) && v.drained && s in v.t.sessions.Values && s !in v.t.dead
  {
    var w1 := Next(START, Ask(0, 10));
    var w2 := Next(w1, CloseFlag);
    var w3 := Next(w2, CloseLocked);
    var v := Served(w3, 0, 10, s);
    ReachesItself(v);
    ServedFromLookup(w3, 0, 10, s, v);
    ReachesFrom(w2, CloseLocked, v);
    ReachesFrom(w1, CloseFlag, v);
    ReachesFrom(START, Ask(0, 10), v);
    assert v.t.sessions[10] == s;
  }

  // ---------------------------------------------------------------------------
  // A session that can be used is used

  /** A call finds its user's session and goes on to use it exactly when its time is not up and it was not marked. */
  lemma ReusedIff(w: World, c: nat, late: bool)
    requires c in w.calls && w.calls[c].Asked?
    ensures var vu, u := w.calls[c].vu, Next(w, Lookup(c));
            if vu !in w.t.sessions then u.calls[c] == Missing(vu)
            else
              var s := w.t.sessions[vu];
              && Enabled(u, Check(c, late))
              && var v := Next(u, Check(c, late));
                 if late || StateOf(w.t, s) == Closed || StateOf(w.t, s) == Expired then v.calls[c] == Unfit(vu, s)
                 else Enabled(v, Resume(c)) && Next(v, Resume(c)).calls[c] == Holding(s)
  {
  }

  /** A user without a session gets the one it connects, in all three maps. */
  lemma ConnectedIsListed(w: World, c: nat)
    requires c in w.calls && w.calls[c].Made? && w.calls[c].vu !in w.t.sessions
    ensures var Made(vu, s), v := w.calls[c], Next(w, Insert(c));
            && v.calls[c] == Holding(s) && vu in v.t.sessions && v.t.sessions[vu] == s
            && s.id in v.t.toVU && v.t.toVU[s.id] == vu && vu in v.t.timers && v.t.timers[vu] == s
            && forall u <- w.t.sessions :: u in v.t.sessions && v.t.sessions[u] == w.t.sessions[u]
  {
  }

  /** A session given back to an open mode is idle, still listed, and is found again by its user's next call. */
  lemma ReleasedIsIdle(w: World, s: Session)
    requires s in w.shown && !w.closed
    ensures var v := Next(w, Release(s));
            StateOf(v.t, s) == Idle && v.t.sessions == w.t.sessions && v.t.dead == w.t.dead && v.calls == w.calls
  {
  }
}
