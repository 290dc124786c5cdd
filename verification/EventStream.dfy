/**
 The append-only event log of a run, the identifiers of its events, and the
 streaming endpoint from which a client resumes with the identifier it saw last.
 */
module EventStream {
  import opened Sequences
  import opened Wrappers

  // ---------------------------------------------------------------------------
  // Identifiers: `evt_` and two numbers in hexadecimal, one after the other

  const DIGITS: string := "0123456789abcdef"

  function Hex(n: nat): (s: string)
    ensures |s| > 0
  {
    if n < 16 then [DIGITS[n]] else Hex(n / 16) + [DIGITS[n % 16]]
  }

  predicate IsHexDigit(c: char) { '0' <= c <= '9' || 'a' <= c <= 'f' }

  predicate AllHex(s: string) { forall i :: 0 <= i < |s| ==> IsHexDigit(s[i]) }

  function DigitValue(c: char): (v: nat)
    requires IsHexDigit(c)
    ensures v < 16 && DIGITS[v] == c
  {
    if c <= '9' then (c - '0') as nat else (c - 'a') as nat + 10
  }

  function Value(s: string): nat
    requires AllHex(s)
  {
    if s == [] then 0 else 16 * Value(s[..|s| - 1]) + DigitValue(s[|s| - 1])
  }

  /** How `%x` writes a number: no leading zero but in zero itself. */
  predicate Canonical(s: string) { s != [] && AllHex(s) && (|s| > 1 ==> s[0] != '0') }

  lemma DigitBack(d: nat)
    requires d < 16
    ensures IsHexDigit(DIGITS[d]) && DigitValue(DIGITS[d]) == d && (d > 0 ==> DIGITS[d] != '0')
  {
  }

  lemma OneDigitMore(s: string, d: nat)
    requires Canonical(s) && s[0] != '0' && d < 16
    ensures Canonical(s + [DIGITS[d]]) && Value(s + [DIGITS[d]]) == 16 * Value(s) + d
  {
    DigitBack(d);
    var t := s + [DIGITS[d]];
    assert t[..|t| - 1] == s;
  }

  lemma {:induction false} HexCanonical(n: nat)
    ensures Canonical(Hex(n)) && Value(Hex(n)) == n && (n > 0 ==> Hex(n)[0] != '0')
  {
    if n < 16 {
      DigitBack(n);
      assert Hex(n)[..0] == [];
    } else {
      HexCanonical(n / 16);
      OneDigitMore(Hex(n / 16), n % 16);
    }
  }

  lemma {:induction false} ValueBack(s: string)
    requires Canonical(s)
    ensures Hex(Value(s)) == s
    decreases |s|
  {
    var t, d := s[..|s| - 1], DigitValue(s[|s| - 1]);
    assert s == t + [s[|s| - 1]];
    if t != [] {
      ValueBack(t);
      HexCanonical(Value(t));
      assert Value(t) > 0 by { ValuePositive(t); }
      assert Value(s) / 16 == Value(t) && Value(s) % 16 == d;
    }
  }

  lemma {:induction false} ValuePositive(s: string)
    requires AllHex(s) && s != [] && s[0] != '0'
    ensures Value(s) > 0
    decreases |s|
  {
    if |s| > 1 {
      ValuePositive(s[..|s| - 1]);
    }
  }

  function EventId(ts: nat, counter: nat): string { "evt_" + (Hex(ts) + Hex(counter)) }

  /** What the endpoint accepts as an identifier. */
  predicate IdPattern(s: string) { |s| > 4 && s[..4] == "evt_" && AllHex(s[4..]) }

  /** An identifier is accepted exactly when it is `evt_` and at least one hexadecimal digit. */
  lemma PatternIff(s: string)
    ensures IdPattern(s) <==> exists h :: h != "" && s == "evt_" + h && forall c <- h :: c in "0123456789abcdef"
  {
    if IdPattern(s) {
      var h := s[4..];
      assert s == "evt_" + h;
      forall c | c in h ensures c in "0123456789abcdef" {
        DigitListed(c);
      }
    } else if h :| h != "" && s == "evt_" + h && forall c <- h :: c in "0123456789abcdef" {
      assert s[4..] == h && s[..4] == "evt_";
      forall i | 0 <= i < |h| ensures IsHexDigit(h[i]) {
        assert h[i] in h;
      }
    }
  }

  lemma DigitListed(c: char)
    requires IsHexDigit(c)
    ensures c in "0123456789abcdef"
  {
    assert DIGITS[DigitValue(c)] == c;
  }

  lemma IdsMatchPattern(ts: nat, counter: nat)
    ensures IdPattern(EventId(ts, counter))
  {
    HexCanonical(ts);
    HexCanonical(counter);
    assert EventId(ts, counter)[4..] == Hex(ts) + Hex(counter);
  }

  /** With timestamps of one width an identifier determines both its numbers. */
  lemma IdsDistinct(t: nat, c: nat, u: nat, d: nat)
    requires |Hex(t)| == |Hex(u)|
    ensures EventId(t, c) == EventId(u, d) <==> t == u && c == d
  {
    if EventId(t, c) == EventId(u, d) {
      assert Hex(t) + Hex(c) == EventId(t, c)[4..] == EventId(u, d)[4..] == Hex(u) + Hex(d);
      assert Hex(t) == (Hex(t) + Hex(c))[..|Hex(t)|] && Hex(u) == (Hex(u) + Hex(d))[..|Hex(t)|];
      assert Hex(c) == (Hex(t) + Hex(c))[|Hex(t)|..] && Hex(d) == (Hex(u) + Hex(d))[|Hex(t)|..];
      HexCanonical(t);
      HexCanonical(u);
      HexCanonical(c);
      HexCanonical(d);
    }
  }

  function Pow16(k: nat): nat { if k == 0 then 1 else 16 * Pow16(k - 1) }

  lemma {:induction false} HexWidth(n: nat, k: nat)
    requires Pow16(k) <= n < Pow16(k + 1)
    ensures |Hex(n)| == k + 1
    decreases k
  {
    if k > 0 {
      HexWidth(n / 16, k - 1);
    }
  }

  /** From 3 November 2004 until 2527 a clock in milliseconds has eleven hexadecimal digits. */
  predicate InEra(ts: nat) { 0x100_0000_0000 <= ts < 0x1000_0000_0000 }

  lemma EraWidth(ts: nat)
    requires InEra(ts)
    ensures |Hex(ts)| == 11
  {
    assert Pow16(10) == 0x100_0000_0000 && Pow16(11) == 0x1000_0000_0000 by {
      assert Pow16(4) == 0x1_0000;
      assert Pow16(8) == 0x1_0000_0000;
    }
    HexWidth(ts, 10);
  }

  /** `s` continues `t` with a digit other than zero. */
  predicate Extends(s: string, t: string) { |t| < |s| && s[..|t|] == t && s[|t|] != '0' }

  lemma CollisionExtends(t: nat, c: nat, u: nat, d: nat)
    requires |Hex(t)| < |Hex(u)| && c > 0 && EventId(t, c) == EventId(u, d)
    ensures Extends(Hex(u), Hex(t))
  {
    var k := |Hex(t)|;
    assert Hex(t) + Hex(c) == EventId(t, c)[4..] == EventId(u, d)[4..] == Hex(u) + Hex(d);
    assert Hex(u)[..k] == (Hex(u) + Hex(d))[..k] == Hex(t);
    assert Hex(u)[k] == (Hex(u) + Hex(d))[k] == Hex(c)[0];
    HexCanonical(c);
  }

  lemma SplitExtension(s: string, t: string, d: string)
    requires Extends(s, t) && AllHex(s) && AllHex(d)
    ensures var rest := s[|t|..] + d; Canonical(rest) && rest[0] != '0' && t + rest == s + d
  {
    assert s == t + s[|t|..];
  }

  lemma ExtensionCollides(t: nat, u: nat) returns (c: nat)
    requires Extends(Hex(u), Hex(t))
    ensures c > 0 && EventId(t, c) == EventId(u, 1)
  {
    HexCanonical(u);
    HexCanonical(1);
    SplitExtension(Hex(u), Hex(t), Hex(1));
    c := NumberWritten(Hex(u)[|Hex(t)|..] + Hex(1));
  }

  lemma NumberWritten(s: string) returns (c: nat)
    requires Canonical(s) && s[0] != '0'
    ensures c > 0 && Hex(c) == s
  {
    ValueBack(s);
    ValuePositive(s);
    c := Value(s);
  }

  /**
   Two timestamps of different width can give one identifier, under some positive
   counters, exactly when one is written as the other continued by a nonzero digit.
   */
  lemma CollidingTimestamps(t: nat, u: nat)
    requires |Hex(t)| < |Hex(u)|
    ensures (exists c: nat, d: nat :: c > 0 && d > 0 && EventId(t, c) == EventId(u, d)) <==> Extends(Hex(u), Hex(t))
  {
    if Extends(Hex(u), Hex(t)) {
      var c := ExtensionCollides(t, u);
    } else if c: nat, d: nat :| c > 0 && d > 0 && EventId(t, c) == EventId(u, d) {
      CollisionExtends(t, c, u, d);
    }
  }

  lemma IdsCollide()
    ensures EventId(0x1, 0x11) == EventId(0x11, 0x1)
  {
    assert Hex(0x11) == Hex(1) + [DIGITS[1]];
  }

  // ---------------------------------------------------------------------------
  // The log

  /** `marshals` says whether the event can be written as JSON. */
  datatype Event = Event(
    id: string, runId: string, executionId: string, kind: string, actor: string,
    payload: Option<string>, evidence: Option<string>, tsMs: int, marshals: bool)

  datatype Appended = Accepted | MissingField(name: string)

  datatype Tailed = Events(events: seq<Event>) | NegativeLimit | NegativeCursor

  /** What `Append` refuses, by the first field missing. */
  function Refusal(e: Event): Appended {
    if e.runId == "" then MissingField("run_id")
    else if e.executionId == "" then MissingField("execution_id")
    else if e.kind == "" then MissingField("type")
    else if e.actor == "" then MissingField("actor")
    else if e.payload.None? then MissingField("payload")
    else if e.evidence.None? then MissingField("evidence")
    else Accepted
  }

  function Stamped(e: Event, id: string, now: int): Event {
    e.(id := if e.id == "" then id else e.id, tsMs := if e.tsMs == 0 then now else e.tsMs)
  }

  /** The log after an event: a full log keeps what it has. */
  function Extended(events: seq<Event>, maxEvents: nat, e: Event): seq<Event> {
    if maxEvents > 0 && |events| >= maxEvents then events else events + [e]
  }

  /** The first position of an identifier, or minus one. */
  predicate IsFirst(events: seq<Event>, id: string, k: int) {
    && -1 <= k < |events|
    && (k >= 0 ==> events[k].id == id && forall j :: 0 <= j < k ==> events[j].id != id)
    && (k < 0 ==> forall j :: 0 <= j < |events| ==> events[j].id != id)
  }

  class EventLog {
    var events: seq<Event>
    const maxEvents: nat
    var truncated: bool

    /** A log is marked truncated only when it is full. */
    ghost predicate Valid()
      reads this
    {
      && (maxEvents > 0 ==> |events| <= maxEvents)
      && (truncated ==> maxEvents > 0 && |events| == maxEvents)
    }

    constructor (maxEvents: nat)
      ensures Valid() && events == [] && this.maxEvents == maxEvents && !truncated
    {
      events, this.maxEvents, truncated := [], maxEvents, false;
    }

    /** `id` is a new identifier and `now` the clock, used where the event brings none. */
    method Append(event: Event, id: string, now: int) returns (r: Appended)
      requires Valid()
      modifies this
      ensures Valid() && r == Refusal(event)
      ensures events == if r.Accepted? then Extended(old(events), maxEvents, Stamped(event, id, now)) else old(events)
      ensures truncated == (old(truncated) || (r.Accepted? && events == old(events)))
      ensures r.Accepted? <==>
              event.runId != "" && event.executionId != "" && event.kind != "" && event.actor != "" &&
              event.payload.Some? && event.evidence.Some?
      ensures r.Accepted? && (maxEvents == 0 || |old(events)| < maxEvents) ==>
                && |events| == |old(events)| + 1 && old(events) <= events
                && var e := events[|old(events)|];
                   && e.id == (if event.id != "" then event.id else id)
                   && e.tsMs == (if event.tsMs != 0 then event.tsMs else now)
                   && e.(id := event.id, tsMs := event.tsMs) == event
    {
      if event.runId == "" {
        return MissingField("run_id");
      }
      if event.executionId == "" {
        return MissingField("execution_id");
      }
      if event.kind == "" {
        return MissingField("type");
      }
      if event.actor == "" {
        return MissingField("actor");
      }
      if event.payload == None {
        return MissingField("payload");
      }
      if event.evidence == None {
        return MissingField("evidence");
      }
      var e := event;
      if e.id == "" {
        e := e.(id := id);
      }
      if e.tsMs == 0 {
        e := e.(tsMs := now);
      }
      if maxEvents > 0 && |events| >= maxEvents {
        truncated := true;
        return Accepted;
      }
      events := events + [e];
      return Accepted;
    }

    method Tail(cursor: int, limit: int) returns (r: Tailed)
      ensures r == TailOf(events, cursor, limit)
    {
      if limit < 0 {
        return NegativeLimit;
      }
      if cursor < 0 {
        return NegativeCursor;
      }
      if cursor >= |events| {
        return Events([]);
      }
      var end := cursor + limit;
      if end > |events| {
        end := |events|;
      }
      return Events(events[cursor..end]);
    }

    method FindEventIndex(eventId: string) returns (k: int)
      ensures IsFirst(events, eventId, k)
    {
      for i := 0 to |events|
        invariant forall j :: 0 <= j < i ==> events[j].id != eventId
      {
        if events[i].id == eventId {
          return i;
        }
      }
      return -1;
    }

    /** The cursor a new stream starts from. */
    method StartCursor(lastEventId: string, cursorParam: string, since: Since) returns (r: Start)
      ensures StartOk(events, lastEventId, cursorParam, since, r)
    {
      if lastEventId != "" {
        if !IdPattern(lastEventId) {
          return InvalidLastEventId;
        }
        var idx := FindEventIndex(lastEventId);
        if idx < 0 {
          return InvalidLastEventId;
        }
        return From(idx + 1);
      }
      if cursorParam != "" {
        if !IdPattern(cursorParam) {
          return InvalidCursor;
        }
        var idx := FindEventIndex(cursorParam);
        if idx < 0 {
          return InvalidCursor;
        }
        return From(idx + 1);
      }
      match since {
        case Absent => return From(0);
        case NotANumber => return InvalidSince;
        case Number(n) =>
          if n < 0 {
            return InvalidSince;
          }
          return From(n);
      }
    }

    /** One tick of the polling loop: the events written, and the new cursor. */
    method Poll(cursor: nat) returns (written: seq<Event>, next: nat)
      ensures next == AfterPoll(events, cursor)
      ensures cursor <= |events| ==> written == Readable(events[cursor..next])
      ensures cursor > |events| ==> written == []
    {
      var tail := Tail(cursor, BATCH);
      var batch := tail.events;
      written := [];
      for i := 0 to |batch|
        invariant written == Readable(batch[..i])
      {
        assert batch[..i + 1] == batch[..i] + [batch[i]];
        ReadableMore(batch[..i], batch[i]);
        if batch[i].marshals {
          written := written + [batch[i]];
        }
      }
      assert batch[..|batch|] == batch;
      next := cursor;
      if |batch| > 0 {
        next := cursor + |batch|;
      }
    }
  }

  function TailOf(events: seq<Event>, cursor: int, limit: int): Tailed {
    if limit < 0 then NegativeLimit
    else if cursor < 0 then NegativeCursor
    else if cursor >= |events| then Events([])
    else Events(events[cursor..Min(cursor + limit, |events|)])
  }

  function Min(a: int, b: int): int { if a <= b then a else b }

  const BATCH: nat := 100

  datatype Since = Absent | NotANumber | Number(n: int)

  datatype Start = From(cursor: nat) | InvalidLastEventId | InvalidCursor | InvalidSince

  /** Starting after the named event, by the first of the three parameters given. */
  predicate StartOk(events: seq<Event>, last: string, param: string, since: Since, r: Start) {
    if last != "" then
      if IdPattern(last) && (exists e <- events :: e.id == last)
      then r.From? && r.cursor > 0 && IsFirst(events, last, r.cursor - 1)
      else r == InvalidLastEventId
    else if param != "" then
      if IdPattern(param) && (exists e <- events :: e.id == param)
      then r.From? && r.cursor > 0 && IsFirst(events, param, r.cursor - 1)
      else r == InvalidCursor
    else match since
         case Absent => r == From(0)
         case NotANumber => r == InvalidSince
         case Number(n) => if n >= 0 then r == From(n) else r == InvalidSince
  }

  /** The events of a stretch of the log that a client is sent. */
  function Readable(events: seq<Event>): seq<Event> {
    if events == [] then [] else (if events[0].marshals then [events[0]] else []) + Readable(events[1..])
  }

  lemma {:induction false} ReadableJoin(a: seq<Event>, b: seq<Event>)
    ensures Readable(a + b) == Readable(a) + Readable(b)
    decreases |a|
  {
    if a == [] {
      assert a + b == b;
    } else {
      TailOfJoin(a, b);
      ReadableJoin(a[1..], b);
      Associative(if a[0].marshals then [a[0]] else [], Readable(a[1..]), Readable(b));
    }
  }

  lemma ReadableMore(a: seq<Event>, e: Event)
    ensures Readable(a + [e]) == Readable(a) + if e.marshals then [e] else []
  {
    ReadableJoin(a, [e]);
    assert [e][1..] == [];
  }

  function AfterPoll(events: seq<Event>, cursor: nat): nat {
    if cursor >= |events| then cursor else Min(cursor + BATCH, |events|)
  }

  // ---------------------------------------------------------------------------
  // Appenders, the endpoint, and a client that keeps coming back

  datatype Stamp = Stamp(ts: nat, counter: nat)

  /** The frames written to a connection and not yet read are lost with it. */
  datatype Conn = Conn(cursor: nat, wire: seq<Event>)

  /**
   `pending` are events with an identifier that wait for the log's lock; `stamps`
   remembers, event by event, the numbers its identifier was made from; `seen` is
   what the client has read and `last` the identifier it read last.
   */
  datatype World = World(
    log: seq<Event>, stamps: seq<Stamp>, maxEvents: nat, counter: nat, pending: map<nat, (Event, nat)>,
    conn: Option<Conn>, seen: seq<Event>, last: string)

  function Fresh(maxEvents: nat): World { World([], [], maxEvents, 0, map[], None, [], "") }

  datatype Step =
    | Issue(event: Event, ts: nat)    // an identifier is drawn for a new event
    | Append(c: nat)                  // the locked section of `Append`
    | IssueElsewhere                  // another run draws from the same counter
    | Connect(cursor: nat)
    | Poll
    | Deliver
    | Drop

  predicate Enabled(w: World, st: Step) {
    match st
    case Issue(e, ts) => Refusal(e).Accepted? && e.id == "" && InEra(ts)
    case Append(c) => c in w.pending
    case IssueElsewhere => true
    case Connect(k) => w.conn.None? && StartOk(w.log, w.last, "", Absent, From(k))
    case Poll => w.conn.Some?
    case Deliver => w.conn.Some? && w.conn.value.wire != []
    case Drop => w.conn.Some?
  }

  function Polled(log: seq<Event>, conn: Conn): Conn {
    var next := AfterPoll(log, conn.cursor);
    if conn.cursor <= |log| then Conn(next, conn.wire + Readable(log[conn.cursor..next])) else conn
  }

  function Next(w: World, st: Step): World
    requires Enabled(w, st)
  {
    match st
    case Issue(e, ts) =>
      var c := w.counter + 1;
      w.(counter := c, pending := w.pending[c := (Stamped(e, EventId(ts, c), ts), ts)])
    case Append(c) =>
      var log := Extended(w.log, w.maxEvents, w.pending[c].0);
      w.(pending := w.pending - {c}, log := log,
         stamps := if log == w.log then w.stamps else w.stamps + [Stamp(w.pending[c].1, c)])
    case IssueElsewhere => w.(counter := w.counter + 1)
    case Connect(k) => w.(conn := Some(Conn(k, [])))
    case Poll => w.(conn := Some(Polled(w.log, w.conn.value)))
    case Deliver =>
      var Conn(cursor, wire) := w.conn.value;
      w.(conn := Some(Conn(cursor, wire[1..])), seen := w.seen + [wire[0]], last := wire[0].id)
    case Drop => w.(conn := None)
  }

  ghost predicate Run(w: World, steps: seq<Step>, v: World)
    decreases |steps|
  {
    if steps == [] then w == v
    else Enabled(w, steps[0]) && Run(Next(w, steps[0]), steps[1..], v)
  }

  /** Every identifier in the log was made from a counter value of its own. */
  ghost predicate StampsOk(w: World) {
    && |w.stamps| == |w.log|
    && (forall i :: 0 <= i < |w.log| ==> StampOk(w, w.log[i], w.stamps[i]))
    && (forall i, j :: 0 <= i < j < |w.stamps| ==> w.stamps[i].counter != w.stamps[j].counter)
    && (forall c <- w.pending :: c <= w.counter && InEra(w.pending[c].1) &&
                                  w.pending[c].0.id == EventId(w.pending[c].1, c))
  }

  predicate StampOk(w: World, e: Event, st: Stamp) {
    InEra(st.ts) && st.counter <= w.counter && st.counter !in w.pending && e.id == EventId(st.ts, st.counter)
  }

  ghost predicate UniqueIds(log: seq<Event>) { forall i, j :: 0 <= i < j < |log| ==> log[i].id != log[j].id }

  lemma StampsMakeUnique(w: World)
    requires StampsOk(w)
    ensures UniqueIds(w.log) && forall i :: 0 <= i < |w.log| ==> IdPattern(w.log[i].id)
  {
    forall i | 0 <= i < |w.log| ensures IdPattern(w.log[i].id) {
      IdsMatchPattern(w.stamps[i].ts, w.stamps[i].counter);
    }
    forall i, j | 0 <= i < j < |w.log| ensures w.log[i].id != w.log[j].id {
      EraWidth(w.stamps[i].ts);
      EraWidth(w.stamps[j].ts);
      IdsDistinct(w.stamps[i].ts, w.stamps[i].counter, w.stamps[j].ts, w.stamps[j].counter);
    }
  }

  /** What the client has read starts the readable log, and a connection holds exactly what is between. */
  ghost predicate SeenOk(w: World) {
    && w.seen <= Readable(w.log)
    && (w.seen == [] ==> w.last == "") && (w.seen != [] ==> w.last == w.seen[|w.seen| - 1].id)
    && (w.conn.Some? ==> w.conn.value.cursor <= |w.log| &&
                         w.seen + w.conn.value.wire == Readable(w.log[..w.conn.value.cursor]))
  }

  ghost predicate Inv(w: World) { StampsOk(w) && SeenOk(w) }

  lemma ReadableOfPrefix(log: seq<Event>, k: nat)
    requires k <= |log|
    ensures Readable(log) == Readable(log[..k]) + Readable(log[k..])
  {
    assert log == log[..k] + log[k..];
    ReadableJoin(log[..k], log[k..]);
  }

  /** Where in the log the `n`th readable event stands. */
  lemma {:induction false} ReadablePosition(log: seq<Event>, n: nat) returns (k: nat)
    requires 0 < n <= |Readable(log)|
    ensures 0 < k <= |log| && log[k - 1] == Readable(log)[n - 1] && Readable(log[..k]) == Readable(log)[..n]
    decreases |log|
  {
    var short, e := log[..|log| - 1], log[|log| - 1];
    assert log == short + [e];
    ReadableMore(short, e);
    if n <= |Readable(short)| {
      k := ReadablePosition(short, n);
      assert log[..k] == short[..k];
    } else {
      k := |log|;
      assert log[..k] == log;
    }
  }

  lemma {:induction false} ReadableFrom(log: seq<Event>)
    ensures forall e <- Readable(log) :: e in log
  {
    if log != [] {
      ReadableFrom(log[1..]);
    }
  }

  /** Resuming after the event read last leaves out nothing and repeats nothing. */
  lemma ResumeExact(w: World, k: nat)
    requires Inv(w) && StartOk(w.log, w.last, "", Absent, From(k))
    ensures k <= |w.log| && w.seen == Readable(w.log[..k])
  {
    StampsMakeUnique(w);
    if w.seen != [] {
      var n := ReadablePosition(w.log, |w.seen|);
      assert w.seen == Readable(w.log)[..|w.seen|];
      assert w.log[n - 1].id == w.last && IdPattern(w.last);
    } else {
      assert Readable(w.log[..0]) == [];
    }
  }

  lemma AppendKeepsSeen(w: World, log: seq<Event>)
    requires SeenOk(w) && w.log <= log
    ensures SeenOk(w.(log := log))
  {
    ReadableOfPrefix(log, |w.log|);
    assert log[..|w.log|] == w.log;
    if w.conn.Some? {
      assert log[..w.conn.value.cursor] == w.log[..w.conn.value.cursor];
    }
  }

  lemma PollKeepsSeen(w: World)
    requires SeenOk(w) && w.conn.Some?
    ensures SeenOk(Next(w, Poll))
  {
    var c := w.conn.value.cursor;
    var next := AfterPoll(w.log, c);
    assert w.log[..next] == w.log[..c] + w.log[c..next];
    ReadableJoin(w.log[..c], w.log[c..next]);
  }

  lemma DeliverKeepsSeen(w: World)
    requires SeenOk(w) && Enabled(w, Deliver)
    ensures SeenOk(Next(w, Deliver))
  {
    var Conn(cursor, wire) := w.conn.value;
    assert w.seen + wire == w.seen + [wire[0]] + wire[1..];
    ReadableOfPrefix(w.log, cursor);
  }

  lemma StepKeepsStamps(w: World, st: Step)
    requires StampsOk(w) && Enabled(w, st)
    ensures StampsOk(Next(w, st))
  {
  }

  lemma StepKeepsInv(w: World, st: Step)
    requires Inv(w) && Enabled(w, st)
    ensures Inv(Next(w, st))
  {
    StepKeepsStamps(w, st);
    match st
    case Append(c) => AppendKeepsSeen(w, Next(w, st).log);
    case Connect(k) => ResumeExact(w, k);
    case Poll => PollKeepsSeen(w);
    case Deliver => DeliverKeepsSeen(w);
    case _ =>
  }

  lemma {:induction false} RunKeepsInv(w: World, steps: seq<Step>, v: World)
    requires Inv(w) && Run(w, steps, v)
    ensures Inv(v)
    decreases |steps|
  {
    if steps != [] {
      StepKeepsInv(w, steps[0]);
      RunKeepsInv(Next(w, steps[0]), steps[1..], v);
    }
  }

  /**
   However often the client is cut off, and whatever is appended meanwhile: it has
   read an initial part of the readable events, each once and in order; and all of
   them once its connection has caught up and delivered.
   */
  lemma ClientSeesEachOnce(maxEvents: nat, steps: seq<Step>, v: World)
    requires Run(Fresh(maxEvents), steps, v)
    ensures v.seen <= Readable(v.log) && UniqueIds(v.log)
    ensures v.conn.Some? && v.conn.value == Conn(|v.log|, []) ==> v.seen == Readable(v.log)
  {
    RunKeepsInv(Fresh(maxEvents), steps, v);
    StampsMakeUnique(v);
    assert v.log[..|v.log|] == v.log;
  }

  /** The endpoint never refuses the identifier a client read last, and resumes right behind it. */
  lemma ResumeNeverRefused(maxEvents: nat, steps: seq<Step>, v: World, r: Start)
    requires Run(Fresh(maxEvents), steps, v) && StartOk(v.log, v.last, "", Absent, r)
    ensures r.From? && r.cursor <= |v.log| && v.seen == Readable(v.log[..r.cursor])
  {
    RunKeepsInv(Fresh(maxEvents), steps, v);
    StampsMakeUnique(v);
    if v.seen != [] {
      ReadableFrom(v.log);
      assert v.seen[|v.seen| - 1] in Readable(v.log);
    }
    ResumeExact(v, r.cursor);
  }

  function Polls(log: seq<Event>, cursor: nat, n: nat): nat
    decreases n
  {
    if n == 0 then cursor else Polls(log, AfterPoll(log, cursor), n - 1)
  }

  /** One hundred events a tick: the cursor reaches the end of the log when it should, and stays there. */
  lemma {:induction false} PollsReachEnd(log: seq<Event>, cursor: nat, n: nat)
    requires cursor <= |log|
    ensures Polls(log, cursor, n) == Min(cursor + BATCH * n, |log|)
    decreases n
  {
    if n > 0 {
      PollsReachEnd(log, AfterPoll(log, cursor), n - 1);
    }
  }

  /** Resuming behind event `j` is exact exactly when no earlier event has its identifier; otherwise events repeat. */
  lemma ResumeExactIff(log: seq<Event>, j: nat, k: nat)
    requires j < |log| && IdPattern(log[j].id) && StartOk(log, log[j].id, "", Absent, From(k))
    ensures k <= j + 1
    ensures k == j + 1 <==> forall i :: 0 <= i < j ==> log[i].id != log[j].id
  {
    assert log[j] in log;
    assert exists e <- log :: e.id == log[j].id;
  }
}
