/**
 Server-sent events: the frames the control plane and the mock server write, and
 the two parsers of the transport package. Section 9.2.6 of the WHATWG HTML
 Standard gives the field rules; at end of stream the code dispatches a pending
 event, and that is followed here.
 */
module Sse {
  import opened Sequences
  import opened Wrappers

  datatype Event = Event(event: string, id: string, data: string, retry: int)

  /** An event under construction; `started` is `currentEvent != nil` of the batch parser. */
  datatype Pending = Pending(started: bool, event: string, id: string, retry: int, data: seq<string>)

  const FRESH := Pending(false, "", "", 0, [])

  type Atoi = string -> Option<int>

  function Join(ss: seq<string>): string {
    if ss == [] then "" else if |ss| == 1 then ss[0] else ss[0] + "\n" + Join(ss[1..])
  }

  function Dispatch(p: Pending): Event { Event(p.event, p.id, Join(p.data), p.retry) }

  predicate Dispatchable(p: Pending) { p.data != [] || p.event != "" || p.id != "" }

  // ---------------------------------------------------------------------------
  // Lines and fields

  /** The text cut at every newline; the last piece is the one read together with EOF. */
  function Split(s: string): (r: seq<string>)
    ensures r != [] && forall l <- r :: '\n' !in l
  {
    if s == [] then [""]
    else
      var r := Split(s[1..]);
      if s[0] == '\n' then [""] + r else [[s[0]] + r[0]] + r[1..]
  }

  function Chomp(l: string): string {
    if l != [] && l[|l| - 1] == '\r' then l[..|l| - 1] else l
  }

  function Lines(s: string): (r: seq<string>)
    ensures r != [] && forall l <- r :: '\n' !in l
  {
    var r := Split(s);
    assert forall l <- r :: '\n' !in Chomp(l);
    seq(|r|, i requires 0 <= i < |r| => Chomp(r[i]))
  }

  function ColonAt(l: string): (i: nat)
    ensures i <= |l| && ':' !in l[..i] && (i < |l| ==> l[i] == ':')
  {
    if l == [] || l[0] == ':' then 0
    else
      var i := 1 + ColonAt(l[1..]);
      assert l[..i] == [l[0]] + l[1..][..i - 1];
      i
  }

  function FieldName(l: string): string { l[..ColonAt(l)] }

  function FieldValue(l: string): string {
    var i := ColonAt(l);
    if i == |l| then ""
    else if i + 1 < |l| && l[i + 1] == ' ' then l[i + 2..]
    else l[i + 1..]
  }

  /** The effect of one field line, the same in both parsers. */
  function Take(atoi: Atoi, p: Pending, l: string): Pending {
    var name, value := FieldName(l), FieldValue(l);
    var q := p.(started := true);
    if name == "event" then q.(event := value)
    else if name == "data" then q.(data := q.data + [value])
    else if name == "id" then (if '\0' in value then q else q.(id := value))
    else if name == "retry" then (if atoi(value).Some? then q.(retry := atoi(value).value) else q)
    else q
  }

  // ---------------------------------------------------------------------------
  // The two parsers, line by line

  /** What one line does: the event left under construction, and what was dispatched. */
  datatype Outcome = Outcome(next: Pending, events: seq<Event>)

  function BatchLine(atoi: Atoi, p: Pending, l: string, eof: bool): Outcome {
    if l == "" then Outcome(FRESH, if p.started then [Dispatch(p)] else [])
    else if l[0] == ':' then Outcome(p, [])
    else
      var q := Take(atoi, p, l);
      Outcome(q, if eof then [Dispatch(q)] else [])
  }

  function StreamLine(atoi: Atoi, p: Pending, l: string, eof: bool): Outcome {
    if l == "" then
      if Dispatchable(p) then Outcome(FRESH, [Dispatch(p)]) else Outcome(p, [])
    else if l[0] == ':' then Outcome(p, [])
    else
      var q := Take(atoi, p, l);
      Outcome(q, if eof && Dispatchable(q) then [Dispatch(q)] else [])
  }

  /** All that `ParseSSEFromBytes` still returns; the last line comes with EOF. */
  function ParseFrom(atoi: Atoi, ls: seq<string>, p: Pending): seq<Event>
    decreases |ls|
  {
    if ls == [] then []
    else
      var o := BatchLine(atoi, p, ls[0], |ls| == 1);
      o.events + ParseFrom(atoi, ls[1..], o.next)
  }

  /** All that repeated calls of `ReadEvent` still return. */
  function ReadFrom(atoi: Atoi, ls: seq<string>, p: Pending): seq<Event>
    decreases |ls|
  {
    if ls == [] then []
    else
      var o := StreamLine(atoi, p, ls[0], |ls| == 1);
      o.events + ReadFrom(atoi, ls[1..], o.next)
  }

  ghost predicate Coherent(p: Pending) { !p.started ==> p == FRESH }

  /** `ParseSSEFromBytes`. */
  method ParseSSEFromBytes(atoi: Atoi, bytes: string) returns (events: seq<Event>)
    ensures events == ParseFrom(atoi, Lines(bytes), FRESH)
  {
    events := ParseLines(atoi, Lines(bytes));
  }

  lemma ParseStep(atoi: Atoi, done: seq<Event>, rest: seq<string>, p: Pending)
    requires rest != []
    ensures var o := BatchLine(atoi, p, rest[0], |rest| == 1);
            done + ParseFrom(atoi, rest, p) == (done + o.events) + ParseFrom(atoi, rest[1..], o.next)
  {
    var o := BatchLine(atoi, p, rest[0], |rest| == 1);
    Associative(done, o.events, ParseFrom(atoi, rest[1..], o.next));
  }

  method ParseLines(atoi: Atoi, ls: seq<string>) returns (events: seq<Event>)
    ensures events == ParseFrom(atoi, ls, FRESH)
  {
    var rest := ls;
    events := [];
    var current := FRESH;
    while rest != []
      invariant Coherent(current)
      invariant ParseFrom(atoi, ls, FRESH) == events + ParseFrom(atoi, rest, current)
      decreases |rest|
    {
      var line, eof := rest[0], |rest| == 1;
      ghost var o, done := BatchLine(atoi, current, line, eof), events;
      ParseStep(atoi, events, rest, current);
      rest := rest[1..];
      if line == "" {
        if current.started {
          events := events + [Dispatch(current)];
          current := FRESH;
        }
      } else if line[0] != ':' {
        current := Take(atoi, current, line);
        if eof {
          events := events + [Dispatch(current)];
        }
      }
      assert current == o.next && events == done + o.events;
    }
  }

  lemma NextLine(atoi: Atoi, ls: seq<string>, used: nat, p: Pending)
    requires used < |ls|
    ensures ls[used..][1..] == ls[used + 1..]
    ensures var o := StreamLine(atoi, p, ls[used], |ls| == used + 1);
            ReadFrom(atoi, ls[used..], p) == o.events + ReadFrom(atoi, ls[used + 1..], o.next)
  {
    assert ls[used..][0] == ls[used] && ls[used..][1..] == ls[used + 1..];
  }

  predicate IsHex(c: char) { '0' <= c <= '9' || 'a' <= c <= 'f' }

  predicate ValidEventId(id: string) {
    |id| > 4 && id[..4] == "evt_" && forall c <- id[4..] :: IsHex(c)
  }

  /** An identifier is well formed exactly when it is `evt_` and at least one hexadecimal digit. */
  lemma ValidEventIdIff(id: string)
    ensures ValidEventId(id) <==>
            |id| >= 5 && id[..4] == ['e', 'v', 't', '_'] &&
            forall i :: 4 <= i < |id| ==> '0' <= id[i] <= '9' || 'a' <= id[i] <= 'f'
  {
    if |id| >= 5 {
      if forall i :: 4 <= i < |id| ==> '0' <= id[i] <= '9' || 'a' <= id[i] <= 'f' {
        assert forall c <- id[4..] :: IsHex(c);
      }
      forall i | 4 <= i < |id| && !IsHex(id[i]) ensures !ValidEventId(id) {
        assert id[4..][i - 4] == id[i] && id[i] in id[4..];
      }
    }
  }

  datatype Reading = Read(event: Event) | EndOfStream | StreamClosed | StreamStalled

  /**
   What a call found, having used that many lines: the next event of the stream, or
   its end, or a stall. The timer lets the first `inTime` reads through; a stall
   forgets `lost`, the event that the lines used had begun.
   */
  predicate Progress(atoi: Atoi, ls: seq<string>, inTime: nat, r: Reading, used: nat, lost: Pending) {
    && used <= |ls| && used <= inTime
    && match r
       case Read(event) => used > 0 && ReadFrom(atoi, ls, FRESH) == [event] + ReadFrom(atoi, ls[used..], FRESH)
       case StreamStalled =>
         used == inTime && (used == 0 ==> lost == FRESH) &&
         ReadFrom(atoi, ls, FRESH) == ReadFrom(atoi, ls[used..], lost)
       case _ => ReadFrom(atoi, ls, FRESH) == []
  }

  /** The loop of `ReadEvent`, on the lines that the channel will deliver. */
  method NextEvent(atoi: Atoi, ls: seq<string>, inTime: nat) returns (r: Reading, used: nat, ghost lost: Pending)
    ensures !r.StreamClosed? && Progress(atoi, ls, inTime, r, used, lost)
  {
    used, lost := 0, FRESH;
    var event := FRESH;
    assert ls[0..] == ls;
    while true
      invariant used <= |ls| && used <= inTime && (used == |ls| || used == 0 ==> event == FRESH)
      invariant ReadFrom(atoi, ls, FRESH) == ReadFrom(atoi, ls[used..], event)
      decreases |ls| - used
    {
      if used == inTime {
        return StreamStalled, used, event;
      }
      if used == |ls| {
        return EndOfStream, used, FRESH;
      }
      NextLine(atoi, ls, used, event);
      var line, eof := ls[used], |ls| == used + 1;
      used := used + 1;
      if line == "" {
        if Dispatchable(event) {
          return Read(Dispatch(event)), used, FRESH;
        }
        if eof {
          return EndOfStream, used, FRESH;
        }
        continue;
      }
      if line[0] == ':' {
        if eof {
          return EndOfStream, used, FRESH;
        }
        continue;
      }
      event := Take(atoi, event, line);
      if eof {
        if Dispatchable(event) {
          return Read(Dispatch(event)), used, FRESH;
        }
        return EndOfStream, used, FRESH;
      }
    }
  }

  /** The streaming decoder; `lineCh` holds the lines its reader goroutine still delivers. */
  class SSEDecoder {
    var lineCh: seq<string>
    var lastEventID: string
    var closed: bool

    constructor (bytes: string)
      ensures lineCh == Lines(bytes) && lastEventID == "" && !closed
    {
      lineCh := Lines(bytes);
      lastEventID := "";
      closed := false;
    }

    method Close()
      modifies this`closed
      ensures closed
    {
      closed := true;
    }

    /** A dispatched identifier is kept if it is well formed. */
    method Remember(id: string)
      modifies this`lastEventID
      ensures lastEventID == if ValidEventId(id) then id else old(lastEventID)
    {
      if id != "" && ValidEventId(id) {
        lastEventID := id;
      }
    }

    /** `ReadEvent`: the lines it used are gone, whatever it found. */
    method ReadEvent(atoi: Atoi, inTime: nat) returns (r: Reading, ghost used: nat, ghost lost: Pending)
      modifies this`lineCh, this`lastEventID
      ensures closed ==> r == StreamClosed && used == 0
      ensures !closed ==> !r.StreamClosed? && Progress(atoi, old(lineCh), inTime, r, used, lost)
      ensures used <= |old(lineCh)| && lineCh == old(lineCh)[used..]
      ensures lastEventID == if r.Read? && ValidEventId(r.event.id) then r.event.id else old(lastEventID)
    {
      if closed {
        return StreamClosed, 0, FRESH;
      }
      var taken;
      r, taken, lost := NextEvent(atoi, lineCh, inTime);
      used := taken;
      lineCh := lineCh[taken..];
      if r.Read? {
        Remember(r.event.id);
      }
    }
  }

  // ---------------------------------------------------------------------------
  // Either parser

  function Line(stream: bool, atoi: Atoi, p: Pending, l: string, eof: bool): Outcome {
    if stream then StreamLine(atoi, p, l, eof) else BatchLine(atoi, p, l, eof)
  }

  /** All that the streaming parser, or the batch parser, still returns. */
  function Events(stream: bool, atoi: Atoi, ls: seq<string>, p: Pending): seq<Event> {
    if stream then ReadFrom(atoi, ls, p) else ParseFrom(atoi, ls, p)
  }

  lemma EventsCons(stream: bool, atoi: Atoi, l: string, ls: seq<string>, p: Pending)
    ensures var o := Line(stream, atoi, p, l, ls == []);
            Events(stream, atoi, [l] + ls, p) == o.events + Events(stream, atoi, ls, o.next)
  {
    assert ([l] + ls)[1..] == ls;
  }

  // ---------------------------------------------------------------------------
  // What a block of lines says, told without the functions that read it

  /** A line as it may be written: a comment, a field with or without a space after its colon, a bare name. */
  datatype Entry = Note(text: string) | Spaced(name: string, value: string) | Tight(name: string, value: string)
                 | Bare(name: string)

  function Text(e: Entry): string {
    match e
    case Note(text) => ":" + text
    case Spaced(name, value) => name + ": " + value
    case Tight(name, value) => name + ":" + value
    case Bare(name) => name
  }

  predicate Proper(e: Entry) {
    e.Note? || (e.name != "" && ':' !in e.name && (e.Tight? && e.value != "" ==> e.value[0] != ' '))
  }

  function ValueOf(e: Entry): string
    requires !e.Note?
  {
    if e.Bare? then "" else e.value
  }

  predicate Names(e: Entry, name: string) { !e.Note? && e.name == name }

  /** The values of all fields of that name, in order. */
  function Values(es: seq<Entry>, name: string): seq<string> {
    if es == [] then []
    else Values(es[..|es| - 1], name) + (if Names(es[|es| - 1], name) then [ValueOf(es[|es| - 1])] else [])
  }

  function LastEvent(es: seq<Entry>): string {
    if es == [] then ""
    else if Names(es[|es| - 1], "event") then ValueOf(es[|es| - 1]) else LastEvent(es[..|es| - 1])
  }

  /** The last identifier without a NUL. */
  function LastId(es: seq<Entry>): string {
    if es == [] then ""
    else if Names(es[|es| - 1], "id") && '\0' !in ValueOf(es[|es| - 1]) then ValueOf(es[|es| - 1])
    else LastId(es[..|es| - 1])
  }

  /** The last retry that is a number. */
  function LastRetry(atoi: Atoi, es: seq<Entry>): int {
    if es == [] then 0
    else if Names(es[|es| - 1], "retry") && atoi(ValueOf(es[|es| - 1])).Some?
    then atoi(ValueOf(es[|es| - 1])).value
    else LastRetry(atoi, es[..|es| - 1])
  }

  predicate SomeField(es: seq<Entry>) { exists e <- es :: !e.Note? }

  function Texts(es: seq<Entry>): seq<string> { seq(|es|, i requires 0 <= i < |es| => Text(es[i])) }

  lemma {:induction false} ColonIs(name: string, rest: string)
    requires ':' !in name
    ensures ColonAt(name + ":" + rest) == |name|
  {
    if name != [] {
      assert (name + ":" + rest)[1..] == name[1..] + ":" + rest;
      ColonIs(name[1..], rest);
    }
  }

  lemma {:induction false} NoColon(name: string)
    requires ':' !in name
    ensures ColonAt(name) == |name|
  {
    if name != [] {
      NoColon(name[1..]);
    }
  }

  /** The name and value of a field, however it is written. */
  lemma FieldReads(e: Entry)
    requires Proper(e) && !e.Note?
    ensures var l := Text(e); l != "" && l[0] != ':' && FieldName(l) == e.name && FieldValue(l) == ValueOf(e)
  {
    var l := Text(e);
    assert l[0] == e.name[0] && l[..|e.name|] == e.name;
    match e
    case Bare(name) => NoColon(name);
    case Tight(name, value) =>
      ColonIs(name, value);
      assert l[|name| + 1..] == value;
    case Spaced(name, value) =>
      ColonIs(name, " " + value);
      assert l == name + ":" + (" " + value) && l[|name| + 2..] == value;
  }

  /** The event under construction after some lines. */
  function Built(atoi: Atoi, p: Pending, es: seq<Entry>): Pending {
    if es == [] then p
    else
      var q, e := Built(atoi, p, es[..|es| - 1]), es[|es| - 1];
      if e.Note? then q else Take(atoi, q, Text(e))
  }

  /** One field has its effect and no other. */
  lemma TakeIs(atoi: Atoi, p: Pending, e: Entry)
    requires Proper(e) && !e.Note?
    ensures var v := ValueOf(e);
            Take(atoi, p, Text(e)) ==
            Pending(true, if e.name == "event" then v else p.event,
                    if e.name == "id" && '\0' !in v then v else p.id,
                    if e.name == "retry" && atoi(v).Some? then atoi(v).value else p.retry,
                    if e.name == "data" then p.data + [v] else p.data)
  {
    FieldReads(e);
  }

  lemma SomeFieldSnoc(some: seq<Entry>, e: Entry)
    ensures SomeField(some + [e]) <==> SomeField(some) || !e.Note?
  {
    if SomeField(some) {
      var x :| x in some && !x.Note?;
      assert x in some + [e];
    }
    assert (some + [e])[|some|] == e;
  }

  /** Each field has its effect: the last event name, identifier and retry count, and all data, in order. */
  lemma {:induction false} BuiltIs(atoi: Atoi, es: seq<Entry>)
    requires forall e <- es :: Proper(e)
    ensures Built(atoi, FRESH, es) ==
            Pending(SomeField(es), LastEvent(es), LastId(es), LastRetry(atoi, es), Values(es, "data"))
  {
    if es != [] {
      var some, e := es[..|es| - 1], es[|es| - 1];
      assert es == some + [e] && e in es;
      SomeFieldSnoc(some, e);
      BuiltIs(atoi, some);
      if !e.Note? {
        TakeIs(atoi, Built(atoi, FRESH, some), e);
      }
    }
  }

  lemma TextsSnoc(es: seq<Entry>, rest: seq<string>)
    requires es != []
    ensures Texts(es) + rest == Texts(es[..|es| - 1]) + ([Text(es[|es| - 1])] + rest)
  {
  }

  lemma {:induction false} LinesBuild(stream: bool, atoi: Atoi, es: seq<Entry>, rest: seq<string>, p: Pending)
    requires (forall e <- es :: Proper(e)) && rest != []
    ensures Events(stream, atoi, Texts(es) + rest, p) == Events(stream, atoi, rest, Built(atoi, p, es))
    decreases |es|
  {
    if es == [] {
      assert Texts(es) + rest == rest;
    } else {
      var some, e := es[..|es| - 1], es[|es| - 1];
      assert e in es;
      TextsSnoc(es, rest);
      LinesBuild(stream, atoi, some, [Text(e)] + rest, p);
      EventsCons(stream, atoi, Text(e), rest, Built(atoi, p, some));
      if !e.Note? {
        FieldReads(e);
      }
    }
  }

  lemma {:induction false} SplitWhole(s: string)
    requires '\n' !in s
    ensures Split(s) == [s]
  {
    if s != [] {
      SplitWhole(s[1..]);
      assert [s[0]] + s[1..] == s;
    }
  }

  lemma {:induction false} SplitLine(l: string, rest: string)
    requires '\n' !in l
    ensures Split(l + "\n" + rest) == [l] + Split(rest)
  {
    var s := l + "\n" + rest;
    if l == [] {
      assert s == "\n" + rest && s[1..] == rest;
    } else {
      assert s[0] == l[0] && s[1..] == l[1..] + "\n" + rest;
      SplitLine(l[1..], rest);
      assert [l[0]] + l[1..] == l;
    }
  }

  /** Cut at its newlines, joined data is the lines it was joined from, in order. */
  lemma {:induction false} JoinThenSplit(ds: seq<string>)
    requires ds != [] && forall d <- ds :: '\n' !in d
    ensures Split(Join(ds)) == ds
  {
    if |ds| == 1 {
      SplitWhole(ds[0]);
    } else {
      assert forall d <- ds[1..] :: d in ds;
      JoinThenSplit(ds[1..]);
      SplitLine(ds[0], Join(ds[1..]));
    }
  }

  /** `data` cut at its newlines is `ds`. */
  ghost predicate Carries(data: string, ds: seq<string>) { if ds == [] then data == "" else Split(data) == ds }

  lemma {:induction false} ValuesAreLines(es: seq<Entry>, name: string)
    requires forall e <- es :: !e.Note? ==> '\n' !in ValueOf(e)
    ensures forall d <- Values(es, name) :: '\n' !in d
  {
    if es != [] {
      assert es[|es| - 1] in es && forall e <- es[..|es| - 1] :: e in es;
      ValuesAreLines(es[..|es| - 1], name);
    }
  }

  /**
   Any lines and then a blank one. If they give data, an event name or an identifier,
   either parser returns one event, with the last name, the last good identifier and
   retry, and all the data in order, and starts afresh. If they do not, the batch
   parser returns an empty event, unless all were comments, and the streaming parser
   goes on.
   */
  lemma BlockReads(stream: bool, atoi: Atoi, es: seq<Entry>, after: seq<string>) returns (data: string)
    requires (forall e <- es :: Proper(e)) && forall e <- es :: !e.Note? ==> '\n' !in ValueOf(e)
    ensures Carries(data, Values(es, "data"))
    ensures var read := Events(stream, atoi, Texts(es) + ([""] + after), FRESH);
            var retry := LastRetry(atoi, es);
            if Values(es, "data") != [] || LastEvent(es) != "" || LastId(es) != ""
            then read == [Event(LastEvent(es), LastId(es), data, retry)] + Events(stream, atoi, after, FRESH)
            else if stream then read == ReadFrom(atoi, after, Pending(SomeField(es), "", "", retry, []))
            else read == (if SomeField(es) then [Event("", "", "", retry)] else []) + ParseFrom(atoi, after, FRESH)
  {
    var p := Built(atoi, FRESH, es);
    LinesBuild(stream, atoi, es, [""] + after, FRESH);
    EventsCons(stream, atoi, "", after, p);
    BuiltIs(atoi, es);
    data := Join(Values(es, "data"));
    DataCarried(es);
    if !SomeField(es) {
      NoFieldNothing(es);
    }
  }

  lemma {:induction false} NoFieldNothing(es: seq<Entry>)
    requires !SomeField(es)
    ensures Values(es, "data") == [] && LastEvent(es) == "" && LastId(es) == ""
  {
    if es != [] {
      var some, e := es[..|es| - 1], es[|es| - 1];
      assert e in es && forall x <- some :: x in es;
      NoFieldNothing(some);
    }
  }

  lemma TextsLast(es: seq<Entry>)
    requires es != []
    ensures Texts(es) == Texts(es[..|es| - 1]) + [Text(es[|es| - 1])]
  {
  }

  lemma LastLine(stream: bool, atoi: Atoi, l: string, p: Pending)
    ensures Events(stream, atoi, [l], p) == Line(stream, atoi, p, l, true).events
  {
    assert [l] + [] == [l];
    EventsCons(stream, atoi, l, [], p);
  }

  lemma LinesEnd(stream: bool, atoi: Atoi, es: seq<Entry>)
    requires (forall e <- es :: Proper(e)) && es != [] && !es[|es| - 1].Note?
    ensures var p := Built(atoi, FRESH, es);
            Events(stream, atoi, Texts(es), FRESH) == if Dispatchable(p) || !stream then [Dispatch(p)] else []
  {
    var some, e := es[..|es| - 1], es[|es| - 1];
    TextsLast(es);
    LinesBuild(stream, atoi, some, [Text(e)], FRESH);
    LastLine(stream, atoi, Text(e), Built(atoi, FRESH, some));
    FieldReads(e);
  }

  /** The same at the end of the stream, where the last line is a field with no blank line after it. */
  lemma BlockAtEnd(stream: bool, atoi: Atoi, es: seq<Entry>) returns (data: string)
    requires (forall e <- es :: Proper(e)) && forall e <- es :: !e.Note? ==> '\n' !in ValueOf(e)
    requires es != [] && !es[|es| - 1].Note?
    ensures Carries(data, Values(es, "data"))
    ensures var given := Values(es, "data") != [] || LastEvent(es) != "" || LastId(es) != "";
            Events(stream, atoi, Texts(es), FRESH) ==
            if given || !stream then [Event(LastEvent(es), LastId(es), data, LastRetry(atoi, es))] else []
  {
    LinesEnd(stream, atoi, es);
    BuiltIs(atoi, es);
    data := Join(Values(es, "data"));
    DataCarried(es);
  }

  lemma DataCarried(es: seq<Entry>)
    requires forall e <- es :: !e.Note? ==> '\n' !in ValueOf(e)
    ensures Carries(Join(Values(es, "data")), Values(es, "data"))
  {
    if Values(es, "data") != [] {
      ValuesAreLines(es, "data");
      JoinThenSplit(Values(es, "data"));
    }
  }

  // ---------------------------------------------------------------------------
  // When the two parsers agree

  /** A dispatch point reached with neither data, nor an event name, nor an id. */
  predicate Hollow(atoi: Atoi, p: Pending, l: string, eof: bool) {
    if l == "" then p.started && !Dispatchable(p)
    else eof && l[0] != ':' && !Dispatchable(Take(atoi, p, l))
  }

  predicate NoHollowBlock(atoi: Atoi, ls: seq<string>, p: Pending)
    decreases |ls|
  {
    ls == [] ||
    (!Hollow(atoi, p, ls[0], |ls| == 1) &&
     NoHollowBlock(atoi, ls[1..], BatchLine(atoi, p, ls[0], |ls| == 1).next))
  }

  lemma {:induction false} AgreeWhenSolid(atoi: Atoi, ls: seq<string>, p: Pending)
    requires Coherent(p) && NoHollowBlock(atoi, ls, p)
    ensures ParseFrom(atoi, ls, p) == ReadFrom(atoi, ls, p)
    decreases |ls|
  {
    if ls != [] {
      AgreeWhenSolid(atoi, ls[1..], BatchLine(atoi, p, ls[0], |ls| == 1).next);
    }
  }

  /** Same name, id and data; the streaming parser may carry a stale retry. */
  ghost predicate Alike(p: Pending, q: Pending) {
    p.event == q.event && p.id == q.id && p.data == q.data && (Dispatchable(p) ==> p.started)
  }

  lemma {:induction false} NeverFewer(atoi: Atoi, ls: seq<string>, p: Pending, q: Pending)
    requires Alike(p, q)
    ensures |ParseFrom(atoi, ls, p)| >= |ReadFrom(atoi, ls, q)|
    decreases |ls|
  {
    if ls != [] {
      NeverFewer(atoi, ls[1..], BatchLine(atoi, p, ls[0], |ls| == 1).next,
                 StreamLine(atoi, q, ls[0], |ls| == 1).next);
    }
  }

  lemma {:induction false} MoreWhenHollow(atoi: Atoi, ls: seq<string>, p: Pending)
    requires Coherent(p) && !NoHollowBlock(atoi, ls, p)
    ensures |ParseFrom(atoi, ls, p)| > |ReadFrom(atoi, ls, p)|
    decreases |ls|
  {
    var o, o' := BatchLine(atoi, p, ls[0], |ls| == 1), StreamLine(atoi, p, ls[0], |ls| == 1);
    if Hollow(atoi, p, ls[0], |ls| == 1) {
      NeverFewer(atoi, ls[1..], o.next, o'.next);
    } else {
      MoreWhenHollow(atoi, ls[1..], o.next);
    }
  }

  /** On any bytes the two parsers return the same events exactly when no block is hollow. */
  lemma ParsersAgree(atoi: Atoi, bytes: string)
    ensures ParseFrom(atoi, Lines(bytes), FRESH) == ReadFrom(atoi, Lines(bytes), FRESH) <==>
            NoHollowBlock(atoi, Lines(bytes), FRESH)
  {
    if NoHollowBlock(atoi, Lines(bytes), FRESH) {
      AgreeWhenSolid(atoi, Lines(bytes), FRESH);
    } else {
      MoreWhenHollow(atoi, Lines(bytes), FRESH);
    }
  }

  // ---------------------------------------------------------------------------
  // The writers

  /** What is written to a stream: run events, keep-alive comments, mock server messages. */
  datatype Frame = RunEvent(id: string, data: string) | KeepAlive | Message(data: string)

  function Field(name: string, value: string): string { name + ": " + value }

  function Write(f: Frame): string {
    match f
    case RunEvent(id, data) =>
      Field("event", "run_event") + "\n" + Field("id", id) + "\n" + Field("data", data) + "\n\n"
    case KeepAlive => ":keepalive\n\n"
    case Message(data) => Field("data", data) + "\n\n"
  }

  function WriteAll(fs: seq<Frame>): string {
    if fs == [] then "" else Write(fs[0]) + WriteAll(fs[1..])
  }

  function MeantBy(f: Frame): seq<Event> {
    match f
    case RunEvent(id, data) => [Event("run_event", id, data, 0)]
    case KeepAlive => []
    case Message(data) => [Event("", "", data, 0)]
  }

  function Meant(fs: seq<Frame>): seq<Event> {
    if fs == [] then [] else MeantBy(fs[0]) + Meant(fs[1..])
  }

  predicate OneLine(s: string) { '\n' !in s && (s != [] ==> s[|s| - 1] != '\r') }

  /** No payload holds a newline or ends in a carriage return, and no id holds a NUL. */
  predicate Clean(f: Frame) {
    match f
    case RunEvent(id, data) => OneLine(id) && '\0' !in id && OneLine(data)
    case KeepAlive => true
    case Message(data) => OneLine(data)
  }

  predicate Unbroken(f: Frame) {
    match f
    case RunEvent(id, data) => '\n' !in id && '\n' !in data
    case KeepAlive => true
    case Message(data) => '\n' !in data
  }

  /** What a frame without newlines really parses to. */
  function ReadBack(f: Frame): seq<Event> {
    match f
    case RunEvent(id, data) =>
      [Event("run_event", if '\0' in Chomp(id) then "" else Chomp(id), Chomp(data), 0)]
    case KeepAlive => []
    case Message(data) => [Event("", "", Chomp(data), 0)]
  }

  lemma LinesCons(l: string, rest: string)
    requires '\n' !in l
    ensures Lines(l + "\n" + rest) == [Chomp(l)] + Lines(rest)
  {
    SplitLine(l, rest);
  }

  lemma FieldSplits(name: string, value: string)
    requires ':' !in name
    ensures FieldName(Field(name, value)) == name && FieldValue(Field(name, value)) == value
  {
    var l := Field(name, value);
    ColonIs(name, " " + value);
    assert l == name + ":" + (" " + value) && l[..|name|] == name && l[|name| + 2..] == value;
  }

  /** A written field line loses at most one trailing carriage return. */
  lemma FieldLine(name: string, value: string, rest: string)
    requires '\n' !in name && '\n' !in value
    ensures Lines(Field(name, value) + "\n" + rest) == [Field(name, Chomp(value))] + Lines(rest)
  {
    var l := Field(name, value);
    assert value != [] ==> l[|l| - 1] == value[|value| - 1];
    assert Chomp(l) == Field(name, Chomp(value));
    LinesCons(l, rest);
  }

  lemma BlankLine(rest: string)
    ensures Lines("\n" + rest) == [""] + Lines(rest)
  {
    LinesCons("", rest);
    assert "" + "\n" + rest == "\n" + rest;
  }

  function FrameLines(f: Frame): seq<string> {
    match f
    case RunEvent(id, data) =>
      [Field("event", "run_event"), Field("id", Chomp(id)), Field("data", Chomp(data)), ""]
    case KeepAlive => [":keepalive", ""]
    case Message(data) => [Field("data", Chomp(data)), ""]
  }

  lemma WrittenLines(f: Frame, rest: string)
    requires Unbroken(f)
    ensures Lines(Write(f) + rest) == FrameLines(f) + Lines(rest)
  {
    match f
    case KeepAlive => WrittenKeepAlive(rest);
    case Message(_) => WrittenMessage(f, rest);
    case RunEvent(_, data) =>
      WrittenRunEvent(f, rest);
      WrittenData(data, rest);
  }

  lemma {:induction false} WrittenKeepAlive(rest: string)
    ensures Lines(Write(KeepAlive) + rest) == [":keepalive", ""] + Lines(rest)
  {
    BlankLine(rest);
    assert Write(KeepAlive) + rest == ":keepalive" + "\n" + ("\n" + rest);
    LinesCons(":keepalive", "\n" + rest);
  }

  lemma {:induction false} WrittenData(data: string, rest: string)
    requires '\n' !in data
    ensures Lines(Field("data", data) + "\n" + ("\n" + rest)) == [Field("data", Chomp(data)), ""] + Lines(rest)
  {
    BlankLine(rest);
    FieldLine("data", data, "\n" + rest);
  }

  lemma {:induction false} WrittenMessage(f: Frame, rest: string)
    requires f.Message? && Unbroken(f)
    ensures Lines(Write(f) + rest) == FrameLines(f) + Lines(rest)
  {
    assert Write(f) + rest == Field("data", f.data) + "\n" + ("\n" + rest);
    WrittenData(f.data, rest);
  }

  /** The two lines a run event starts with. */
  lemma WrittenRunEvent(f: Frame, rest: string)
    requires f.RunEvent? && '\n' !in f.id
    ensures Lines(Write(f) + rest) ==
            [Field("event", "run_event"), Field("id", Chomp(f.id))] +
            Lines(Field("data", f.data) + "\n" + ("\n" + rest))
  {
    var r2 := Field("data", f.data) + "\n" + ("\n" + rest);
    var r1 := Field("id", f.id) + "\n" + r2;
    assert Write(f) + rest == Field("event", "run_event") + "\n" + r1;
    FieldLine("event", "run_event", r1);
    FieldLine("id", f.id, r2);
  }

  /** Feeding one field line. */
  lemma OneField(stream: bool, atoi: Atoi, name: string, value: string, ls: seq<string>, p: Pending)
    requires name != [] && ':' !in name && ls != []
    ensures var l := Field(name, value);
            Events(stream, atoi, [l] + ls, p) == Events(stream, atoi, ls, Take(atoi, p, l)) &&
            NoHollowBlock(atoi, [l] + ls, p) == NoHollowBlock(atoi, ls, Take(atoi, p, l)) &&
            FieldName(l) == name && FieldValue(l) == value
  {
    var l := Field(name, value);
    FieldSplits(name, value);
    EventsCons(stream, atoi, l, ls, p);
    assert l[0] == name[0] && ([l] + ls)[1..] == ls;
  }

  lemma Blank(stream: bool, atoi: Atoi, ls: seq<string>, p: Pending)
    requires ls != [] && p.started && p.data != []
    ensures Events(stream, atoi, [""] + ls, p) == [Dispatch(p)] + Events(stream, atoi, ls, FRESH)
    ensures NoHollowBlock(atoi, [""] + ls, p) == NoHollowBlock(atoi, ls, FRESH)
  {
    EventsCons(stream, atoi, "", ls, p);
    assert ([""] + ls)[1..] == ls;
  }

  /** A run event under construction, before its data. */
  function Headed(id: string): Pending { Pending(true, "run_event", if '\0' in id then "" else id, 0, []) }

  lemma TakesHead(atoi: Atoi, id: string)
    ensures Take(atoi, Take(atoi, FRESH, Field("event", "run_event")), Field("id", id)) == Headed(id)
  {
    FieldSplits("event", "run_event");
    FieldSplits("id", id);
  }

  /** The two lines in front of a run event's data. */
  lemma RunEventHead(stream: bool, atoi: Atoi, id: string, ls: seq<string>)
    requires ls != []
    ensures var all := [Field("event", "run_event"), Field("id", id)] + ls;
            && Events(stream, atoi, all, FRESH) == Events(stream, atoi, ls, Headed(id))
            && NoHollowBlock(atoi, all, FRESH) == NoHollowBlock(atoi, ls, Headed(id))
  {
    var l2 := [Field("id", id)] + ls;
    assert [Field("event", "run_event"), Field("id", id)] + ls == [Field("event", "run_event")] + l2;
    OneField(stream, atoi, "event", "run_event", l2, FRESH);
    OneField(stream, atoi, "id", id, ls, Take(atoi, FRESH, Field("event", "run_event")));
    TakesHead(atoi, id);
  }

  /** One data line and the blank line end the event. */
  lemma DataEnds(stream: bool, atoi: Atoi, data: string, ls: seq<string>, p: Pending)
    requires ls != [] && p.data == []
    ensures var all := [Field("data", data), ""] + ls;
            && Events(stream, atoi, all, p) ==
               [Event(p.event, p.id, data, p.retry)] + Events(stream, atoi, ls, FRESH)
            && NoHollowBlock(atoi, all, p) == NoHollowBlock(atoi, ls, FRESH)
  {
    assert [Field("data", data), ""] + ls == [Field("data", data)] + ([""] + ls);
    OneField(stream, atoi, "data", data, [""] + ls, p);
    Blank(stream, atoi, ls, Take(atoi, p, Field("data", data)));
  }

  lemma RunEventParses(stream: bool, atoi: Atoi, id: string, data: string, ls: seq<string>)
    requires ls != []
    ensures var all := [Field("event", "run_event"), Field("id", id), Field("data", data), ""] + ls;
            var e := Event("run_event", if '\0' in id then "" else id, data, 0);
            Events(stream, atoi, all, FRESH) == [e] + Events(stream, atoi, ls, FRESH) &&
            NoHollowBlock(atoi, all, FRESH) == NoHollowBlock(atoi, ls, FRESH)
  {
    var tail := [Field("data", data), ""] + ls;
    assert [Field("event", "run_event"), Field("id", id), Field("data", data), ""] + ls
        == [Field("event", "run_event"), Field("id", id)] + tail;
    RunEventHead(stream, atoi, id, tail);
    DataEnds(stream, atoi, data, ls, Headed(id));
  }

  lemma KeepAliveParses(stream: bool, atoi: Atoi, ls: seq<string>)
    ensures Events(stream, atoi, [":keepalive", ""] + ls, FRESH) == Events(stream, atoi, ls, FRESH)
    ensures NoHollowBlock(atoi, [":keepalive", ""] + ls, FRESH) == NoHollowBlock(atoi, ls, FRESH)
  {
    var all := [":keepalive", ""] + ls;
    assert all == [":keepalive"] + ([""] + ls) && all[1..] == [""] + ls && all[1..][1..] == ls;
    EventsCons(stream, atoi, ":keepalive", [""] + ls, FRESH);
    EventsCons(stream, atoi, "", ls, FRESH);
  }

  /** One frame parses, in either parser, to what it is read back as, and leaves the parser where it was. */
  lemma FrameParses(stream: bool, atoi: Atoi, f: Frame, rest: string)
    requires Unbroken(f)
    ensures Events(stream, atoi, Lines(Write(f) + rest), FRESH) ==
            ReadBack(f) + Events(stream, atoi, Lines(rest), FRESH)
    ensures NoHollowBlock(atoi, Lines(Write(f) + rest), FRESH) == NoHollowBlock(atoi, Lines(rest), FRESH)
  {
    WrittenLines(f, rest);
    match f
    case KeepAlive => KeepAliveParses(stream, atoi, Lines(rest));
    case Message(data) => DataEnds(stream, atoi, Chomp(data), Lines(rest), FRESH);
    case RunEvent(id, data) => RunEventParses(stream, atoi, Chomp(id), Chomp(data), Lines(rest));
  }

  /** Any interleaving of clean frames is read back exactly, by either parser. */
  lemma {:induction false} RoundTrip(atoi: Atoi, fs: seq<Frame>)
    requires forall f <- fs :: Clean(f)
    ensures ParseFrom(atoi, Lines(WriteAll(fs)), FRESH) == Meant(fs)
    ensures ReadFrom(atoi, Lines(WriteAll(fs)), FRESH) == Meant(fs)
    ensures NoHollowBlock(atoi, Lines(WriteAll(fs)), FRESH)
  {
    if fs == [] {
      assert Lines("") == [""];
    } else {
      assert Clean(fs[0]);
      FrameParses(false, atoi, fs[0], WriteAll(fs[1..]));
      RoundTrip(atoi, fs[1..]);
    }
    ParsersAgree(atoi, WriteAll(fs));
  }

  // ---------------------------------------------------------------------------
  // Cleanliness is needed, not only enough

  lemma IdStaysClean(stream: bool, atoi: Atoi, p: Pending, l: string, eof: bool)
    requires '\n' !in p.id && '\0' !in p.id && '\n' !in l
    ensures var o := Line(stream, atoi, p, l, eof);
            && '\n' !in o.next.id && '\0' !in o.next.id
            && forall e <- o.events :: '\n' !in e.id && '\0' !in e.id
  {
  }

  /** An id that is read, by either parser, never holds a newline or a NUL. */
  lemma {:induction false} IdsAreClean(stream: bool, atoi: Atoi, ls: seq<string>, p: Pending)
    requires '\n' !in p.id && '\0' !in p.id && forall l <- ls :: '\n' !in l
    ensures forall e <- Events(stream, atoi, ls, p) :: '\n' !in e.id && '\0' !in e.id
    decreases |ls|
  {
    if ls != [] {
      assert ls[0] in ls && forall l <- ls[1..] :: l in ls;
      IdStaysClean(stream, atoi, p, ls[0], |ls| == 1);
      IdsAreClean(stream, atoi, ls[1..], Line(stream, atoi, p, ls[0], |ls| == 1).next);
    }
  }

  function Total(ls: seq<string>): nat { if ls == [] then 0 else |ls[0]| + Total(ls[1..]) }

  lemma {:induction false} SplitTotal(s: string)
    ensures Total(Split(s)) + |Split(s)| == |s| + 1
  {
    if s != [] {
      SplitTotal(s[1..]);
      var r := Split(s[1..]);
      if s[0] == '\n' {
        assert ([""] + r)[1..] == r;
      } else {
        assert Split(s)[1..] == r[1..];
      }
    }
  }

  lemma {:induction false} ChompTotal(ls: seq<string>, cs: seq<string>)
    requires |ls| == |cs| && forall i :: 0 <= i < |ls| ==> cs[i] == Chomp(ls[i])
    ensures Total(cs) <= Total(ls)
  {
    if ls != [] {
      ChompTotal(ls[1..], cs[1..]);
    }
  }

  lemma LinesTotal(s: string)
    ensures Total(Lines(s)) <= |s|
  {
    SplitTotal(s);
    ChompTotal(Split(s), Lines(s));
  }

  lemma {:induction false} SplitJoins(s: string, rest: string)
    ensures Split(s + "\n" + rest) == Split(s) + Split(rest)
  {
    var t := s + "\n" + rest;
    if s == [] {
      assert t == "\n" + rest && t[1..] == rest;
    } else {
      assert t[0] == s[0] && t[1..] == s[1..] + "\n" + rest;
      SplitJoins(s[1..], rest);
    }
  }

  lemma LinesJoin(s: string, rest: string)
    ensures Lines(s + "\n" + rest) == Lines(s) + Lines(rest)
  {
    SplitJoins(s, rest);
  }

  lemma {:induction false} JoinSnoc(ss: seq<string>, x: string)
    requires ss != []
    ensures |Join(ss + [x])| == |Join(ss)| + 1 + |x|
  {
    assert (ss + [x])[1..] == ss[1..] + [x];
    if |ss| > 1 {
      JoinSnoc(ss[1..], x);
    }
  }

  /** A data line costs more characters than it yields. */
  lemma TakeCosts(atoi: Atoi, p: Pending, l: string)
    requires p.data != [] && l != []
    ensures var q := Take(atoi, p, l); q.started && q.data != [] && |Join(q.data)| <= |Join(p.data)| + |l|
  {
    if FieldName(l) == "data" {
      JoinSnoc(p.data, FieldValue(l));
    }
  }

  /** Up to a blank line, the data of the event in progress grows by no more than the lines are long. */
  lemma {:induction false} DataIsShort(
      stream: bool, atoi: Atoi, ls: seq<string>, after: seq<string>, p: Pending)
    requires p.started && p.data != []
    ensures var es := Events(stream, atoi, ls + [""] + after, p);
            es != [] && |es[0].data| <= |Join(p.data)| + Total(ls)
    decreases |ls|
  {
    if ls == [] {
      assert ls + [""] + after == [""] + after;
      EventsCons(stream, atoi, "", after, p);
    } else {
      assert ls + [""] + after == [ls[0]] + (ls[1..] + [""] + after);
      EventsCons(stream, atoi, ls[0], ls[1..] + [""] + after, p);
      if ls[0] != "" {
        if ls[0][0] != ':' {
          TakeCosts(atoi, p, ls[0]);
        }
        DataIsShort(stream, atoi, ls[1..], after, Line(stream, atoi, p, ls[0], false).next);
      }
    }
  }

  lemma {:induction false} FirstNewline(s: string) returns (k: nat)
    requires '\n' in s
    ensures k < |s| && s[k] == '\n' && '\n' !in s[..k]
  {
    if s[0] == '\n' {
      k := 0;
    } else {
      assert s == [s[0]] + s[1..];
      var j := FirstNewline(s[1..]);
      k := j + 1;
      assert s[..k] == [s[0]] + s[1..][..j];
    }
  }

  lemma Rejoin(d0: string, d1: string, rest: string)
    ensures Field("data", d0 + "\n" + d1) + "\n" + ("\n" + rest) ==
            Field("data", d0) + "\n" + (d1 + "\n" + ("\n" + rest))
  {
  }

  /** A payload with a newline comes back shorter, whatever it contains and whatever follows. */
  lemma BrokenDataShrinks(stream: bool, atoi: Atoi, data: string, rest: string, p: Pending)
    requires '\n' in data && p.data == []
    ensures var es := Events(stream, atoi, Lines(Field("data", data) + "\n" + ("\n" + rest)), p);
            es != [] && |es[0].data| < |data|
  {
    var k := FirstNewline(data);
    var d0, d1 := data[..k], data[k + 1..];
    assert data == d0 + "\n" + d1;
    Rejoin(d0, d1, rest);
    var tail := d1 + "\n" + ("\n" + rest);
    FieldLine("data", d0, tail);
    OneField(stream, atoi, "data", Chomp(d0), Lines(tail), p);
    LinesJoin(d1, "\n" + rest);
    BlankLine(rest);
    assert Lines(tail) == Lines(d1) + [""] + Lines(rest);
    DataIsShort(stream, atoi, Lines(d1), Lines(rest), Take(atoi, p, Field("data", Chomp(d0))));
    LinesTotal(d1);
  }

  lemma BrokenRunEvent(stream: bool, atoi: Atoi, f: Frame, rest: string)
    requires f.RunEvent? && '\n' !in f.id && '\n' in f.data
    ensures var es := Events(stream, atoi, Lines(Write(f) + rest), FRESH); es != [] && |es[0].data| < |f.data|
  {
    var ls := Lines(Field("data", f.data) + "\n" + ("\n" + rest));
    WrittenRunEvent(f, rest);
    RunEventHead(stream, atoi, Chomp(f.id), ls);
    BrokenDataShrinks(stream, atoi, f.data, rest, Headed(Chomp(f.id)));
  }

  lemma BrokenMessage(stream: bool, atoi: Atoi, f: Frame, rest: string)
    requires f.Message? && '\n' in f.data
    ensures var es := Events(stream, atoi, Lines(Write(f) + rest), FRESH); es != [] && |es[0].data| < |f.data|
  {
    assert Write(f) + rest == Field("data", f.data) + "\n" + ("\n" + rest);
    BrokenDataShrinks(stream, atoi, f.data, rest, FRESH);
  }

  lemma BrokenId(stream: bool, atoi: Atoi, f: Frame, rest: string)
    requires f.RunEvent? && '\n' in f.id
    ensures var es := Events(stream, atoi, Lines(Write(f) + rest), FRESH); es != [] ==> es[0].id != f.id
  {
    IdsAreClean(stream, atoi, Lines(Write(f) + rest), FRESH);
  }

  lemma ReadBackIffClean(f: Frame)
    requires Unbroken(f)
    ensures ReadBack(f) == MeantBy(f) <==> Clean(f)
  {
    if !f.KeepAlive? {
      assert ReadBack(f) == MeantBy(f) <==> ReadBack(f)[0] == MeantBy(f)[0];
    }
  }

  /** What an unclean frame spoils: the first event read is not the one meant. */
  lemma UncleanShows(stream: bool, atoi: Atoi, f: Frame, rest: string)
    requires !Clean(f)
    ensures var es := Events(stream, atoi, Lines(Write(f) + rest), FRESH); es != [] ==> es[0] != MeantBy(f)[0]
  {
    if Unbroken(f) {
      FrameParses(stream, atoi, f, rest);
      ReadBackIffClean(f);
    } else if f.Message? {
      BrokenMessage(stream, atoi, f, rest);
    } else if '\n' in f.id {
      BrokenId(stream, atoi, f, rest);
    } else {
      BrokenRunEvent(stream, atoi, f, rest);
    }
  }

  /** A stream of frames is read back, by either parser, exactly when every frame is clean. */
  lemma {:induction false} RoundTripIffClean(stream: bool, atoi: Atoi, fs: seq<Frame>)
    ensures Events(stream, atoi, Lines(WriteAll(fs)), FRESH) == Meant(fs) <==> forall f <- fs :: Clean(f)
  {
    if fs == [] {
      RoundTrip(atoi, fs);
    } else {
      var f, rest := fs[0], WriteAll(fs[1..]);
      assert fs == [f] + fs[1..];
      if Clean(f) {
        FrameParses(stream, atoi, f, rest);
        RoundTripIffClean(stream, atoi, fs[1..]);
        SamePrefix(MeantBy(f), Events(stream, atoi, Lines(rest), FRESH), Meant(fs[1..]));
      } else {
        UncleanShows(stream, atoi, f, rest);
        assert Meant(fs)[0] == MeantBy(f)[0];
      }
    }
  }

  lemma SamePrefix<T>(a: seq<T>, b: seq<T>, c: seq<T>)
    ensures a + b == a + c <==> b == c
  {
    assert (a + b)[|a|..] == b && (a + c)[|a|..] == c;
  }
}
