/**
 The worker's telemetry shipper: callers put items on a buffered channel, one
 goroutine groups them by run and posts batches. Every branch of the goroutine's
 select is one step. `Ship` tests `closed` and sends under one lock, as two steps,
 because `Close` sets the flag without that lock. The steps interleave freely.
 */
module TelemetryShipper {
  import opened Sequences
  import opened Wrappers

  const BATCH_SIZE := 100
  const BUFFER_SIZE := 10000

  datatype Item = Item(run: string, op: int)
  datatype Batch = Batch(run: string, ops: seq<int>)

  /** Where the goroutine is: in its select, draining after cancellation, or gone (channel closed or not). */
  datatype Mode = Running | Draining | Exited(viaClose: bool)

  /**
   `sending` is the item of a `Ship` that holds the send lock and found the shipper
   open. `accepted` and `shipped` are the history: items put on the channel, batches
   posted.
   */
  datatype State = State(
    buffer: seq<Item>, batches: map<string, seq<int>>, closed: bool, chanClosed: bool, sending: Option<Item>,
    mode: Mode, accepted: seq<Item>, shipped: seq<Batch>, dropped: nat)

  const INITIAL := State([], map[], false, false, None, Running, [], [], 0)

  // ---------------------------------------------------------------------------
  // Steps

  /** The lock is taken and `closed` read; a closed shipper drops the item. */
  function Test(s: State, item: Item): State {
    if s.closed then s.(dropped := s.dropped + 1) else s.(sending := Some(item))
  }

  /** The send and the unlock; when the buffer is full, the item is dropped. */
  function Send(s: State): State
    requires s.sending.Some?
  {
    var t := s.(sending := None);
    if |s.buffer| >= BUFFER_SIZE then t.(dropped := s.dropped + 1)
    else t.(buffer := s.buffer + [s.sending.value], accepted := s.accepted + [s.sending.value])
  }

  function Grouped(batches: map<string, seq<int>>, item: Item): seq<int> {
    (if item.run in batches then batches[item.run] else []) + [item.op]
  }

  /** One item received: grouped, and posted with its batch when that is full. */
  function Receive(s: State): State
    requires s.buffer != []
  {
    var item := s.buffer[0];
    var ops := Grouped(s.batches, item);
    var t := s.(buffer := s.buffer[1..]);
    if |ops| >= BATCH_SIZE
    then t.(batches := s.batches - {item.run}, shipped := s.shipped + [Batch(item.run, ops)])
    else t.(batches := s.batches[item.run := ops])
  }

  function BatchesIn(order: seq<string>, batches: map<string, seq<int>>): seq<Batch>
    requires forall r <- order :: r in batches
  {
    seq(|order|, i requires 0 <= i < |order| => Batch(order[i], batches[order[i]]))
  }

  /** `order` lists every key once, in whatever order the map iterates. */
  ghost predicate Lists(order: seq<string>, keys: set<string>) {
    (forall r :: r in order <==> r in keys) && forall i, j :: 0 <= i < j < |order| ==> order[i] != order[j]
  }

  ghost function Flush(s: State, order: seq<string>): State
    requires Lists(order, s.batches.Keys)
  {
    s.(batches := map[], shipped := s.shipped + BatchesIn(order, s.batches))
  }

  // ---------------------------------------------------------------------------
  // The shipper itself

  class Shipper {
    var buffer: seq<Item>
    var batches: map<string, seq<int>>
    var closed: bool
    var chanClosed: bool
    var sending: Option<Item>
    var mode: Mode
    ghost var accepted: seq<Item>
    var shipped: seq<Batch>
    var droppedCount: nat

    ghost function Abs(): State
      reads this
    {
      State(buffer, batches, closed, chanClosed, sending, mode, accepted, shipped, droppedCount)
    }

    constructor ()
      ensures Abs() == INITIAL
    {
      buffer, batches, closed, chanClosed, sending, mode := [], map[], false, false, None, Running;
      accepted, shipped, droppedCount := [], [], 0;
    }

    /** `Ship`, with the lock taken, up to the send. */
    method TestClosed(item: Item) returns (ok: bool)
      requires sending.None?
      modifies this`sending, this`droppedCount
      ensures Abs() == Test(old(Abs()), item) && ok == !closed
    {
      if closed {
        droppedCount := droppedCount + 1;
        return false;
      }
      sending := Some(item);
      return true;
    }

    /** The select of `Ship`. A send on a closed channel would panic; it cannot happen. */
    method SendItem()
      requires Inv(Abs()) && sending.Some?
      modifies this
      ensures Abs() == Send(old(Abs()))
    {
      if |buffer| < BUFFER_SIZE {
        assert !chanClosed;
        buffer := buffer + [sending.value];
        accepted := accepted + [sending.value];
      } else {
        droppedCount := droppedCount + 1;
      }
      sending := None;
    }

    /** `Ship` when nothing comes between its two steps. */
    method Ship(item: Item)
      requires Inv(Abs()) && sending.None?
      modifies this
      ensures Abs() == if old(closed) then Test(old(Abs()), item) else Send(Test(old(Abs()), item))
    {
      StepKeepsInv(Abs(), TestOpen(item));
      var ok := TestClosed(item);
      if ok {
        SendItem();
      }
    }

    /** The part of `Close` under the send lock. Closing twice would panic; `closeOnce` sees to that. */
    method CloseBuffer()
      requires Inv(Abs()) && closed && !chanClosed && sending.None?
      modifies this`chanClosed
      ensures Inv(Abs()) && Abs() == old(Abs()).(chanClosed := true)
    {
      StepKeepsInv(Abs(), CloseChannel);
      chanClosed := true;
    }

    /** The receive case of `run` and of `drainBuffer`. */
    method ReceiveItem()
      requires buffer != []
      modifies this
      ensures Abs() == Receive(old(Abs()))
    {
      var item := buffer[0];
      buffer := buffer[1..];
      var ops := if item.run in batches then batches[item.run] else [];
      ops := ops + [item.op];
      if |ops| >= BATCH_SIZE {
        shipped := shipped + [Batch(item.run, ops)];
        batches := batches - {item.run};
      } else {
        batches := batches[item.run := ops];
      }
    }

    /** `flush`. */
    method FlushAll() returns (ghost order: seq<string>)
      requires Inv(Abs())
      modifies this
      ensures Lists(order, old(batches).Keys) && Abs() == Flush(old(Abs()), order)
    {
      order := [];
      var todo := batches.Keys;
      while todo != {}
        invariant todo <= batches.Keys
        invariant Lists(order, batches.Keys - todo)
        invariant Abs() == old(Abs()).(shipped := old(shipped) + BatchesIn(order, batches))
        decreases todo
      {
        var run :| run in todo;
        var ops := batches[run];
        if |ops| > 0 {
          shipped := shipped + [Batch(run, ops)];
        }
        order := order + [run];
        todo := todo - {run};
      }
      batches := map[];
    }
  }

  // ---------------------------------------------------------------------------
  // Runs

  datatype Step =
    | TestOpen(item: Item)          // Ship: sendMu taken, the flag read
    | SendOne                       // Ship: the send, and sendMu let go
    | MarkClosed                    // Close: the flag, without sendMu
    | CloseChannel                  // Close: close(buffer), under sendMu
    | ReceiveOne
    | Tick(order: seq<string>)      // the flush ticker
    | Cancelled                     // the context is done
    | Finish(order: seq<string>)    // channel closed and empty, or drained: flush and return

  ghost predicate Enabled(s: State, st: Step) {
    match st
    case TestOpen(_) => s.sending.None?
    case SendOne => s.sending.Some?
    case MarkClosed => true
    case CloseChannel => s.closed && !s.chanClosed && s.sending.None?
    case ReceiveOne => !s.mode.Exited? && s.buffer != []
    case Tick(order) => s.mode == Running && Lists(order, s.batches.Keys)
    case Cancelled => s.mode == Running
    case Finish(order) =>
      s.buffer == [] && Lists(order, s.batches.Keys) &&
      ((s.mode == Running && s.chanClosed) || s.mode == Draining)
  }

  ghost function Next(s: State, st: Step): State
    requires Enabled(s, st)
  {
    match st
    case TestOpen(item) => Test(s, item)
    case SendOne => Send(s)
    case MarkClosed => s.(closed := true)
    case CloseChannel => s.(chanClosed := true)
    case ReceiveOne => Receive(s)
    case Tick(order) => Flush(s, order)
    case Cancelled => s.(mode := Draining)
    case Finish(order) => Flush(s, order).(mode := Exited(s.chanClosed))
  }

  ghost predicate Run(s: State, steps: seq<Step>, t: State)
    decreases |steps|
  {
    if steps == [] then s == t
    else Enabled(s, steps[0]) && Run(Next(s, steps[0]), steps[1..], t)
  }

  function ItemsOf(items: seq<Item>, run: string): seq<int> {
    if items == [] then []
    else (if items[0].run == run then [items[0].op] else []) + ItemsOf(items[1..], run)
  }

  function Sent(bs: seq<Batch>, run: string): seq<int> {
    if bs == [] then [] else (if bs[0].run == run then bs[0].ops else []) + Sent(bs[1..], run)
  }

  function Open(batches: map<string, seq<int>>, run: string): seq<int> {
    if run in batches then batches[run] else []
  }

  /** Nothing lost, duplicated or reordered within a run. */
  ghost predicate InOrder(s: State, run: string) {
    Sent(s.shipped, run) + Open(s.batches, run) + ItemsOf(s.buffer, run) == ItemsOf(s.accepted, run)
  }

  ghost predicate Inv(s: State) {
    && (s.chanClosed ==> s.closed && s.sending.None?)
    && (forall run :: InOrder(s, run))
    && (forall b <- s.shipped :: 1 <= |b.ops| <= BATCH_SIZE)
    && (forall r <- s.batches :: 1 <= |s.batches[r]| < BATCH_SIZE)
    && (s.mode.Exited? ==> s.batches == map[])
    && (s.mode == Exited(true) ==> s.chanClosed && s.buffer == [])
    && |s.buffer| <= BUFFER_SIZE
  }

  lemma {:induction false} ItemsOfAppend(a: seq<Item>, b: seq<Item>, run: string)
    ensures ItemsOf(a + b, run) == ItemsOf(a, run) + ItemsOf(b, run)
  {
    if a == [] {
      assert a + b == b;
    } else {
      TailOfJoin(a, b);
      ItemsOfAppend(a[1..], b, run);
      Associative(if a[0].run == run then [a[0].op] else [], ItemsOf(a[1..], run), ItemsOf(b, run));
    }
  }

  lemma {:induction false} SentAppend(a: seq<Batch>, b: seq<Batch>, run: string)
    ensures Sent(a + b, run) == Sent(a, run) + Sent(b, run)
  {
    if a == [] {
      assert a + b == b;
    } else {
      TailOfJoin(a, b);
      SentAppend(a[1..], b, run);
      Associative(if a[0].run == run then a[0].ops else [], Sent(a[1..], run), Sent(b, run));
    }
  }

  /** Whatever the order of a flush, each run gets exactly its open batch. */
  lemma {:induction false} FlushSends(order: seq<string>, batches: map<string, seq<int>>, run: string)
    requires (forall r <- order :: r in batches) && forall i, j :: 0 <= i < j < |order| ==> order[i] != order[j]
    ensures Sent(BatchesIn(order, batches), run) == if run in order then batches[run] else []
  {
    if order != [] {
      assert BatchesIn(order, batches)[1..] == BatchesIn(order[1..], batches);
      assert order[0] !in order[1..];
      assert order == [order[0]] + order[1..];
      FlushSends(order[1..], batches, run);
    }
  }

  lemma SendKeepsOrder(s: State, run: string)
    requires InOrder(s, run) && s.sending.Some?
    ensures InOrder(Send(s), run)
  {
    ItemsOfAppend(s.buffer, [s.sending.value], run);
    ItemsOfAppend(s.accepted, [s.sending.value], run);
    Associative(Sent(s.shipped, run) + Open(s.batches, run), ItemsOf(s.buffer, run), ItemsOf([s.sending.value], run));
  }

  lemma SentOne(b: Batch, run: string)
    ensures Sent([b], run) == if b.run == run then b.ops else []
  {
    assert [b][1..] == [];
  }

  lemma ReceiveOther(s: State, run: string)
    requires s.buffer != [] && s.buffer[0].run != run
    ensures Sent(Receive(s).shipped, run) == Sent(s.shipped, run)
    ensures Open(Receive(s).batches, run) == Open(s.batches, run)
    ensures ItemsOf(Receive(s).buffer, run) == ItemsOf(s.buffer, run)
  {
    var b := Batch(s.buffer[0].run, Grouped(s.batches, s.buffer[0]));
    SentAppend(s.shipped, [b], run);
    SentOne(b, run);
  }

  lemma ReceiveSame(s: State)
    requires s.buffer != []
    ensures var item, t := s.buffer[0], Receive(s);
            && Sent(t.shipped, item.run) + Open(t.batches, item.run)
               == Sent(s.shipped, item.run) + (Open(s.batches, item.run) + [item.op])
            && ItemsOf(s.buffer, item.run) == [item.op] + ItemsOf(t.buffer, item.run)
  {
    var b := Batch(s.buffer[0].run, Grouped(s.batches, s.buffer[0]));
    SentAppend(s.shipped, [b], b.run);
    SentOne(b, b.run);
  }

  lemma Regroup(a: seq<int>, o: seq<int>, x: int, rest: seq<int>)
    ensures a + o + ([x] + rest) == a + (o + [x]) + rest
  {
  }

  lemma ReceiveKeepsOrder(s: State, run: string)
    requires InOrder(s, run) && s.buffer != []
    ensures InOrder(Receive(s), run)
  {
    if s.buffer[0].run == run {
      ReceiveSame(s);
      Regroup(Sent(s.shipped, run), Open(s.batches, run), s.buffer[0].op, ItemsOf(Receive(s).buffer, run));
    } else {
      ReceiveOther(s, run);
    }
  }

  lemma NothingOpen(a: seq<int>, o: seq<int>, rest: seq<int>)
    ensures (a + o) + [] + rest == a + o + rest
  {
  }

  lemma FlushKeepsOrder(s: State, order: seq<string>, run: string)
    requires InOrder(s, run) && Lists(order, s.batches.Keys)
    ensures InOrder(Flush(s, order), run)
  {
    FlushSends(order, s.batches, run);
    SentAppend(s.shipped, BatchesIn(order, s.batches), run);
    NothingOpen(Sent(s.shipped, run), Open(s.batches, run), ItemsOf(s.buffer, run));
  }

  lemma StepKeepsOrder(s: State, st: Step, run: string)
    requires InOrder(s, run) && Enabled(s, st)
    ensures InOrder(Next(s, st), run)
  {
    match st
    case SendOne => SendKeepsOrder(s, run);
    case ReceiveOne => ReceiveKeepsOrder(s, run);
    case Tick(order) => FlushKeepsOrder(s, order, run);
    case Finish(order) => FlushKeepsOrder(s, order, run);
    case _ =>
  }

  lemma StepKeepsInv(s: State, st: Step)
    requires Inv(s) && Enabled(s, st)
    ensures Inv(Next(s, st))
  {
    forall run
      ensures InOrder(Next(s, st), run)
    {
      StepKeepsOrder(s, st, run);
    }
  }

  lemma {:induction false} RunKeepsInv(s: State, steps: seq<Step>, t: State)
    requires Inv(s) && Run(s, steps, t)
    ensures Inv(t)
    decreases |steps|
  {
    if steps != [] {
      StepKeepsInv(s, steps[0]);
      RunKeepsInv(Next(s, steps[0]), steps[1..], t);
    }
  }

  /**
   Over every interleaving: for each run the posted batches, then the open batch,
   then the buffered items are the items accepted for it, in order; every batch
   posted has between 1 and 100 items; a send finds the channel open, although the
   flag may have been set since its test.
   */
  lemma ShipperSafe(steps: seq<Step>, t: State, run: string)
    requires Run(INITIAL, steps, t)
    ensures Sent(t.shipped, run) + Open(t.batches, run) + ItemsOf(t.buffer, run) == ItemsOf(t.accepted, run)
    ensures forall b <- t.shipped :: 1 <= |b.ops| <= BATCH_SIZE
    ensures t.sending.Some? ==> !t.chanClosed
  {
    RunKeepsInv(INITIAL, steps, t);
    assert InOrder(t, run);
  }

  /**
   An item is dropped, and counted, only by a shipper that is closed at the test or
   by a buffer of ten thousand at the send; else it is accepted, behind all others.
   */
  lemma DroppedOnlyWhen(s: State, st: Step)
    requires Enabled(s, st)
    ensures var t := Next(s, st);
            && (t.dropped == s.dropped + 1 <==> (st.TestOpen? && s.closed) || (st.SendOne? && |s.buffer| >= 10000))
            && t.dropped <= s.dropped + 1 && s.dropped <= t.dropped
            && (st.TestOpen? && !s.closed ==> t.sending == Some(st.item))
            && (st.SendOne? && |s.buffer| < 10000 ==>
                  t.buffer == s.buffer + [s.sending.value] && t.accepted == s.accepted + [s.sending.value])
  {
  }

  /** Receiving posts a batch exactly when it makes it a hundred, and posts all of it; else the batch stays open. */
  lemma PostsFullBatches(s: State)
    requires Inv(s) && s.buffer != []
    ensures var t, item := Receive(s), s.buffer[0];
            var open := Open(s.batches, item.run) + [item.op];
            if |open| == 100 then t.shipped == s.shipped + [Batch(item.run, open)] && item.run !in t.batches
            else t.shipped == s.shipped && item.run in t.batches && t.batches[item.run] == open
  {
  }

  /** Gone through the closed channel, the shipper has posted everything it ever accepted. */
  lemma ExitViaCloseShipsAll(steps: seq<Step>, t: State, run: string)
    requires Run(INITIAL, steps, t) && t.mode == Exited(true)
    ensures Sent(t.shipped, run) == ItemsOf(t.accepted, run)
  {
    RunKeepsInv(INITIAL, steps, t);
    assert InOrder(t, run);
  }

  // ---------------------------------------------------------------------------
  // After cancellation

  /** Once the goroutine is gone nothing is posted any more; the buffer can only grow. */
  lemma {:induction false} NothingAfterExit(s: State, steps: seq<Step>, t: State)
    requires s.mode.Exited? && Run(s, steps, t)
    ensures t.shipped == s.shipped && s.buffer <= t.buffer && t.mode == s.mode
    decreases |steps|
  {
    if steps != [] {
      NothingAfterExit(Next(s, steps[0]), steps[1..], t);
    }
  }

  /** After exit, everything accepted has been posted exactly when the buffer is empty. */
  lemma PostedAllIffBufferEmpty(s: State)
    requires Inv(s) && s.mode.Exited?
    ensures (forall run :: Sent(s.shipped, run) == ItemsOf(s.accepted, run)) <==> s.buffer == []
  {
    if s.buffer == [] {
      forall run
        ensures Sent(s.shipped, run) == ItemsOf(s.accepted, run)
      {
        assert InOrder(s, run);
      }
    } else {
      NotPosted(s);
    }
  }

  lemma NotPosted(s: State)
    requires Inv(s) && s.mode.Exited? && s.buffer != []
    ensures var run := s.buffer[0].run; |Sent(s.shipped, run)| < |ItemsOf(s.accepted, run)|
  {
    assert InOrder(s, s.buffer[0].run);
  }

  /** Cancellation alone gets there: a goroutine gone while the shipper still accepts. */
  lemma CancelLeavesOpen()
    ensures Run(INITIAL, [Cancelled, Finish([])], INITIAL.(mode := Exited(false)))
  {
    var steps := [Cancelled, Finish([])];
    var s1 := Next(INITIAL, Cancelled);
    assert steps[1..] == [Finish([])] && steps[1..][1..] == [];
    assert Run(Next(s1, Finish([])), [], INITIAL.(mode := Exited(false)));
    assert Run(s1, steps[1..], INITIAL.(mode := Exited(false)));
  }

  /** An item sent there is never posted, whatever happens later. */
  lemma StrandedAfterCancel(s: State, later: seq<Step>, t: State)
    requires Inv(s) && s.mode == Exited(false) && s.sending.Some? && |s.buffer| < BUFFER_SIZE
    requires Run(Send(s), later, t)
    ensures exists run :: |Sent(t.shipped, run)| < |ItemsOf(t.accepted, run)|
  {
    StepKeepsInv(s, SendOne);
    RunKeepsInv(Send(s), later, t);
    NothingAfterExit(Send(s), later, t);
    NotPosted(t);
  }

  /** No call can put anything on the channel any more. */
  predicate Shut(s: State) { s.closed && s.sending.None? }

  lemma {:induction false} AcceptedGrows(s: State, steps: seq<Step>, t: State)
    requires Run(s, steps, t)
    ensures s.accepted <= t.accepted && (Shut(s) ==> Shut(t) && t.accepted == s.accepted)
    decreases |steps|
  {
    if steps != [] {
      AcceptedGrows(Next(s, steps[0]), steps[1..], t);
    }
  }

  /** What is posted in the end is what was accepted before the goroutine's last flush, whatever comes later. */
  lemma PostedIffBeforeFinish(before: seq<Step>, s: State, order: seq<string>, after: seq<Step>, t: State, run: string)
    requires Run(INITIAL, before, s) && Enabled(s, Finish(order)) && Run(Next(s, Finish(order)), after, t)
    ensures s.accepted <= t.accepted && Sent(t.shipped, run) == ItemsOf(s.accepted, run)
  {
    RunKeepsInv(INITIAL, before, s);
    var f := Next(s, Finish(order));
    StepKeepsInv(s, Finish(order));
    assert InOrder(f, run);
    NothingAfterExit(f, after, t);
    AcceptedGrows(f, after, t);
  }

  /** In every continuation everything accepted has been posted. */
  ghost predicate LosesNothing(s: State) {
    forall steps, t, run :: Run(s, steps, t) ==> Sent(t.shipped, run) == ItemsOf(t.accepted, run)
  }

  /** One send after the last flush. */
  lemma LateSendLost(s: State)
    requires Inv(s) && s.mode.Exited? && s.buffer == [] && s.sending.Some?
    ensures !LosesNothing(s)
  {
    var t := Send(s);
    assert [SendOne][1..] == [] && Run(s, [SendOne], t);
    StepKeepsInv(s, SendOne);
    NotPosted(t);
  }

  lemma LateShipLost(s: State, item: Item)
    requires Inv(s) && s.mode.Exited? && s.buffer == [] && !s.closed && s.sending.None?
    ensures !LosesNothing(s)
  {
    var u := Test(s, item);
    var t := Send(u);
    assert [TestOpen(item), SendOne][1..] == [SendOne] && [SendOne][1..] == [] && Run(u, [SendOne], t);
    assert Run(s, [TestOpen(item), SendOne], t);
    StepKeepsInv(s, TestOpen(item));
    StepKeepsInv(u, SendOne);
    NotPosted(t);
  }

  /**
   At its last flush the shipper loses nothing, ever after, exactly when it has been
   closed by then and no call is between its test of the flag and its send.
   */
  lemma FinishLosesNothingIff(before: seq<Step>, s: State, order: seq<string>)
    requires Run(INITIAL, before, s) && Enabled(s, Finish(order))
    ensures LosesNothing(Next(s, Finish(order))) <==> s.closed && s.sending.None?
  {
    var f := Next(s, Finish(order));
    RunKeepsInv(INITIAL, before, s);
    StepKeepsInv(s, Finish(order));
    if Shut(s) {
      forall steps, t, run | Run(f, steps, t) ensures Sent(t.shipped, run) == ItemsOf(t.accepted, run) {
        PostedIffBeforeFinish(before, s, order, steps, t, run);
        AcceptedGrows(f, steps, t);
      }
    } else if s.sending.Some? {
      LateSendLost(f);
    } else {
      LateShipLost(f, Item("", 0));
    }
  }

  /** Closed at its last flush, and an item is lost: a call had passed its test before the flag was set. */
  lemma ClosedAndStillLoses(item: Item) returns (s: State)
    ensures Run(INITIAL, [TestOpen(item), MarkClosed, Cancelled], s)
    ensures s.closed && Enabled(s, Finish([])) && !LosesNothing(Next(s, Finish([])))
  {
    var steps := [TestOpen(item), MarkClosed, Cancelled];
    var s1 := Next(INITIAL, TestOpen(item));
    var s2 := Next(s1, MarkClosed);
    s := Next(s2, Cancelled);
    assert steps[1..] == [MarkClosed, Cancelled] && steps[1..][1..] == [Cancelled] && steps[1..][1..][1..] == [];
    assert Run(s2, [Cancelled], s) && Run(s1, [MarkClosed, Cancelled], s);
    FinishLosesNothingIff(steps, s, []);
  }
}
