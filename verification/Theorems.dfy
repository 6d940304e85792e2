/** The promises of the protocol, for every run of every pair of sessions, in both
    directions. x is the end that sends data, y the end that receives it. A run is cut
    short only by a push into a slot that is still indexed, which module Windows shows
    to be impossible exactly when the peer's window is no larger than the own one. */
module Theorems {
  import opened Integers
  import opened Tcp
  import opened Packets
  import opened Receiver
  import opened Links
  import opened Ledgers
  import opened Protocol
  import opened Safety
  import Sender
  import Conn

  // ----- delivery -----

  /** What y received in order is exactly frames 0 to nextExpected - 1 of x. */
  ghost predicate DeliveredInOrder(x: Endpoint, y: Endpoint) {
    && |y.rcv.history| == y.rcv.nextExpected <= |x.snd.history|
    && forall i :: 0 <= i < |y.rcv.history| ==>
         y.rcv.history[i].seqNum == i && y.rcv.history[i].data == x.snd.history[i].data
  }

  /** The bytes the application at y got, over both delivery paths, are a prefix of
      the bytes pushed at x, and the byte ledger counts them. */
  ghost predicate StreamsPrefix(x: Endpoint, y: Endpoint) {
    && y.app <= Stream(x.snd.history)
    && y.rcv.lastByte == (if y.app == [] && y.rcv.lastMsg == -1 then -1 else |y.app|)
  }

  lemma LinkDelivers(x: Endpoint, y: Endpoint, xy: set<Packet>, yx: set<Packet>)
    requires Link(x, y, xy, yx)
    ensures DeliveredInOrder(x, y) && StreamsPrefix(x, y)
  {
    assert WellNumbered(x.snd.history) && WindowInv(y.rcv, x.snd.history) && ReadyInv(y.rcv, x.snd.history, y.app);
    hide HeldInv, LedgerInv, CapsInv, SenderInv, ReceiverInv, LinkInv;
    forall i | 0 <= i < |y.rcv.history|
      ensures y.rcv.history[i].seqNum == i && y.rcv.history[i].data == x.snd.history[i].data
    {
      assert Carries(y.rcv.history[i], x.snd.history[i]);
    }
    HandedAndUnread(y.rcv, x.snd.history, y.app);
    StreamPrefix(x.snd.history, y.rcv.nextExpected);
    PrefixOf(y.app, Unread(y.rcv.ready), Stream(x.snd.history[..y.rcv.nextExpected]), Stream(x.snd.history));
  }

  lemma PrefixOf(a: seq<byte>, b: seq<byte>, c: seq<byte>, d: seq<byte>)
    requires a + b == c && c <= d
    ensures a <= d
  {
    assert a == (a + b)[..|a|];
    assert a == d[..|a|];
  }

  /** Over a network that loses, duplicates and reorders, delivery is in order,
      without gap or repetition. */
  lemma InOrderDelivery(ca: Config, cb: Config, ls: seq<Label>)
    requires GoodConfig(ca) && GoodConfig(cb) && Runs(Start(ca, cb), ls)
    ensures var w := After(Start(ca, cb), ls);
            && DeliveredInOrder(w.a, w.b) && StreamsPrefix(w.a, w.b)
            && DeliveredInOrder(w.b, w.a) && StreamsPrefix(w.b, w.a)
  {
    hide Link, DeliveredInOrder, StreamsPrefix, Start, Runs, After;
    StartInv(ca, cb);
    RunKeeps(Start(ca, cb), ls);
    var w := After(Start(ca, cb), ls);
    LinkDelivers(w.a, w.b, w.toB, w.toA);
    LinkDelivers(w.b, w.a, w.toA, w.toB);
  }

  // ----- no loss -----

  predicate InIndices(x: Endpoint, n: int) {
    x.snd.acked < n < |x.snd.history|
  }

  predicate WasConsumed(y: Endpoint, n: int) {
    n <= y.rcv.lastMsg
  }

  /** Every frame but the first is in the retry indices until it is consumed, and
      no packet on its way acknowledges more than was consumed. */
  ghost predicate NothingLost(x: Endpoint, y: Endpoint, yx: set<Packet>) {
    && (forall n :: 1 <= n < |x.snd.history| ==> InIndices(x, n) || WasConsumed(y, n))
    && (forall p :: p in yx ==> p.ackNum == 0 || p.ackNum <= y.rcv.lastMsg)
  }

  lemma LinkLosesNothing(x: Endpoint, y: Endpoint, xy: set<Packet>, yx: set<Packet>)
    requires Link(x, y, xy, yx)
    ensures NothingLost(x, y, yx)
  {
    assert y.rcv.consumed == Max(y.rcv.lastMsg, 0);
    hide SenderInv, ReceiverInv, DataOk;
  }

  lemma NoLoss(ca: Config, cb: Config, ls: seq<Label>)
    requires GoodConfig(ca) && GoodConfig(cb) && Runs(Start(ca, cb), ls)
    ensures var w := After(Start(ca, cb), ls);
            NothingLost(w.a, w.b, w.toA) && NothingLost(w.b, w.a, w.toB)
  {
    hide Link, NothingLost, Start, Runs, After;
    StartInv(ca, cb);
    RunKeeps(Start(ca, cb), ls);
    var w := After(Start(ca, cb), ls);
    LinkLosesNothing(w.a, w.b, w.toB, w.toA);
    LinkLosesNothing(w.b, w.a, w.toA, w.toB);
  }

  // ----- flow control -----

  /** With w the send window of x: x is never more than w frames ahead of consumption
      at y, y never holds more than w messages, or w + 1 before it consumed the first,
      and held are all that are ready or buffered and none that is consumed or unseen.
      If y's window is no larger than w, the gate alone sees to that: it lets no push
      through that would go beyond w. */
  ghost predicate FlowControlled(x: Endpoint, y: Endpoint, w: int) {
    && Sender.Ok(x.snd)
    && Sender.LastFrameSent(x.snd) <= y.rcv.consumed + w
    && Sender.InflightMsgs(x.snd) <= w
    && (y.rcv.window <= w && Sender.GateOpen(x.snd) ==> Sender.InflightMsgs(x.snd) < w)
    && |y.rcv.held| <= w + (if y.rcv.lastMsg == -1 then 1 else 0)
    && (forall k :: k in y.rcv.held ==> y.rcv.lastMsg < k <= y.rcv.largest)
    && (forall k :: y.rcv.lastMsg < k < y.rcv.nextExpected ==> k in y.rcv.held)
    && (forall k :: k in y.rcv.waiting ==> k in y.rcv.held)
  }

  /** A finite set of numbers between lo and hi has at most hi - lo elements. */
  lemma {:induction false} BoundedSize(s: set<int>, lo: int, hi: int)
    requires lo <= hi && forall k :: k in s ==> lo < k <= hi
    ensures |s| <= hi - lo
    decreases hi - lo
  {
    if lo == hi {
      forall k: int ensures k !in s {
        assert !(lo < k <= hi);
      }
      assert s == {};
    } else {
      BoundedSize(s - {hi}, lo, hi - 1);
      if hi !in s {
        assert s - {hi} == s;
      }
    }
  }

  lemma LinkFlowControlled(x: Endpoint, y: Endpoint, xy: set<Packet>, yx: set<Packet>)
    requires Link(x, y, xy, yx)
    ensures FlowControlled(x, y, x.snd.window)
  {
    hide Link, HeldInv, Sender.GateOpen;
    LinkBounds(x, y, xy, yx);
    if Sender.GateOpen(x.snd) && y.rcv.window <= x.snd.window {
      SlotIsFree(x, y, xy, yx);
    }
    HeldFits(y.rcv);
    HeldBounds(y.rcv);
  }

  lemma LinkBounds(x: Endpoint, y: Endpoint, xy: set<Packet>, yx: set<Packet>)
    requires Link(x, y, xy, yx)
    ensures Sender.Ok(x.snd) && Sender.InflightMsgs(x.snd) <= x.snd.window && x.snd.acked <= y.rcv.consumed == Max(y.rcv.lastMsg, 0)
    ensures HeldInv(y.rcv) && -1 <= y.rcv.lastMsg < y.rcv.nextExpected <= y.rcv.largest + 1 <= |x.snd.history|
  {
    hide WellNumbered, Stream, Carries, ReadyOk, TakenOf, HeldInv, WindowInv, BytesBounded, Sender.CreditAll, DataOk, AckOk;
  }

  lemma HeldBounds(r: Receiver)
    requires HeldInv(r)
    ensures forall k :: k in r.held ==> r.lastMsg < k <= r.largest
    ensures forall k :: r.lastMsg < k < r.nextExpected ==> k in r.held
    ensures forall k :: k in r.waiting ==> k in r.held
  {
  }

  /** What is held was seen and not consumed. */
  lemma HeldFits(r: Receiver)
    requires HeldInv(r) && r.lastMsg <= r.largest
    ensures |r.held| <= r.largest - r.lastMsg
  {
    BoundedSize(r.held.Keys, r.lastMsg, r.largest);
  }

  /** End-to-end flow control, however stale the advertisement used. */
  lemma FlowControl(ca: Config, cb: Config, ls: seq<Label>)
    requires GoodConfig(ca) && GoodConfig(cb) && Runs(Start(ca, cb), ls)
    ensures var w := After(Start(ca, cb), ls);
            && FlowControlled(w.a, w.b, ca.window)
            && FlowControlled(w.b, w.a, cb.window)
  {
    hide Link, FlowControlled, Runs, After, Start;
    StartInv(ca, cb);
    StartWindows(ca, cb);
    WindowsFixed(Start(ca, cb), ls);
    RunKeeps(Start(ca, cb), ls);
    var w := After(Start(ca, cb), ls);
    LinkFlowControlled(w.a, w.b, w.toB, w.toA);
    LinkFlowControlled(w.b, w.a, w.toA, w.toB);
  }

  lemma StartWindows(ca: Config, cb: Config)
    ensures var w := Start(ca, cb);
            && w.a.snd.window == w.a.rcv.window == ca.window
            && w.b.snd.window == w.b.rcv.window == cb.window
  {
  }

  /** The configuration of a session never changes. */
  ghost predicate SameWindows(x: Endpoint, x': Endpoint) {
    x'.snd.window == x.snd.window && x'.rcv.window == x.rcv.window && x'.rcv.windowBytes == x.rcv.windowBytes
    && x'.hasDest == x.hasDest
  }

  lemma ActSameWindows(w: World, a: Action)
    requires Inv(w) && CanActA(w, a)
    ensures SameWindows(w.a, Act(w.a, a, w.toA).e)
  {
    ActGood(w.a, w.b, w.toB, w.toA, a);
    SenderWindowFixed(w.a, a, w.toA);
    hide Link, SenderInv, ReceiverInv, DataOk, AckOk, Act;
  }

  lemma AckingWindow(e: Endpoint, r: Receiver, c: Conn.Conn, acks: seq<Packet>)
    ensures var s := Acking(e, r, c, acks); s.Stepped? && s.e.snd.window == e.snd.window && s.e.hasDest == e.hasDest
  {
    LearnedOnlyRemote(e.snd, acks);
  }

  lemma SenderWindowFixed(x: Endpoint, a: Action, inbox: set<Packet>)
    requires Sender.Ok(x.snd) && Allowed(x, a, inbox) && Act(x, a, inbox).Stepped?
    ensures var e := Act(x, a, inbox).e; e.snd.window == x.snd.window && e.hasDest == x.hasDest
  {
    hide Conn.HandleEvent, Conn.Retried, DataReceived, Delivered, ReadInto, Arrived, Conn.Dialling, Conn.Accepts,
         Conn.LockedOn, Sender.CreditAll, Acking, ArrivalPanics, Unread;
    match a
    case Consume =>
      var (r, ack) := Delivered(x.rcv);
      AckingWindow(x.(app := x.app + Unread(x.rcv.ready)), r, x.conn, [ack]);
    case Read(room) =>
      var (r, bytes, acks) := ReadInto(x.rcv, room);
      AckingWindow(x.(app := x.app + bytes), r, x.conn, acks);
    case RetryTimer =>
      var o := Conn.Retried(x.rcv, x.conn);
      AckingWindow(x, o.r, o.c, o.acks);
    case Deliver(p) =>
      ArriveWindow(x, p);
    case _ =>
  }

  lemma ArriveWindow(x: Endpoint, p: Packet)
    requires Sender.Ok(x.snd) && Arrive(x, p).Stepped?
    ensures var e := Arrive(x, p).e; e.snd.window == x.snd.window && e.hasDest == x.hasDest
  {
    hide Conn.HandleEvent, DataReceived, Arrived, Conn.Accepts, Conn.LockedOn, Sender.CreditAll, Acking, ArrivalPanics;
    var (r0, c0) := Conn.LockedOn(x.rcv, x.conn, p);
    var x1 := x.(snd := Sender.GotPacket(x.snd, p));
    if p.event == EventData {
      var (r2, acks) := DataReceived(Arrived(r0, p), p);
      AckingWindow(x1, r2, c0, acks);
    } else {
      var o := Conn.HandleEvent(Arrived(r0, p), c0, p.event, p);
      if o.Does? { AckingWindow(x1, o.r, o.c, o.acks); }
    }
  }

  lemma {:induction false} WindowsFixed(w: World, ls: seq<Label>)
    requires Inv(w) && Runs(w, ls)
    ensures var v := After(w, ls); SameWindows(w.a, v.a) && SameWindows(w.b, v.b)
    decreases |ls|
  {
    if ls != [] {
      hide Inv, ActA, CanActA;
      StepKeeps(w, ls[0]);
      StepSameWindows(w, ls[0]);
      WindowsFixed(Next(w, ls[0]), ls[1..]);
    }
  }

  lemma StepSameWindows(w: World, l: Label)
    requires Inv(w) && CanStep(w, l)
    ensures var v := Next(w, l); SameWindows(w.a, v.a) && SameWindows(w.b, v.b)
  {
    hide Link, Act, Allowed, SameWindows;
    NoChange(w.a);
    NoChange(w.b);
    match l
    case Do(side, a) =>
      if side.A? { ActSameWindows(w, a); } else { ActSameWindows(Flip(w), a); }
    case Lose(_, _) =>
  }

  lemma NoChange(x: Endpoint)
    ensures SameWindows(x, x)
  {
  }

  // ----- the send ring -----

  /** Whenever a push is accepted, its slot has left the retry indices, provided the
      peer's window is no larger than the sender's: this is what doOrigDataSend
      relies on. */
  lemma SlotIsFree(x: Endpoint, y: Endpoint, xy: set<Packet>, yx: set<Packet>)
    requires Link(x, y, xy, yx) && Sender.GateOpen(x.snd) && y.rcv.window <= x.snd.window
    ensures Sender.InflightMsgs(x.snd) < x.snd.window
  {
  }

  // ----- byte ledgers -----

  /** The ledgers count bytes exactly, and both the advertised and the used byte
      capacity are bounded: all frames in flight but the last stay below the limit. */
  ghost predicate BytesControlled(x: Endpoint, y: Endpoint, yx: set<Packet>) {
    && Sender.Ok(x.snd)
    && y.rcv.largest < |x.snd.history| && -1 <= y.rcv.largest
    && y.rcv.maxCumul == |Stream(x.snd.history[..y.rcv.largest + 1])|
    && (forall p :: p in yx ==> p.bytesCap <= y.rcv.windowBytes + 1 && p.msgCap <= y.rcv.window)
    && (x.snd.acked < Sender.LastFrameSent(x.snd) ==>
          |Stream(x.snd.history[x.snd.acked + 1..|x.snd.history| - 1])| <=
            Max(Sender.INITIAL_BYTES_CAP - 1, y.rcv.windowBytes))
  }

  /** No packet on its way to y can reach a panic over byte counts or ring positions. */
  ghost predicate ArrivalSafe(y: Endpoint, xy: set<Packet>) {
    forall p :: p in xy ==> !ArrivalPanics(Conn.LockedOn(y.rcv, y.conn, p).0, p)
  }

  lemma LinkBytes(x: Endpoint, y: Endpoint, xy: set<Packet>, yx: set<Packet>)
    requires Link(x, y, xy, yx)
    ensures BytesControlled(x, y, yx)
  {
    hide WindowInv, ReadyInv, HeldInv, LedgerInv, CapsInv, Stream, WellNumbered, DataOk, Sender.CreditAll, BytesBounded;
    LedgerFacts(y.rcv, x.snd.history);
    BoundFacts(x.snd, y.rcv.windowBytes);
  }

  lemma LedgerFacts(r: Receiver, history: seq<Frame>)
    requires LedgerInv(r, history)
    ensures -1 <= r.largest < |history| && r.maxCumul == |Stream(history[..r.largest + 1])|
  {
  }

  lemma BoundFacts(s: Sender.Sender, windowBytes: int)
    requires Sender.Ok(s) && BytesBounded(s, windowBytes)
    ensures s.acked < Sender.LastFrameSent(s) ==>
              |Stream(s.history[s.acked + 1..|s.history| - 1])| <= Max(Sender.INITIAL_BYTES_CAP - 1, windowBytes)
  {
  }

  lemma LinkArrivalSafe(x: Endpoint, y: Endpoint, xy: set<Packet>, yx: set<Packet>)
    requires Pair(y, x, yx, xy)
    ensures ArrivalSafe(y, xy)
  {
    hide Pair, ArrivalPanics, Conn.LockedOn;
    forall p | p in xy
      ensures !ArrivalPanics(Conn.LockedOn(y.rcv, y.conn, p).0, p)
    {
      ArrivePanicFree(y, x, yx, xy, p);
    }
  }

  lemma ByteLedgers(ca: Config, cb: Config, ls: seq<Label>)
    requires GoodConfig(ca) && GoodConfig(cb) && Runs(Start(ca, cb), ls)
    ensures var w := After(Start(ca, cb), ls);
            && BytesControlled(w.a, w.b, w.toA) && ArrivalSafe(w.b, w.toB)
            && BytesControlled(w.b, w.a, w.toB) && ArrivalSafe(w.a, w.toA)
  {
    hide Link, BytesControlled, ArrivalSafe, Start, Runs, After;
    StartInv(ca, cb);
    RunKeeps(Start(ca, cb), ls);
    var w := After(Start(ca, cb), ls);
    LinkBytes(w.a, w.b, w.toB, w.toA);
    LinkBytes(w.b, w.a, w.toA, w.toB);
    LinkArrivalSafe(w.a, w.b, w.toB, w.toA);
    LinkArrivalSafe(w.b, w.a, w.toA, w.toB);
  }

  // ----- discarded packets -----

  /** y would discard p although it has not delivered that frame yet. */
  predicate DiscardsNew(y: Endpoint, p: Packet) {
    && !InWindow(p.seqNum, y.rcv.nextExpected, y.rcv.nextExpected + y.rcv.window - 1)
    && p.seqNum >= y.rcv.nextExpected
  }

  /** With equal windows exactly one frame can be discarded although it is new: frame W,
      while y still waits for frame 0. */
  lemma Discards(x: Endpoint, y: Endpoint, xy: set<Packet>, yx: set<Packet>, p: Packet)
    requires Link(x, y, xy, yx) && p in xy && p.event == EventData && x.snd.window == y.rcv.window
    ensures DiscardsNew(y, p) <==> y.rcv.nextExpected == 0 && p.seqNum == y.rcv.window
    ensures DiscardsNew(y, p) ==> x.snd.acked == 0
  {
    LinkFlowControlled(x, y, xy, yx);
    assert DataOk(p, x.snd.history);
    assert y.rcv.consumed == Max(y.rcv.lastMsg, 0) && y.rcv.lastMsg < y.rcv.nextExpected && y.rcv.window >= 1;
    assert x.snd.acked <= y.rcv.consumed;
    hide SenderInv, ReceiverInv, LinkInv;
  }

  /** Of the data packets on their way to y those that it would discard are old
      duplicates, and frame W while it waits for frame 0. */
  ghost predicate DiscardsOld(y: Endpoint, xy: set<Packet>) {
    forall p :: p in xy && p.event == EventData ==>
      (DiscardsNew(y, p) <==> y.rcv.nextExpected == 0 && p.seqNum == y.rcv.window)
  }

  lemma DiscardsAreOld(ca: Config, cb: Config, ls: seq<Label>)
    requires GoodConfig(ca) && GoodConfig(cb) && ca.window == cb.window && Runs(Start(ca, cb), ls)
    ensures var w := After(Start(ca, cb), ls); DiscardsOld(w.b, w.toB) && DiscardsOld(w.a, w.toA)
  {
    hide Link, Runs, After, Start, InWindow;
    StartInv(ca, cb);
    StartWindows(ca, cb);
    WindowsFixed(Start(ca, cb), ls);
    RunKeeps(Start(ca, cb), ls);
    var w := After(Start(ca, cb), ls);
    AllDiscards(w.a, w.b, w.toB, w.toA);
    AllDiscards(w.b, w.a, w.toA, w.toB);
  }

  lemma AllDiscards(x: Endpoint, y: Endpoint, xy: set<Packet>, yx: set<Packet>)
    requires Link(x, y, xy, yx) && x.snd.window == y.rcv.window
    ensures DiscardsOld(y, xy)
  {
    hide Link, DiscardsNew;
    forall p | p in xy && p.event == EventData
      ensures DiscardsNew(y, p) <==> y.rcv.nextExpected == 0 && p.seqNum == y.rcv.window
    {
      Discards(x, y, xy, yx, p);
    }
  }

  // ----- acknowledgement accounting -----

  /** Every account has been credited with exactly the bytes of its frames that were
      removed by acknowledgements: each frame once, however often it was retried. */
  ghost predicate CreditsExact(x: Endpoint) {
    && Sender.Ok(x.snd)
    && forall a: nat :: Sender.Balance(x.snd.credited, a) == Sender.BytesFor(a, x.snd.history[..x.snd.acked + 1])
  }

  lemma SenderCredits(s: Sender.Sender, window: int, windowBytes: int, a: nat)
    requires SenderInv(s, window, windowBytes)
    ensures Sender.Balance(s.credited, a) == Sender.BytesFor(a, s.history[..s.acked + 1])
  {
    Sender.CreditCounts(map[], s.history[..s.acked + 1], a);
  }

  lemma AckAccounting(ca: Config, cb: Config, ls: seq<Label>)
    requires GoodConfig(ca) && GoodConfig(cb) && Runs(Start(ca, cb), ls)
    ensures var w := After(Start(ca, cb), ls); CreditsExact(w.a) && CreditsExact(w.b)
  {
    hide Start, Runs, After, Sender.Balance, Sender.BytesFor, ReceiverInv, DataOk, AckOk, SenderInv;
    StartInv(ca, cb);
    RunKeeps(Start(ca, cb), ls);
    var w := After(Start(ca, cb), ls);
    forall a: nat
      ensures Sender.Ok(w.a.snd) && Sender.Balance(w.a.snd.credited, a) == Sender.BytesFor(a, w.a.snd.history[..w.a.snd.acked + 1])
      ensures Sender.Ok(w.b.snd) && Sender.Balance(w.b.snd.credited, a) == Sender.BytesFor(a, w.b.snd.history[..w.b.snd.acked + 1])
    {
      PairFacts(w.a, w.b, w.toB, w.toA);
      PairFacts(w.b, w.a, w.toA, w.toB);
      SenderCredits(w.a.snd, w.b.rcv.window, w.b.rcv.windowBytes, a);
      SenderCredits(w.b.snd, w.a.rcv.window, w.a.rcv.windowBytes, a);
    }
    PairFacts(w.a, w.b, w.toB, w.toA);
    PairFacts(w.b, w.a, w.toA, w.toB);
  }
}
