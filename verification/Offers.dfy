/** What a session tells its peer about itself, exactly and in every run: the room it
    offers, the number it acknowledges, and when the two copies of them, the flow record
    and the number for keepalives, are brought up to date. */
module Offers {
  import opened Integers
  import opened Tcp
  import opened Packets
  import opened FlowControl
  import opened Receiver
  import opened Links
  import opened Ledgers
  import opened Protocol
  import opened Safety
  import opened Handshake
  import opened Liveness
  import opened Freshness
  import opened Reactions
  import Theorems
  import Sender
  import Conn

  /** The window without the messages after the last one consumed, up to the highest
      that arrived, whether or not the ones in between did. */
  function MsgRoom(r: Receiver): int {
    r.window - (r.largest - r.lastMsg)
  }

  /** The byte window without the bytes up to that message that the application has not
      got, and one more byte once it got something. */
  ghost function ByteRoom(r: Receiver, history: seq<Frame>, app: seq<byte>): int
    requires -1 <= r.largest < |history|
  {
    r.windowBytes - (|Stream(history[..r.largest + 1])| - |app|) + (if app == [] && r.lastMsg == -1 then 0 else 1)
  }

  ghost predicate Known(r: Receiver, history: seq<Frame>) {
    -1 <= r.largest < |history|
  }

  /** The flow record takes both capacities over, unless they are negative. */
  ghost predicate Refreshed(flow: Flow, r: Receiver, history: seq<Frame>, app: seq<byte>) {
    && Known(r, history)
    && r.flow.msgCap == (if MsgRoom(r) >= 0 then MsgRoom(r) else flow.msgCap)
    && r.flow.bytesCap == (if ByteRoom(r, history, app) >= 0 then ByteRoom(r, history, app) else flow.bytesCap)
  }

  /** q reports what r has consumed and has room for. */
  ghost predicate Reports(q: Packet, r: Receiver, history: seq<Frame>, app: seq<byte>) {
    && Known(r, history) && q.ackNum == Max(r.lastMsg, 0)
    && q.msgCap == MsgRoom(r) && q.bytesCap == ByteRoom(r, history, app)
    && q.msgCap + |r.held| <= r.window
    && q.fromNonce == r.local && q.destNonce == r.remote && q.seqNum == -99
  }

  // ----- one computation of the capacities -----

  lemma ControlRoom(r: Receiver, history: seq<Frame>, app: seq<byte>)
    requires CoreInv(r, history, app)
    ensures var c := Control(r);
            && Refreshed(r.flow, c, history, app) && c.msgCap == MsgRoom(c) && c.bytesCap == ByteRoom(c, history, app)
  {
    hide Stream, ReadyOk, TakenOf, WindowInv, HeldInv;
  }

  lemma AckedReports(r: Receiver, history: seq<Frame>, app: seq<byte>, event: TcpEvent)
    requires CoreInv(r, history, app)
    ensures var (r', ack) := Acked(r, event);
            Refreshed(r.flow, r', history, app) && Reports(ack, r', history, app)
  {
    ControlRoom(r, history, app);
    assert r.consumed == Max(r.lastMsg, 0) && r.lastMsg <= r.largest;
    hide WindowInv, ReadyInv, HeldInv, LedgerInv, ByteRoom, Refreshed;
    Theorems.HeldFits(r);
  }

  /** Computing them twice is computing them once. */
  lemma RefreshedTwice(flow: Flow, r: Receiver, r': Receiver, history: seq<Frame>, app: seq<byte>)
    requires Refreshed(flow, r, history, app) && Refreshed(r.flow, r', history, app)
    requires MsgRoom(r) == MsgRoom(r') && r'.largest == r.largest && r'.lastMsg == r.lastMsg && r'.windowBytes == r.windowBytes
    ensures Refreshed(flow, r', history, app)
  {
    hide Stream;
  }

  // ----- every step -----

  /** What the step s of x, whose peer is y, sends and leaves in its flow record. */
  ghost predicate OffersExactly(x: Endpoint, y: Endpoint, a: Action, s: Step) {
    && s.Stepped?
    && (forall q :: q in s.out && q.seqNum == -99 ==> Reports(q, s.e.rcv, y.snd.history, s.e.app))
    && (forall q :: q in s.out && q.seqNum != -99 && q.event != EventSyn ==>
          q.msgCap == x.rcv.flow.msgCap && q.bytesCap == x.rcv.flow.bytesCap)
    && (forall q :: q in s.out && q.seqNum != -99 && q.event != EventKeepAlive ==> q.ackNum == 0)
    && (if (a.Deliver? && Takes(x, a.p)) || exists q :: q in s.out && q.seqNum == -99
        then Refreshed(x.rcv.flow, s.e.rcv, y.snd.history, s.e.app)
        else s.e.rcv.flow == x.rcv.flow)
  }

  /** The receiver made the acknowledgements, if any, in its last state. */
  ghost predicate AcksExactly(r: Receiver, r': Receiver, acks: seq<Packet>, history: seq<Frame>, app: seq<byte>) {
    && (acks == [] ==> r'.flow == r.flow)
    && (acks != [] ==> Refreshed(r.flow, r', history, app))
    && forall q :: q in acks ==> Reports(q, r', history, app)
  }

  lemma AckingOffers(x: Endpoint, y: Endpoint, a: Action, e1: Endpoint, r: Receiver, c: Conn.Conn, acks: seq<Packet>)
    requires !a.Deliver? && AcksExactly(x.rcv, r, acks, y.snd.history, e1.app)
    ensures OffersExactly(x, y, a, Acking(e1, r, c, acks))
  {
    hide Reports, Refreshed;
    if acks != [] {
      assert acks[0] in SetOf(acks) && acks[0].seqNum == -99 by { assert acks[0] in acks; ReportsAsAck(acks[0], r, y.snd.history, e1.app); }
    }
    forall q | q in acks ensures q.seqNum == -99 { ReportsAsAck(q, r, y.snd.history, e1.app); }
  }

  lemma ReportsAsAck(q: Packet, r: Receiver, history: seq<Frame>, app: seq<byte>)
    requires Reports(q, r, history, app)
    ensures q.seqNum == -99
  {
  }

  lemma ConsumeOffers(x: Endpoint, y: Endpoint)
    requires ReceiverInv(x.rcv, y.snd.history, x.app) && WellNumbered(y.snd.history) && x.rcv.ready != []
    ensures var (r, ack) := Delivered(x.rcv);
            AcksExactly(x.rcv, r, [ack], y.snd.history, x.app + Unread(x.rcv.ready))
  {
    HandedAllKeeps(x.rcv, y.snd.history, x.app);
    AckedReports(HandedAll(x.rcv), y.snd.history, x.app + Unread(x.rcv.ready), EventDataAck);
    hide ReceiverInv, WellNumbered, Reports, Refreshed, Unread, Numbers, Acked;
  }

  lemma ReadOffers(x: Endpoint, y: Endpoint, room: nat)
    requires ReceiverInv(x.rcv, y.snd.history, x.app) && WellNumbered(y.snd.history)
    ensures var (r, bytes, acks) := ReadInto(x.rcv, room); AcksExactly(x.rcv, r, acks, y.snd.history, x.app + bytes)
  {
    hide ReceiverInv, WellNumbered, CoreInv, Reports, Refreshed, Filled, Acked, Progressed;
    var f := Filled(x.rcv.ready, room);
    ProgressedKeeps(x.rcv, y.snd.history, x.app, room);
    ProgressedFlow(x.rcv, f);
    AckedReports(Progressed(x.rcv, f), y.snd.history, x.app + f.bytes, EventDataAck);
  }

  lemma ProgressedFlow(r: Receiver, f: Fill)
    requires f.completed <= |r.ready| && (f.partial > 0 ==> f.completed < |r.ready|)
    ensures Progressed(r, f).flow == r.flow
  {
  }

  lemma ActionOffers(r: Receiver, c: Conn.Conn, act: TcpAction, p: Packet, history: seq<Frame>, app: seq<byte>)
    requires ReceiverInv(r, history, app)
    ensures var o := Conn.DoAction(r, c, act, p); o.Does? ==> AcksExactly(r, o.r, o.acks, history, app)
  {
    hide ReceiverInv, CoreInv, Acked, Reports, Refreshed;
    CoreOf(r, history, app);
    RemoteKeeps(r, history, app, p.fromNonce);
    CoreOf(r.(remote := p.fromNonce), history, app);
    forall e: TcpEvent
      ensures AcksExactly(r, Acked(r, e).0, [Acked(r, e).1], history, app)
    {
      AckedReports(r, history, app, e);
    }
    forall e: TcpEvent
      ensures var r1 := r.(remote := p.fromNonce); AcksExactly(r1, Acked(r1, e).0, [Acked(r1, e).1], history, app)
    {
      AckedReports(r.(remote := p.fromNonce), history, app, e);
    }
  }

  lemma ArrivedRefreshes(r: Receiver, history: seq<Frame>, app: seq<byte>, p: Packet)
    requires ReceiverInv(r, history, app) && WellNumbered(history) && DataOk(p, history)
    ensures Refreshed(r.flow, Arrived(r, p), history, app)
  {
    hide ReceiverInv, CoreInv, WellNumbered, DataOk, Control, LedgerInv, Refreshed;
    var r1 := if p.seqNum > r.largest then r.(largest := p.seqNum, maxCumul := p.cumul) else r;
    LedgerOf(r, history, app);
    LargerLedger(r, history, p);
    LargerKeeps(r, r1, history, app);
    ControlRoom(r1, history, app);
  }

  lemma LedgerOf(r: Receiver, history: seq<Frame>, app: seq<byte>)
    requires ReceiverInv(r, history, app)
    ensures LedgerInv(r, history)
  {
  }

  lemma DataOffers(flow: Flow, r: Receiver, p: Packet, history: seq<Frame>, app: seq<byte>)
    requires ReceiverInv(r, history, app) && WellNumbered(history) && p.seqNum <= r.largest && Refreshed(flow, r, history, app)
    ensures var (r', acks) := DataReceived(r, p);
            Refreshed(flow, r', history, app) && forall q :: q in acks ==> Reports(q, r', history, app)
  {
    hide ReceiverInv, CoreInv, WellNumbered, Reports, Control, Run, AfterRun;
    var r1 := Held(r, p);
    HoldKeeps(r, history, app, p);
    if !InWindow(p.seqNum, r.nextExpected, r.nextExpected + r.window - 1) {
      var d := r1.(discards := r1.discards + 1);
      DiscardsCore(r1, d, history, app);
      AckedReports(d, history, app, EventDataAck);
      ControlRests(d);
      RefreshedTwice(flow, r, Discarded(r1).0, history, app);
    }
  }

  lemma DiscardsCore(r: Receiver, d: Receiver, history: seq<Frame>, app: seq<byte>)
    requires ReceiverInv(r, history, app) && d == r.(discards := d.discards)
    ensures CoreInv(d, history, app)
  {
    hide Stream, Carries, ReadyOk, TakenOf;
  }

  lemma ControlRests(r: Receiver)
    ensures var c := Control(r); c.largest == r.largest && c.lastMsg == r.lastMsg && c.window == r.window && c.windowBytes == r.windowBytes
  {
  }

  /** With the capacities up to date all answers to an event report the same receiver. */
  predicate AllMade(r: Receiver, acks: seq<Packet>) {
    Control(r) == r && forall q :: q in acks ==> q == Acked(r, q.event).1
  }

  lemma ActionMakes(r: Receiver, c: Conn.Conn, act: TcpAction, p: Packet)
    requires Control(r) == r
    ensures var o := Conn.DoAction(r, c, act, p); o.Does? ==> AllMade(o.r, o.acks)
  {
  }

  lemma EventMakes(r: Receiver, c: Conn.Conn, p: Packet)
    requires Control(r) == r && p.event != EventData
    ensures var o := Conn.HandleEvent(r, c, p.event, p); o.Does? ==> AllMade(o.r, o.acks)
  {
    var (st, act) := Update(c.tcp, p.event, p.fromState);
    if Closes(c, p) {
      CloseHandled(r, c, p);
    } else {
      OtherActs(c, p);
      OtherHandled(r, c, p);
      ActionMakes(r, Conn.SetUp(c.(tcp := st), c.tcp, p, act), act, p);
      hide Conn.DoAction, AllMade;
    }
    hide Conn.HandleEvent, Update, Conn.SetUp;
  }

  lemma MadeReports(r: Receiver, acks: seq<Packet>, history: seq<Frame>, app: seq<byte>)
    requires AllMade(r, acks) && ReceiverInv(r, history, app)
    ensures forall q :: q in acks ==> Reports(q, r, history, app)
  {
    hide ReceiverInv, CoreInv, Reports, Control;
    CoreOf(r, history, app);
    forall q | q in acks
      ensures Reports(q, r, history, app)
    {
      AckedReports(r, history, app, q.event);
    }
  }

  lemma EventOffers(flow: Flow, r: Receiver, c: Conn.Conn, p: Packet, history: seq<Frame>, app: seq<byte>)
    requires ReceiverInv(r, history, app) && Control(r) == r && Refreshed(flow, r, history, app) && p.event != EventData
    ensures var o := Conn.HandleEvent(r, c, p.event, p);
            o.Does? ==> Refreshed(flow, o.r, history, app) && forall q :: q in o.acks ==> Reports(q, o.r, history, app)
  {
    hide ReceiverInv, Control, Conn.HandleEvent, AllMade, Reports;
    EventRemote(r, c, p.event, p);
    EventMakes(r, c, p);
    var o := Conn.HandleEvent(r, c, p.event, p);
    if o.Does? {
      RemoteKeeps(r, history, app, o.r.remote);
      MadeReports(o.r, o.acks, history, app);
    }
  }

  lemma ArriveOffers(x: Endpoint, y: Endpoint, xy: set<Packet>, yx: set<Packet>, p: Packet)
    requires Pair(x, y, xy, yx) && p in yx && Sender.Ok(x.snd) && Arrive(x, p).Stepped?
    ensures OffersExactly(x, y, Deliver(p), Arrive(x, p))
  {
    hide Link, ReceiverInv, SenderInv, DataOk, WellNumbered, Arrived, Control, DataReceived, Conn.HandleEvent, Conn.Accepts,
         Conn.LockedOn, ArrivalPanics, Sender.GotPacket, LearnedAll, Refreshed, Reports, Takes, LocksOn;
    PairFacts(x, y, xy, yx);
    HonestIn(x, y, xy, yx, p);
    TakesExactly(x, p);
    var (r0, c0) := Conn.LockedOn(x.rcv, x.conn, p);
    var h := y.snd.history;
    if Takes(x, p) {
      var r1 := Arrived(r0, p);
      RemoteKeeps(x.rcv, h, x.app, r0.remote);
      ArrivedRefreshes(r0, h, x.app, p);
      ArrivedKeeps(r0, h, x.app, p);
      ControlTwice(r0, p);
      if p.event == EventData {
        DataOffers(x.rcv.flow, r1, p, h, x.app);
        var (r2, acks) := DataReceived(r1, p);
        AnswerOffers(x, y, p, x.(snd := Sender.GotPacket(x.snd, p)), r2, c0, acks);
      } else {
        EventOffers(x.rcv.flow, r1, c0, p, h, x.app);
        var o := Conn.HandleEvent(r1, c0, p.event, p);
        AnswerOffers(x, y, p, x.(snd := Sender.GotPacket(x.snd, p)), o.r, o.c, o.acks);
      }
    }
  }

  lemma AnswerOffers(x: Endpoint, y: Endpoint, p: Packet, e1: Endpoint, r: Receiver, c: Conn.Conn, acks: seq<Packet>)
    requires Takes(x, p) && e1.app == x.app && Refreshed(x.rcv.flow, r, y.snd.history, x.app)
    requires forall q :: q in acks ==> Reports(q, r, y.snd.history, x.app)
    ensures OffersExactly(x, y, Deliver(p), Acking(e1, r, c, acks))
  {
    hide Refreshed, ByteRoom, Takes;
  }

  lemma FramesNumbered(x: Endpoint, y: Endpoint)
    requires SenderInv(x.snd, y.rcv.window, y.rcv.windowBytes)
    ensures forall n :: 0 <= n < |x.snd.history| ==> x.snd.history[n].seqNum == n
  {
  }

  lemma ActOffers(x: Endpoint, y: Endpoint, xy: set<Packet>, yx: set<Packet>, a: Action)
    requires Pair(x, y, xy, yx) && Sender.Ok(x.snd) && Allowed(x, a, yx) && Act(x, a, yx).Stepped?
    ensures OffersExactly(x, y, a, Act(x, a, yx))
  {
    hide Link, ReceiverInv, SenderInv, WellNumbered, Arrive, ReadInto, Delivered, Conn.DoAction, Refreshed, Reports, LearnedAll, Unread;
    PairFacts(x, y, xy, yx);
    FramesNumbered(x, y);
    match a
    case Deliver(p) => ArriveOffers(x, y, xy, yx, p);
    case Consume =>
      ConsumeOffers(x, y);
      var (r, ack) := Delivered(x.rcv);
      AckingOffers(x, y, a, x.(app := x.app + Unread(x.rcv.ready)), r, x.conn, [ack]);
    case Read(room) =>
      ReadOffers(x, y, room);
      var (r, bytes, acks) := ReadInto(x.rcv, room);
      AckingOffers(x, y, a, x.(app := x.app + bytes), r, x.conn, acks);
    case RetryTimer =>
      var c1 := x.conn.(attempts := x.conn.attempts + 1);
      ActionOffers(x.rcv, c1, x.conn.retryAction, x.conn.causal, y.snd.history, x.app);
      var o := Conn.Retried(x.rcv, x.conn);
      AckingOffers(x, y, a, x, o.r, o.c, o.acks);
    case _ =>
  }

  /** In every run each acknowledgement reports exactly what its sender has consumed and
      has room for, everything else carries the flow record, and that is brought up to
      date by each packet taken and each acknowledgement, and by nothing else. */
  lemma StepOffers(w: World, a: Action)
    requires Reached(w) && CanActA(w, a)
    ensures OffersExactly(w.a, w.b, a, Act(w.a, a, w.toA))
  {
    hide Link, Act, Allowed, OffersExactly;
    ReachedInv(w);
    ActOffers(w.a, w.b, w.toB, w.toA, a);
  }

  // ----- the number that keepalives acknowledge -----

  /** The number is the one consumed when a frame last came in order. */
  predicate PublishesExactly(r: Receiver, r': Receiver) {
    && r'.nextExpected >= r.nextExpected
    && r'.published == (if r'.nextExpected > r.nextExpected then r.consumed else r.published)
    && (r'.nextExpected > r.nextExpected ==> r'.consumed == r.consumed)
  }

  lemma DataPublishes(r: Receiver, p: Packet)
    requires r.window >= 1
    ensures PublishesExactly(r, DataReceived(Arrived(r, p), p).0)
  {
    if p.seqNum == r.nextExpected {
      RunStarts(r.waiting[p.seqNum := p], r.nextExpected);
    }
    hide Run, AfterRun;
  }

  lemma ArrivedPublishes(r: Receiver, p: Packet)
    ensures PublishesExactly(r, Arrived(r, p)) && SameSeen(r.(largest := Arrived(r, p).largest), Arrived(r, p))
  {
  }

  lemma ArrivePublishes(x: Endpoint, p: Packet)
    requires Sender.Ok(x.snd) && Arrive(x, p).Stepped? && x.rcv.window >= 1
    ensures PublishesExactly(x.rcv, Arrive(x, p).e.rcv)
  {
    TakesExactly(x, p);
    var (r0, c0) := Conn.LockedOn(x.rcv, x.conn, p);
    if p.event == EventData {
      DataPublishes(r0, p);
    } else {
      ArrivedPublishes(r0, p);
      ControlTwice(r0, p);
      EventRemote(Arrived(r0, p), c0, p.event, p);
    }
    hide Arrived, Control, DataReceived, Conn.HandleEvent, Conn.Accepts, Conn.LockedOn, ArrivalPanics, Sender.GotPacket,
         LearnedAll, Takes, LocksOn;
  }

  lemma ActionPublishes(r: Receiver, c: Conn.Conn, act: TcpAction, p: Packet)
    ensures var o := Conn.DoAction(r, c, act, p); o.Does? ==> PublishesExactly(r, o.r)
  {
  }

  lemma ReadPublishes(r: Receiver, room: nat)
    ensures PublishesExactly(r, ReadInto(r, room).0)
    ensures r.ready != [] ==> PublishesExactly(r, Delivered(r).0)
  {
    hide Filled, Numbers, Leftover;
  }

  /** In every run a frame that comes in order publishes the number consumed so far, no
      other step changes what is published, and keepalives acknowledge it. */
  lemma StepPublishes(w: World, a: Action)
    requires Reached(w) && CanActA(w, a)
    ensures PublishesExactly(w.a.rcv, ActA(w, a).a.rcv)
    ensures a.KeepAlive? ==>
              exists q :: Act(w.a, a, w.toA).out == {q} && q.event == EventKeepAlive && q.seqNum == -777
                          && q.fromState == w.a.conn.tcp && q.ackNum == w.a.rcv.published
  {
    hide Link, Arrive, ReadInto, Delivered, Conn.DoAction, LearnedAll, Unread, PublishesExactly, SenderInv, ReceiverInv, WellNumbered,
         Sender.GateOpen, Sender.Sent;
    ReachedInv(w);
    PairFacts(w.a, w.b, w.toB, w.toA);
    SamePublished(w.a.rcv);
    match a
    case Deliver(p) => ArrivePublishes(w.a, p);
    case Consume => ReadPublishes(w.a.rcv, 0);
    case Read(room) => ReadPublishes(w.a.rcv, room);
    case RetryTimer =>
      ActionPublishes(w.a.rcv, w.a.conn.(attempts := w.a.conn.attempts + 1), w.a.conn.retryAction, w.a.conn.causal);
    case _ =>
  }

  lemma SamePublished(r: Receiver)
    ensures PublishesExactly(r, r)
  {
  }

  // ----- the remote nonce of the sender -----

  /** A sender that knows its remote stays with it; one that does not learns it from the
      first acknowledgement that its receiver makes for somebody. */
  ghost predicate LearnsExactly(s: Sender.Sender, s': Sender.Sender, out: set<Packet>) {
    && (s.remote != "" ==> s'.remote == s.remote)
    && (s.remote == "" && s'.remote != "" ==> exists q :: q in out && q.destNonce == s'.remote)
    && (s.remote == "" && s'.remote == "" ==> forall q :: q in out ==> q.destNonce == "")
  }

  lemma {:induction false} LearnedExactly(s: Sender.Sender, acks: seq<Packet>)
    ensures LearnsExactly(s, LearnedAll(s, acks), SetOf(acks))
    decreases |acks|
  {
    if acks != [] {
      var t := Sender.Learned(s, acks[0]);
      LearnedExactly(t, acks[1..]);
      assert forall q :: q in acks <==> q == acks[0] || q in acks[1..];
    }
  }

  lemma AckingLearns(e: Endpoint, e1: Endpoint, r: Receiver, c: Conn.Conn, acks: seq<Packet>)
    requires e1.snd.remote == e.snd.remote
    ensures var s := Acking(e1, r, c, acks); LearnsExactly(e.snd, s.e.snd, s.out)
  {
    LearnedExactly(e1.snd, acks);
    hide LearnedAll, SetOf;
  }

  /** In every step other than a connect request, which asks without knowing anybody. */
  lemma StepLearns(e: Endpoint, a: Action, inbox: set<Packet>)
    requires Sender.Ok(e.snd) && Allowed(e, a, inbox) && Act(e, a, inbox).Stepped?
    ensures a.Dial? ==> Act(e, a, inbox).e.snd == e.snd
    ensures !a.Dial? ==> LearnsExactly(e.snd, Act(e, a, inbox).e.snd, Act(e, a, inbox).out)
  {
    hide LearnedAll, Delivered, ReadInto, Conn.DoAction, Conn.HandleEvent, DataReceived, Arrived, Conn.Accepts, Conn.LockedOn,
         ArrivalPanics, Unread, Sender.CreditAll, Sender.GateOpen, LearnsExactly, Acking;
    KeepsRemote(e.snd);
    match a
    case Deliver(p) =>
      var (r0, c0) := Conn.LockedOn(e.rcv, e.conn, p);
      var e1 := e.(snd := Sender.GotPacket(e.snd, p));
      var (r2, acks) := DataReceived(Arrived(r0, p), p);
      AckingLearns(e, e1, r2, c0, acks);
      var o := Conn.HandleEvent(Arrived(r0, p), c0, p.event, p);
      if o.Does? { AckingLearns(e, e1, o.r, o.c, o.acks); }
    case Consume =>
      var (r, ack) := Delivered(e.rcv);
      AckingLearns(e, e.(app := e.app + Unread(e.rcv.ready)), r, e.conn, [ack]);
    case Read(room) =>
      var (r, bytes, acks) := ReadInto(e.rcv, room);
      AckingLearns(e, e.(app := e.app + bytes), r, e.conn, acks);
    case RetryTimer =>
      var o := Conn.Retried(e.rcv, e.conn);
      AckingLearns(e, e, o.r, o.c, o.acks);
    case _ =>
  }

  lemma KeepsRemote(s: Sender.Sender)
    ensures forall t: Sender.Sender, out: set<Packet> {:trigger LearnsExactly(s, t, out)} ::
              t.remote == s.remote && (forall q :: q in out ==> q.destNonce == s.remote) ==> LearnsExactly(s, t, out)
  {
  }
}
