/** From which states everything that endpoint a sent can still be delivered to b and
    acknowledged. Both know each other's nonce; one of them is Established, and the
    other is too or is a passive end that still waits for the confirmation. */
module Liveness {
  import opened Integers
  import opened Tcp
  import opened Packets
  import opened Receiver
  import opened Links
  import opened Ledgers
  import opened Protocol
  import opened Safety
  import opened Handshake
  import Sender
  import Conn

  /** Established, or SynReceived and repeating the SYN-ACK for the remote. */
  predicate UpConn(c: Conn.Conn, remote: string) {
    && !c.halted
    && ((c.tcp == Established && !c.retrying)
        || (c.tcp == SynReceived && c.retrying && c.retryState == SynReceived
            && c.retryAction == SendSynAck && c.causal.fromNonce == remote))
  }

  predicate UpEnd(e: Endpoint, local: string, remote: string) {
    Named(e, local, remote) && local != "" && remote != "" && UpConn(e.conn, remote)
  }

  ghost predicate Up(w: World, na: string, nb: string) {
    && Reached(w) && UpEnd(w.a, na, nb) && UpEnd(w.b, nb, na)
    && (w.a.conn.tcp == Established || w.b.conn.tcp == Established)
  }

  predicate InUse(c: Conn.Conn) {
    !c.halted && (c.tcp == Established || c.tcp == SynReceived)
  }

  /** Every frame sent was consumed and has left the retry indices, and a new one
      would be accepted; neither end is closing or finished. */
  ghost predicate Quiet(w: World) {
    && Sender.Ok(w.a.snd) && InUse(w.a.conn) && InUse(w.b.conn)
    && w.b.rcv.lastMsg == Sender.LastFrameSent(w.a.snd) == w.a.snd.acked
    && Sender.GateOpen(w.a.snd)
  }

  ghost predicate Drains(w: World) {
    exists v :: Reaches(w, v) && Quiet(v)
  }

  predicate Addressed(p: Packet, from: string, to: string) {
    p.fromNonce == from && p.destNonce == to
  }

  /** e does not filter p out: only an Established end insists on its own nonce. */
  predicate Hears(e: Endpoint, p: Packet) {
    p.fromNonce == e.rcv.remote && (p.destNonce == e.rcv.local || (p.destNonce == "" && e.conn.tcp == SynReceived))
  }

  /** The connection is what it was, or has been confirmed since. */
  predicate Grows(c: Conn.Conn, c': Conn.Conn) {
    c' == c || (c.tcp == SynReceived && c'.tcp == Established)
  }

  /** Frame 0 has arrived, or will be retried, or a copy of it is still on its way. */
  ghost predicate FirstFrameSafe(w: World) {
    || w.a.snd.history == []
    || w.b.rcv.nextExpected >= 1
    || w.a.snd.acked == -1
    || exists p :: p in w.toB && p.event == EventData && p.seqNum == 0 && Hears(w.b, p)
  }

  /** The flow record offers room whenever everything that arrived is consumed. */
  predicate FlowOk(r: Receiver) {
    r.lastMsg == r.largest ==> r.flow.msgCap >= 1 && r.flow.bytesCap >= 1
  }

  // ----- one step at either end -----

  lemma StepA(w: World, a: Action, na: string, nb: string)
    requires Up(w, na, nb) && Sender.Ok(w.a.snd) && Allowed(w.a, a, w.toA) && Act(w.a, a, w.toA).Stepped?
    ensures var s := Act(w.a, a, w.toA);
            CanStep(w, Do(A, a)) && Next(w, Do(A, a)) == w.(a := s.e, toB := w.toB + s.out) && Reached(Next(w, Do(A, a)))
  {
    hide Reached, Act, Allowed;
    assert CanStep(w, Do(A, a));
    ReachedStep(w, Do(A, a));
  }

  lemma StepB(w: World, a: Action, na: string, nb: string)
    requires Up(w, na, nb) && Sender.Ok(w.b.snd) && Allowed(w.b, a, w.toB) && Act(w.b, a, w.toB).Stepped?
    ensures var s := Act(w.b, a, w.toB);
            CanStep(w, Do(B, a)) && Next(w, Do(B, a)) == w.(b := s.e, toA := w.toA + s.out) && Reached(Next(w, Do(B, a)))
  {
    hide Reached, Act, Allowed;
    assert CanStep(w, Do(B, a));
    ReachedStep(w, Do(B, a));
  }

  /** The facts of the invariant that the strategy uses. */
  lemma UpFacts(w: World, na: string, nb: string)
    requires Up(w, na, nb)
    ensures Sender.Ok(w.a.snd) && Sender.Ok(w.b.snd)
    ensures w.a.snd.acked <= w.b.rcv.consumed == Max(w.b.rcv.lastMsg, 0)
    ensures -1 <= w.b.rcv.lastMsg < w.b.rcv.nextExpected <= |w.a.snd.history|
    ensures |w.b.rcv.ready| == w.b.rcv.nextExpected - 1 - w.b.rcv.lastMsg
    ensures w.b.rcv.window >= 1 && w.b.rcv.windowBytes >= 1 && w.a.snd.window >= 1
    ensures forall n :: 0 <= n < |w.a.snd.history| ==> w.a.snd.history[n].seqNum == n
  {
    hide Stream, Carries, ReadyOk, TakenOf;
    ReachedInv(w);
  }

  lemma NoPanicB(w: World, p: Packet, na: string, nb: string)
    requires Up(w, na, nb) && p in w.toB
    ensures !ArrivalPanics(w.b.rcv, p)
  {
    hide ArrivalPanics;
    ReachedInv(w);
    ArrivePanicFree(w.b, w.a, w.toA, w.toB, p);
  }

  lemma NoPanicA(w: World, p: Packet, na: string, nb: string)
    requires Up(w, na, nb) && p in w.toA
    ensures !ArrivalPanics(w.a.rcv, p)
  {
    hide ArrivalPanics;
    ReachedInv(w);
    ArrivePanicFree(w.a, w.b, w.toB, w.toA, p);
  }

  // ----- getting every frame across -----

  lemma RunStarts(waiting: map<int, Packet>, n: int)
    requires n in waiting
    ensures |Run(waiting, n)| >= 1
  {
  }

  lemma NextReceived(r: Receiver, p: Packet)
    requires p.seqNum == r.nextExpected && r.window >= 1
    ensures var (r', acks) := DataReceived(r, p); r'.nextExpected > r.nextExpected && r'.lastMsg == r.lastMsg && acks == []
  {
    RunStarts(r.waiting[p.seqNum := p], r.nextExpected);
    hide Run, AfterRun;
  }

  lemma ArrivedSame(r: Receiver, p: Packet)
    ensures var r' := Arrived(r, p);
            && r'.nextExpected == r.nextExpected && r'.lastMsg == r.lastMsg && r'.consumed == r.consumed
            && r'.window == r.window && r'.windowBytes == r.windowBytes
            && Acked(r', EventDataAck).0.lastMsg == r.lastMsg
  {
  }

  lemma NextArrives(e: Endpoint, p: Packet, inbox: set<Packet>, local: string, remote: string)
    requires Sender.Ok(e.snd) && UpEnd(e, local, remote) && e.rcv.window >= 1 && p in inbox
    requires p.event == EventData && p.seqNum == e.rcv.nextExpected && Hears(e, p) && !ArrivalPanics(e.rcv, p)
    ensures var s := Act(e, Deliver(p), inbox);
            && s.Stepped? && UpEnd(s.e, local, remote) && s.e.hasDest == e.hasDest
            && s.e.conn == e.conn && s.e.rcv.nextExpected > e.rcv.nextExpected && s.e.rcv.lastMsg == e.rcv.lastMsg
  {
    OrdinaryActs(e, Deliver(p), inbox);
    ArrivedSame(e.rcv, p);
    NextReceived(Arrived(e.rcv, p), p);
    hide ArrivalPanics, Arrived, DataReceived;
  }

  /** The next world, when b gets the frame it waits for. */
  ghost predicate GotMore(w: World, v: World, na: string, nb: string) {
    && Up(v, na, nb) && v.a == w.a && v.b.hasDest == w.b.hasDest
    && v.b.rcv.nextExpected > w.b.rcv.nextExpected && v.b.rcv.lastMsg == w.b.rcv.lastMsg
  }

  lemma DeliverNext(w: World, p: Packet, na: string, nb: string)
    requires Up(w, na, nb) && p in w.toB
    requires p.event == EventData && p.seqNum == w.b.rcv.nextExpected && Hears(w.b, p)
    ensures exists v :: Reaches(w, v) && GotMore(w, v, na, nb)
  {
    UpFacts(w, na, nb);
    NoPanicB(w, p, na, nb);
    NextArrives(w.b, p, w.toB, nb, na);
    StepB(w, Deliver(p), na, nb);
    var v := Next(w, Do(B, Deliver(p)));
    hide Reached, Act, ArrivalPanics;
    ReachesSelf(w);
    ReachesStep(w, w, Do(B, Deliver(p)));
    assert GotMore(w, v, na, nb);
  }

  lemma RetryActs(e: Endpoint, n: int, inbox: set<Packet>)
    requires Sender.Ok(e.snd) && Conn.Live(e.conn) && e.snd.acked < n < |e.snd.history|
    ensures Allowed(e, Retry({n}), inbox)
    ensures Act(e, Retry({n}), inbox) == Stepped(e, {Sender.DataPacket(e.snd, e.rcv.flow, e.snd.history[n])})
  {
    hide Sender.DataPacket;
  }

  lemma PacketOf(e: Endpoint, n: int, local: string, remote: string)
    requires Named(e, local, remote) && 0 <= n < |e.snd.history| && e.snd.history[n].seqNum == n
    ensures var p := Sender.DataPacket(e.snd, e.rcv.flow, e.snd.history[n]);
            p.event == EventData && p.seqNum == n && Addressed(p, local, remote)
  {
  }

  /** The retry of one frame puts its packet into the network. */
  lemma RetryOne(w: World, n: int, na: string, nb: string)
    requires Up(w, na, nb) && w.a.snd.acked < n < |w.a.snd.history| && n >= 0
    ensures var p := Sender.DataPacket(w.a.snd, w.a.rcv.flow, w.a.snd.history[n]);
            var v := w.(toB := w.toB + {p});
            && Reaches(w, v) && Up(v, na, nb)
            && p.event == EventData && p.seqNum == n && Addressed(p, na, nb)
  {
    UpFacts(w, na, nb);
    hide Reached, Sender.DataPacket;
    RetryActs(w.a, n, w.toA);
    PacketOf(w.a, n, na, nb);
    StepA(w, Retry({n}), na, nb);
    hide Act, Allowed;
    ReachesSelf(w);
    ReachesStep(w, w, Do(A, Retry({n})));
  }

  /** While a frame is missing, the next one can be brought across. */
  lemma AdvanceOne(w: World, na: string, nb: string)
    requires Up(w, na, nb) && FirstFrameSafe(w) && w.b.rcv.nextExpected < |w.a.snd.history|
    ensures exists v :: Reaches(w, v) && GotMore(w, v, na, nb)
  {
    hide Reached;
    UpFacts(w, na, nb);
    var k := w.b.rcv.nextExpected;
    if k > w.a.snd.acked {
      RetryOne(w, k, na, nb);
      var p := Sender.DataPacket(w.a.snd, w.a.rcv.flow, w.a.snd.history[k]);
      var u := w.(toB := w.toB + {p});
      DeliverNext(u, p, na, nb);
      var v :| Reaches(u, v) && GotMore(u, v, na, nb);
      ReachesTrans(w, u, v);
      assert GotMore(w, v, na, nb);
    } else {
      assert k == 0;
      var p :| p in w.toB && p.event == EventData && p.seqNum == 0 && Hears(w.b, p);
      DeliverNext(w, p, na, nb);
    }
  }

  /** Nothing more is expected from a. */
  ghost predicate AllAcross(w: World, v: World, na: string, nb: string) {
    && Up(v, na, nb) && v.a == w.a && v.b.hasDest == w.b.hasDest
    && v.b.rcv.nextExpected == |w.a.snd.history| && v.b.rcv.lastMsg == w.b.rcv.lastMsg
  }

  lemma {:induction false} AdvanceAll(w: World, na: string, nb: string)
    requires Up(w, na, nb) && FirstFrameSafe(w)
    ensures exists v :: Reaches(w, v) && AllAcross(w, v, na, nb)
    decreases |w.a.snd.history| - w.b.rcv.nextExpected
  {
    UpFacts(w, na, nb);
    hide Reached, Reaches;
    if w.b.rcv.nextExpected < |w.a.snd.history| {
      AdvanceOne(w, na, nb);
      var u :| Reaches(w, u) && GotMore(w, u, na, nb);
      UpFacts(u, na, nb);
      AdvanceAll(u, na, nb);
      var v :| Reaches(u, v) && AllAcross(u, v, na, nb);
      ReachesTrans(w, u, v);
      assert AllAcross(w, v, na, nb);
    } else {
      ReachesSelf(w);
      assert AllAcross(w, w, na, nb);
    }
  }

  // ----- consuming and acknowledging it -----

  /** A packet that tells e all it needs to know: everything is consumed, send more. */
  predicate TellsAll(e: Endpoint, p: Packet) {
    && (Idle(e.conn, p.event) || p.event == EventKeepAlive) && Hears(e, p) && (p.ackNum >= |e.snd.history| - 1 || e.snd.acked == |e.snd.history| - 1)
    && p.msgCap >= 1 && p.bytesCap >= 1
  }

  lemma NoneAhead(r: Receiver, history: seq<Frame>, app: seq<byte>)
    requires CoreInv(r, history, app) && r.lastMsg == |history| - 1
    ensures r.lastMsg == r.largest && r.nextExpected == |history| && r.ready == []
  {
    hide Stream, ReadyOk, TakenOf, WindowInv, HeldInv;
  }

  /** Once everything that arrived is consumed the receiver offers its whole window again. */
  lemma OffersAll(r: Receiver, history: seq<Frame>, app: seq<byte>)
    requires CoreInv(r, history, app) && r.lastMsg == r.largest
    ensures var c := Control(r);
            && c.msgCap == r.window >= 1 && c.bytesCap >= r.windowBytes >= 1 && c.consumed == Max(r.lastMsg, 0)
            && c.flow.msgCap == c.msgCap && c.flow.bytesCap == c.bytesCap
  {
    assert r.ready == [] && TakenOf(r.ready) == [];
    hide ReadyOk, Stream, TakenOf;
  }

  /** Events other than data that an end in use only takes note of. */
  predicate Idle(c: Conn.Conn, event: TcpEvent) {
    && event != EventData && event != EventKeepAlive && event != EventFin
    && (event == EventStartClose ==> c.tcp == SynReceived)
  }

  /** The state after an event that calls for no answer. */
  function Noted(c: Conn.Conn, p: Packet): Conn.Conn {
    if c.tcp == SynReceived && Confirms(p) then c.(tcp := Established, retrying := false) else c
  }

  lemma InfoHandled(r: Receiver, c: Conn.Conn, p: Packet)
    requires InUse(c) && (Idle(c, p.event) || p.event == EventKeepAlive)
    ensures var (r', ack) := Acked(r, EventDataAck);
            Conn.HandleEvent(r, c, p.event, p) ==
            if p.event == EventKeepAlive && c.tcp == Established then Conn.Does(r', c, [ack]) else Conn.Does(r, Noted(c, p), [])
  {
    OtherHandled(r, c, p);
    hide Acked, Conn.HandleEvent;
  }

  lemma HearsAccepts(e: Endpoint, p: Packet, local: string, remote: string)
    requires UpEnd(e, local, remote) && Hears(e, p)
    ensures Conn.LockedOn(e.rcv, e.conn, p) == (e.rcv, e.conn) && Conn.Accepts(e.rcv, e.conn, p)
  {
  }

  /** Keepalives, and acknowledgements that call for no answer, at an end in use. */
  lemma InfoArrives(e: Endpoint, p: Packet, inbox: set<Packet>, local: string, remote: string)
    requires Sender.Ok(e.snd) && UpEnd(e, local, remote) && p in inbox && !ArrivalPanics(e.rcv, p)
    requires (Idle(e.conn, p.event) || p.event == EventKeepAlive) && Hears(e, p)
    ensures var s := Act(e, Deliver(p), inbox);
            var (r, ack) := Acked(Arrived(e.rcv, p), EventDataAck);
            && Allowed(e, Deliver(p), inbox) && s.Stepped? && UpEnd(s.e, local, remote) && s.e.hasDest == e.hasDest
            && s.e.snd == Sender.GotPacket(e.snd, p) && s.e.conn == Noted(e.conn, p) && Grows(e.conn, s.e.conn)
            && (if p.event == EventKeepAlive && e.conn.tcp == Established then s.e.rcv == r && s.out == {ack}
                else s.e.rcv == Arrived(e.rcv, p) && s.out == {})
  {
    hide ArrivalPanics, Arrived, Acked, Sender.GotPacket, Conn.HandleEvent, Conn.LockedOn, Conn.Accepts;
    HearsAccepts(e, p, local, remote);
    DataNames(e.rcv, p);
    var r1 := Arrived(e.rcv, p);
    AckedNames(r1, EventDataAck);
    var (r, ack) := Acked(r1, EventDataAck);
    InfoHandled(r1, e.conn, p);
    var s1 := Sender.GotPacket(e.snd, p);
    assert s1.remote == e.snd.remote && s1.local == e.snd.local by { GotNames(e.snd, p); }
    LearnsNothing(s1, [ack]);
    assert SetOf([ack]) == {ack};
    assert SetOf([]) == {};
  }

  lemma GotNames(s: Sender.Sender, p: Packet)
    requires Sender.Ok(s)
    ensures var t := Sender.GotPacket(s, p); t.remote == s.remote && t.local == s.local && t.history == s.history
  {
  }

  /** Such a packet is the last one needed. */
  lemma LastAck(w: World, p: Packet, na: string, nb: string)
    requires Up(w, na, nb) && w.b.rcv.lastMsg == |w.a.snd.history| - 1 && p in w.toA
    requires TellsAll(w.a, p)
    ensures Drains(w)
  {
    hide Reached, Reaches, CanStep, Next, Act, Allowed, ArrivalPanics;
    UpFacts(w, na, nb);
    NoPanicA(w, p, na, nb);
    InfoArrives(w.a, p, w.toA, na, nb);
    StepA(w, Deliver(p), na, nb);
    var v := Next(w, Do(A, Deliver(p)));
    ReachesSelf(w);
    ReachesStep(w, w, Do(A, Deliver(p)));
    Quietened(w.a.snd, p);
    assert Quiet(v);
  }

  lemma Quietened(s: Sender.Sender, p: Packet)
    requires Sender.Ok(s) && (p.ackNum >= |s.history| - 1 || s.acked == |s.history| - 1) && p.msgCap >= 1 && p.bytesCap >= 1
    ensures var t := Sender.GotPacket(s, p);
            Sender.Ok(t) && t.acked == Sender.LastFrameSent(t) == |s.history| - 1 && Sender.GateOpen(t)
  {
    hide Sender.CreditAll;
    var t := Sender.GotPacket(s, p);
    assert t.history[t.acked + 1..] == [];
  }

  lemma DrainsLater(w: World, v: World)
    requires Reaches(w, v) && Drains(v)
    ensures Drains(w)
  {
    hide Reaches, Quiet;
    var u :| Reaches(v, u) && Quiet(u);
    ReachesTrans(w, v, u);
  }

  /** An acknowledgement that b sends now tells a all it needs to know. */
  lemma AckTells(w: World, p: Packet, na: string, nb: string)
    requires Up(w, na, nb) && w.b.rcv.lastMsg == |w.a.snd.history| - 1 && p in w.toB
    ensures var r := Arrived(w.b.rcv, p);
            && TellsAll(w.a, Acked(r, EventDataAck).1) && Addressed(Acked(r, EventDataAck).1, nb, na)
            && r.flow.msgCap >= 1 && r.flow.bytesCap >= 1
  {
    hide ReceiverInv, SenderInv, DataOk, WellNumbered, Arrived, Acked, Control;
    ReachedInv(w);
    var r, h := w.b.rcv, w.a.snd.history;
    assert DataOk(p, h);
    PairFacts(w.a, w.b, w.toB, w.toA);
    PairFacts(w.b, w.a, w.toA, w.toB);
    ArrivedOffers(r, h, w.b.app, p);
    DataNames(r, p);
    AckedNames(Arrived(r, p), EventDataAck);
  }

  /** After an arrival that finds everything consumed, the acknowledgement and the
      shared flow record offer the whole window. */
  lemma ArrivedOffers(r: Receiver, history: seq<Frame>, app: seq<byte>, p: Packet)
    requires ReceiverInv(r, history, app) && WellNumbered(history) && DataOk(p, history) && r.lastMsg == |history| - 1
    ensures var r1 := Arrived(r, p);
            var ack := Acked(r1, EventDataAck).1;
            && ack.ackNum >= |history| - 1 && ack.msgCap >= 1 && ack.bytesCap >= 1
            && r1.flow.msgCap >= 1 && r1.flow.bytesCap >= 1
  {
    hide ReceiverInv, CoreInv, DataOk, WellNumbered, Arrived, Control;
    var r1 := Arrived(r, p);
    ArrivedSame(r, p);
    ArrivedKeeps(r, history, app, p);
    CoreOf(r1, history, app);
    NoneAhead(r1, history, app);
    OffersAll(r1, history, app);
    ControlTwice(r, p);
  }

  lemma ControlTwice(r: Receiver, p: Packet)
    ensures Control(Arrived(r, p)) == Arrived(r, p)
  {
  }

  /** An old duplicate is answered with an acknowledgement. */
  lemma OldReceived(r: Receiver, p: Packet)
    requires p.seqNum < r.nextExpected
    ensures var (r', acks) := DataReceived(r, p);
            r'.lastMsg == r.lastMsg && |acks| == 1 && acks[0] == Acked(r, EventDataAck).1
  {
  }

  lemma OldArrives(e: Endpoint, p: Packet, inbox: set<Packet>, local: string, remote: string)
    requires Sender.Ok(e.snd) && UpEnd(e, local, remote) && p in inbox && !ArrivalPanics(e.rcv, p)
    requires p.event == EventData && p.seqNum < e.rcv.nextExpected && Hears(e, p)
    ensures var s := Act(e, Deliver(p), inbox);
            && Allowed(e, Deliver(p), inbox) && s.Stepped? && UpEnd(s.e, local, remote) && s.e.hasDest == e.hasDest
            && s.e.conn == e.conn && s.e.rcv.lastMsg == e.rcv.lastMsg && s.out == {Acked(Arrived(e.rcv, p), EventDataAck).1}
  {
    OrdinaryActs(e, Deliver(p), inbox);
    ArrivedSame(e.rcv, p);
    OldReceived(Arrived(e.rcv, p), p);
    hide ArrivalPanics, Arrived, DataReceived, Acked;
    var acks := DataReceived(Arrived(e.rcv, p), p).1;
    assert SetOf(acks) == {acks[0]};
  }

  /** If the last frame is not acknowledged, its retry is answered. */
  lemma RetryDrains(w: World, na: string, nb: string)
    requires Up(w, na, nb) && w.b.rcv.lastMsg == |w.a.snd.history| - 1 && w.a.snd.acked < |w.a.snd.history| - 1
    ensures Drains(w)
  {
    hide Reached, Reaches, CanStep, Next, Act, Allowed, ArrivalPanics, Drains, Acked, Arrived;
    UpFacts(w, na, nb);
    var last := |w.a.snd.history| - 1;
    RetryOne(w, last, na, nb);
    var p := Sender.DataPacket(w.a.snd, w.a.rcv.flow, w.a.snd.history[last]);
    var u := w.(toB := w.toB + {p});
    hide Sender.DataPacket;
    OldAnswered(u, p, na, nb);
    DrainsLater(w, u);
  }

  lemma OldAnswered(w: World, p: Packet, na: string, nb: string)
    requires Up(w, na, nb) && w.b.rcv.lastMsg == |w.a.snd.history| - 1 && p in w.toB
    requires p.event == EventData && p.seqNum <= |w.a.snd.history| - 1 && Hears(w.b, p)
    ensures Drains(w)
  {
    hide Reached, Reaches, CanStep, Next, Act, Allowed, ArrivalPanics, Drains, Acked, Arrived, TellsAll;
    UpFacts(w, na, nb);
    NoPanicB(w, p, na, nb);
    OldArrives(w.b, p, w.toB, nb, na);
    AckTells(w, p, na, nb);
    StepB(w, Deliver(p), na, nb);
    Answered(w, Do(B, Deliver(p)), Acked(Arrived(w.b.rcv, p), EventDataAck).1, na, nb);
  }

  /** A step of b that put such an acknowledgement into the network. */
  lemma Answered(w: World, l: Label, ack: Packet, na: string, nb: string)
    requires CanStep(w, l)
    requires var v := Next(w, l);
             && Up(v, na, nb) && v.a == w.a && v.b.rcv.lastMsg == |v.a.snd.history| - 1 && ack in v.toA
             && TellsAll(v.a, ack)
    ensures Drains(w)
  {
    hide Reached, Reaches, CanStep, Next, Drains, TellsAll;
    var v := Next(w, l);
    LastAck(v, ack, na, nb);
    ReachesSelf(w);
    ReachesStep(w, w, l);
    DrainsLater(w, v);
  }

  lemma KeepAliveActs(e: Endpoint, inbox: set<Packet>, local: string, remote: string)
    requires Sender.Ok(e.snd) && UpEnd(e, local, remote) && e.hasDest
    ensures Allowed(e, KeepAlive, inbox) && Act(e, KeepAlive, inbox) == Stepped(e, {KeepAlivePacket(e)})
    ensures var p := KeepAlivePacket(e);
            p.event == EventKeepAlive && Addressed(p, local, remote) && p.fromState == e.conn.tcp
            && p.msgCap == e.rcv.flow.msgCap && p.bytesCap == e.rcv.flow.bytesCap && p.ackNum == e.rcv.published
  {
  }

  /** A keepalive of a is answered; if it is also the confirmation that b waits for,
      the next one is. */
  lemma KeepAliveDrains(w: World, na: string, nb: string)
    requires Up(w, na, nb) && w.b.rcv.lastMsg == |w.a.snd.history| - 1 && w.a.hasDest
    ensures Drains(w)
    decreases w.b.conn.tcp == SynReceived
  {
    hide Reached, Reaches, CanStep, Next, Act, Allowed, ArrivalPanics, Drains, KeepAlivePacket, Arrived, Acked, TellsAll;
    UpFacts(w, na, nb);
    KeepAliveActs(w.a, w.toA, na, nb);
    StepA(w, KeepAlive, na, nb);
    var u, p := Next(w, Do(A, KeepAlive)), KeepAlivePacket(w.a);
    ReachesSelf(w);
    ReachesStep(w, w, Do(A, KeepAlive));
    NoPanicB(u, p, na, nb);
    InfoArrives(u.b, p, u.toB, nb, na);
    ArrivedSame(u.b.rcv, p);
    StepB(u, Deliver(p), na, nb);
    if u.b.conn.tcp == Established {
      AckTells(u, p, na, nb);
      Answered(u, Do(B, Deliver(p)), Acked(Arrived(u.b.rcv, p), EventDataAck).1, na, nb);
      DrainsLater(w, u);
    } else {
      var v := Next(u, Do(B, Deliver(p)));
      ReachesStep(w, u, Do(B, Deliver(p)));
      KeepAliveDrains(v, na, nb);
      DrainsLater(w, v);
    }
  }

  // ----- the cases -----

  lemma ConsumeActs(e: Endpoint, inbox: set<Packet>, local: string, remote: string)
    requires Sender.Ok(e.snd) && UpEnd(e, local, remote) && e.rcv.ready != []
    ensures Allowed(e, Consume, inbox)
    ensures var s := Act(e, Consume, inbox);
            var (r, ack) := Delivered(e.rcv);
            && s.Stepped? && UpEnd(s.e, local, remote) && s.e.hasDest == e.hasDest && s.e.snd == e.snd
            && s.e.conn == e.conn && s.e.rcv == r && s.out == {ack} && ack.event == EventDataAck && Addressed(ack, local, remote)
  {
    OrdinaryActs(e, Consume, inbox);
    ReadNames(e.rcv, 0);
    var (r, ack) := Delivered(e.rcv);
    assert ack in [ack];
    LearnsNothing(e.snd, [ack]);
    assert SetOf([ack]) == {ack};
    hide Delivered, Unread;
  }

  /** What is acknowledged when everything ready is consumed and nothing is buffered. */
  lemma DeliveryTells(r: Receiver, history: seq<Frame>, app: seq<byte>)
    requires ReceiverInv(r, history, app) && WellNumbered(history) && r.ready != [] && r.nextExpected == |history|
    ensures var (r', ack) := Delivered(r);
            && r'.lastMsg == |history| - 1 && ack.ackNum == |history| - 1 && ack.msgCap >= 1 && ack.bytesCap >= 1
  {
    var r1 := HandedAll(r);
    HandedAllKeeps(r, history, app);
    LastNumber(r, history, app);
    hide ReceiverInv, WellNumbered, CoreInv, Unread, Numbers, Control;
    assert r1.lastMsg == |history| - 1;
    NoneAhead(r1, history, app + Unread(r.ready));
    OffersAll(r1, history, app + Unread(r.ready));
    assert Delivered(r) == Acked(r1, EventDataAck);
    ControlLedgers(r1);
  }

  lemma ControlLedgers(r: Receiver)
    ensures var c := Control(r); c.lastMsg == r.lastMsg && c.consumed == r.consumed
  {
  }

  lemma LastNumber(r: Receiver, history: seq<Frame>, app: seq<byte>)
    requires ReceiverInv(r, history, app) && WellNumbered(history) && r.ready != []
    ensures r.ready[|r.ready| - 1].seqNum == r.nextExpected - 1
  {
    ReadyAt(r.ready, r.lastMsg + 1, history, |r.ready| - 1);
  }

  /** If something is ready, its consumption is acknowledged. */
  lemma ConsumeDrains(w: World, na: string, nb: string)
    requires Up(w, na, nb) && w.b.rcv.nextExpected == |w.a.snd.history| && w.b.rcv.ready != []
    ensures Drains(w)
  {
    hide Link, Reaches, CanStep, Next, Act, Allowed, Drains, Delivered, ReceiverInv, SenderInv, WellNumbered;
    ReachedInv(w);
    PairFacts(w.a, w.b, w.toB, w.toA);
    PairFacts(w.b, w.a, w.toA, w.toB);
    ConsumeActs(w.b, w.toB, nb, na);
    DeliveryTells(w.b.rcv, w.a.snd.history, w.b.app);
    StepB(w, Consume, na, nb);
    Answered(w, Do(B, Consume), Delivered(w.b.rcv).1, na, nb);
  }

  /** Nothing is left to be sent, consumed or acknowledged. */
  ghost predicate Calm(w: World) {
    w.b.rcv.nextExpected == |w.a.snd.history| && w.b.rcv.ready == [] && w.a.snd.acked == |w.a.snd.history| - 1
  }

  /** While there is something left, bringing it across, consuming it and retrying the
      last frame suffice. */
  lemma BusyDrains(w: World, na: string, nb: string)
    requires Up(w, na, nb) && FirstFrameSafe(w) && !Calm(w)
    ensures Drains(w)
  {
    UpFacts(w, na, nb);
    hide Up, Reaches, Drains, FirstFrameSafe;
    if w.b.rcv.nextExpected < |w.a.snd.history| {
      AdvanceAll(w, na, nb);
      var u :| Reaches(w, u) && AllAcross(w, u, na, nb);
      UpFacts(u, na, nb);
      ConsumeDrains(u, na, nb);
      DrainsLater(w, u);
    } else if w.b.rcv.ready != [] {
      ConsumeDrains(w, na, nb);
    } else {
      RetryDrains(w, na, nb);
    }
  }
}
