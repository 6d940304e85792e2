/** Liveness without keepalives. If neither session has a DestInbox, neither sends
    keepalives, and two send gates that stale packets have closed may keep each other
    closed. This module says exactly when, and with it completes the answer to the
    question from which states everything can still be delivered. */
module Deadlock {
  import opened Integers
  import opened Tcp
  import opened Packets
  import opened Receiver
  import opened Links
  import opened Ledgers
  import opened Protocol
  import opened Safety
  import opened Handshake
  import opened Opening
  import opened Liveness
  import opened Scenarios
  import opened Wedge
  import opened Freshness
  import opened Progress
  import Sender
  import Conn
  import Theorems

  /** Everything sent is acknowledged, and the gate is closed all the same. */
  ghost predicate Shut(s: Sender.Sender) {
    Sender.Ok(s) && s.acked == Sender.LastFrameSent(s) && !Sender.GateOpen(s)
  }

  /** A packet that e would answer, or that opens the gate of e. */
  predicate Useful(e: Endpoint, p: Packet) {
    && Hears(e, p)
    && (p.event == EventData || (Idle(e.conn, p.event) && p.msgCap >= 1 && p.bytesCap >= 1))
  }

  /** The passive end has not sent its SYN-ACK as often as it may. */
  predicate Repeats(c: Conn.Conn) {
    c.tcp == SynReceived && c.attempts < Conn.MAX_ATTEMPTS
  }

  /** The gate of e is closed, and e has nothing to retry, to repeat or to consume. */
  ghost predicate Mute(e: Endpoint) {
    Shut(e.snd) && e.rcv.ready == [] && !Repeats(e.conn)
  }

  /** Both ends are mute, and no packet on its way changes that. */
  ghost predicate Dead(w: World) {
    && Mute(w.a) && Mute(w.b)
    && (forall p :: p in w.toA ==> !Useful(w.a, p))
    && (forall p :: p in w.toB ==> !Useful(w.b, p))
  }

  // ----- opening the gate of a when all is calm -----

  /** A data packet at an end in use, seen from its sender part. */
  lemma DataArrives(e: Endpoint, p: Packet, inbox: set<Packet>, local: string, remote: string)
    requires Sender.Ok(e.snd) && UpEnd(e, local, remote) && p in inbox && !ArrivalPanics(e.rcv, p)
    requires p.event == EventData && Hears(e, p)
    ensures var s := Act(e, Deliver(p), inbox);
            var (r, acks) := DataReceived(Arrived(e.rcv, p), p);
            && Allowed(e, Deliver(p), inbox) && s.Stepped? && UpEnd(s.e, local, remote) && s.e.hasDest == e.hasDest
            && s.e.conn == e.conn && s.e.snd == Sender.GotPacket(e.snd, p) && s.e.rcv == r && s.out == SetOf(acks)
  {
    OrdinaryActs(e, Deliver(p), inbox);
    DataNotLocked(e, p);
    DataNames(e.rcv, p);
    DataNames(Arrived(e.rcv, p), p);
    hide ArrivalPanics, Arrived, DataReceived, Sender.GotPacket, SetOf, Conn.LockedOn;
    GotNames(e.snd, p);
    LearnsNothing(Sender.GotPacket(e.snd, p), DataReceived(Arrived(e.rcv, p), p).1);
  }

  /** What a packet that acknowledges nothing new leaves alone. */
  lemma AckedThrough(s: Sender.Sender, p: Packet)
    requires Sender.Ok(s) && s.acked == |s.history| - 1
    ensures var t := Sender.GotPacket(s, p); t.acked == s.acked && t.history == s.history
  {
  }

  /** Both ends are up, and nothing that a sent is left to be brought across. */
  ghost predicate Resting(w: World, na: string, nb: string) {
    Up(w, na, nb) && Calm(w)
  }

  lemma RestFacts(w: World, na: string, nb: string)
    requires Resting(w, na, nb)
    ensures w.b.rcv.lastMsg == |w.a.snd.history| - 1 && w.b.rcv.lastMsg == w.b.rcv.largest
    ensures Sender.Ok(w.a.snd) && Sender.Ok(w.b.snd) && w.b.snd.window >= 1
  {
    hide ReceiverInv, CoreInv, Link;
    ReachedInv(w);
    UpFacts(w, na, nb);
    PairFacts(w.a, w.b, w.toB, w.toA);
    PairFacts(w.b, w.a, w.toA, w.toB);
    CoreOf(w.b.rcv, w.a.snd.history, w.b.app);
    NoneAhead(w.b.rcv, w.a.snd.history, w.b.app);
  }

  /** Data of b that offers room opens the gate. */
  lemma DataOpens(w: World, p: Packet, na: string, nb: string)
    requires Resting(w, na, nb) && p in w.toA && p.event == EventData && Addressed(p, nb, na)
    requires p.msgCap >= 1 && p.bytesCap >= 1
    ensures Drains(w)
  {
    hide Inv, Reaches, CanStep, Next, Act, Allowed, ArrivalPanics, Arrived, DataReceived, SetOf, Sender.GateOpen, Runs, After;
    RestFacts(w, na, nb);
    NoPanicA(w, p, na, nb);
    DataArrives(w.a, p, w.toA, na, nb);
    StepA(w, Deliver(p), na, nb);
    var v := Next(w, Do(A, Deliver(p)));
    ReachesSelf(w);
    ReachesStep(w, w, Do(A, Deliver(p)));
    Quietened(w.a.snd, p);
    hide Sender.GotPacket;
    assert Quiet(v);
  }

  lemma RestingLater(w: World, l: Label, p: Packet, na: string, nb: string)
    requires CanStep(w, l) && Resting(Next(w, l), na, nb) && p in Next(w, l).toA && p.event == EventData && Addressed(p, nb, na)
    requires p.msgCap >= 1 && p.bytesCap >= 1
    ensures Drains(w)
  {
    hide Resting, CanStep, Next, Drains, Reaches;
    DataOpens(Next(w, l), p, na, nb);
    ReachesSelf(w);
    ReachesStep(w, w, l);
    DrainsLater(w, Next(w, l));
  }

  /** A frame that b can retry carries b's fresh offer. */
  lemma RetryRevives(w: World, na: string, nb: string)
    requires Resting(w, na, nb) && FlowOk(w.b.rcv) && Sender.Ok(w.b.snd) && w.b.snd.acked < |w.b.snd.history| - 1
    ensures Drains(w)
  {
    hide Inv, Reaches, CanStep, Next, Act, Allowed, Drains;
    RestFacts(w, na, nb);
    var n := |w.b.snd.history| - 1;
    RetryActs(w.b, n, w.toB);
    StepB(w, Retry({n}), na, nb);
    var p := Sender.DataPacket(w.b.snd, w.b.rcv.flow, w.b.snd.history[n]);
    RestingLater(w, Do(B, Retry({n})), p, na, nb);
  }

  lemma PushActs(e: Endpoint, inbox: set<Packet>, local: string, remote: string)
    requires Sender.Ok(e.snd) && UpEnd(e, local, remote) && Sender.GateOpen(e.snd) && Sender.SlotFree(e.snd)
    ensures var a := Push([], None, false);
            && Allowed(e, a, inbox)
            && var s := Act(e, a, inbox);
               && s.Stepped? && UpEnd(s.e, local, remote) && s.e.rcv == e.rcv && s.e.conn == e.conn
               && exists p :: s.out == {p} && p.event == EventData && Addressed(p, local, remote)
                              && p.msgCap == e.rcv.flow.msgCap && p.bytesCap == e.rcv.flow.bytesCap
  {
    hide Sender.GateOpen;
  }

  /** So does a new message of b, if its gate is open. */
  lemma PushRevives(w: World, na: string, nb: string)
    requires Resting(w, na, nb) && FlowOk(w.b.rcv)
    requires Sender.Ok(w.b.snd) && w.b.snd.acked == |w.b.snd.history| - 1 && Sender.GateOpen(w.b.snd)
    ensures Drains(w)
  {
    hide Inv, Reaches, CanStep, Next, Act, Allowed, Drains, Sender.GateOpen;
    RestFacts(w, na, nb);
    PushActs(w.b, w.toB, nb, na);
    var a := Push([], None, false);
    StepB(w, a, na, nb);
    var p :| Act(w.b, a, w.toB).out == {p} && p.event == EventData && Addressed(p, nb, na)
             && p.msgCap == w.b.rcv.flow.msgCap && p.bytesCap == w.b.rcv.flow.bytesCap;
    RestingLater(w, Do(B, a), p, na, nb);
  }

  /** A packet that opens b's gate. */
  lemma PeerRevives(w: World, p: Packet, na: string, nb: string)
    requires Resting(w, na, nb) && p in w.toB && Idle(w.b.conn, p.event) && Hears(w.b, p) && p.msgCap >= 1 && p.bytesCap >= 1
    requires Sender.Ok(w.b.snd) && w.b.snd.acked == |w.b.snd.history| - 1
    ensures Drains(w)
  {
    hide Inv, Reaches, CanStep, Next, Act, Allowed, Drains, ArrivalPanics, Sender.GateOpen, Acked, Arrived;
    RestFacts(w, na, nb);
    NoPanicB(w, p, na, nb);
    InfoArrives(w.b, p, w.toB, nb, na);
    StepB(w, Deliver(p), na, nb);
    var l := Do(B, Deliver(p));
    var v := Next(w, l);
    Quietened(w.b.snd, p);
    AckedThrough(w.b.snd, p);
    hide Sender.GotPacket;
    AckTells(w, p, na, nb);
    ArrivedRests(w.b.rcv, p);
    PushRevives(v, na, nb);
    ReachesSelf(w);
    ReachesStep(w, w, l);
    DrainsLater(w, v);
  }

  lemma ArrivedRests(r: Receiver, p: Packet)
    ensures var r' := Arrived(r, p);
            r'.ready == r.ready && r'.nextExpected == r.nextExpected && r'.lastMsg == r.lastMsg && r'.consumed == r.consumed
  {
  }

  /** All frames of b were acknowledged: it waits for nothing but room. */
  ghost predicate AllAcked(s: Sender.Sender) {
    Sender.Ok(s) && s.acked == |s.history| - 1
  }

  /** What a's receiver may look like then. */
  lemma PeerLedger(w: World, na: string, nb: string)
    requires Up(w, na, nb) && AllAcked(w.b.snd)
    ensures var r, h := w.a.rcv, w.b.snd.history;
            && |h| - 1 <= Max(r.lastMsg, 0) && -1 <= r.lastMsg < r.nextExpected <= |h|
            && |r.ready| == r.nextExpected - 1 - r.lastMsg && r.window >= 1
            && (r.ready != [] ==> r.nextExpected == |h| == 1)
            && (r.ready == [] && r.nextExpected >= 1 ==> r.lastMsg == |h| - 1)
  {
    hide Up;
    FlipUp(w, na, nb);
    UpFacts(Flip(w), nb, na);
  }

  lemma FlipUp(w: World, na: string, nb: string)
    requires Up(w, na, nb)
    ensures Up(Flip(w), nb, na)
  {
    hide Link;
    ReachedFlip(w);
  }

  /** a consumes what b sent, and its acknowledgement opens b's gate. */
  lemma ConsumeRevives(w: World, na: string, nb: string)
    requires Resting(w, na, nb) && AllAcked(w.b.snd) && w.a.rcv.ready != []
    ensures Drains(w)
  {
    hide Link, Reaches, CanStep, Next, Act, Allowed, Drains, Delivered, ReceiverInv, SenderInv, WellNumbered;
    ReachedInv(w);
    RestFacts(w, na, nb);
    PeerLedger(w, na, nb);
    PairFacts(w.a, w.b, w.toB, w.toA);
    PairFacts(w.b, w.a, w.toA, w.toB);
    ConsumeActs(w.a, w.toA, na, nb);
    DeliveryTells(w.a.rcv, w.b.snd.history, w.a.app);
    StepA(w, Consume, na, nb);
    var l := Do(A, Consume);
    var v := Next(w, l);
    PeerRevives(v, Delivered(w.a.rcv).1, na, nb);
    ReachesSelf(w);
    ReachesStep(w, w, l);
    DrainsLater(w, v);
  }

  /** Data of b that offers no room: a has to consume it, or answers a duplicate. */
  lemma DataRevives(w: World, p: Packet, na: string, nb: string)
    requires Resting(w, na, nb) && AllAcked(w.b.snd) && w.a.rcv.ready == []
    requires p in w.toA && p.event == EventData && Hears(w.a, p)
    ensures Drains(w)
  {
    hide Inv, Reaches, CanStep, Next, Act, Allowed, Drains, ArrivalPanics, Arrived, Acked, DataReceived, SetOf;
    RestFacts(w, na, nb);
    PeerLedger(w, na, nb);
    NoPanicA(w, p, na, nb);
    PeerNumbered(w, p, na, nb);
    DataArrives(w.a, p, w.toA, na, nb);
    StepA(w, Deliver(p), na, nb);
    var l := Do(A, Deliver(p));
    var v := Next(w, l);
    AckedThrough(w.a.snd, p);
    GotNames(w.a.snd, p);
    hide Sender.GotPacket;
    ArrivedSame(w.a.rcv, p);
    if p.seqNum == w.a.rcv.nextExpected {
      NextReceived(Arrived(w.a.rcv, p), p);
      PeerLedger(v, na, nb);
      ConsumeRevives(v, na, nb);
    } else {
      OldReceived(Arrived(w.a.rcv, p), p);
      var acks := DataReceived(Arrived(w.a.rcv, p), p).1;
      OnlyOne(acks);
      PeerAnswers(w, p, na, nb);
      PeerRevives(v, acks[0], na, nb);
    }
    ReachesSelf(w);
    ReachesStep(w, w, l);
    DrainsLater(w, v);
  }

  lemma OnlyOne(acks: seq<Packet>)
    requires |acks| == 1
    ensures SetOf(acks) == {acks[0]}
  {
    assert acks[0] in acks;
  }

  lemma PeerNumbered(w: World, p: Packet, na: string, nb: string)
    requires Up(w, na, nb) && p in w.toA && p.event == EventData
    ensures 0 <= p.seqNum < |w.b.snd.history|
  {
    hide ReceiverInv, SenderInv;
    ReachedInv(w);
    assert DataOk(p, w.b.snd.history);
  }

  /** a's answer to an old duplicate offers its whole window. */
  lemma PeerAnswers(w: World, p: Packet, na: string, nb: string)
    requires Up(w, na, nb) && w.a.rcv.lastMsg == |w.b.snd.history| - 1 && p in w.toA
    ensures var ack := Acked(Arrived(w.a.rcv, p), EventDataAck).1;
            ack.event == EventDataAck && Addressed(ack, na, nb) && ack.msgCap >= 1 && ack.bytesCap >= 1
  {
    FlipUp(w, na, nb);
    AckTells(Flip(w), p, nb, na);
    hide Inv, Arrived;
  }

  /** Old data of a that b gets again. */
  lemma OldDataAnswered(w: World, p: Packet, na: string, nb: string)
    requires Resting(w, na, nb) && p in w.toB && p.event == EventData && Hears(w.b, p)
    ensures Drains(w)
  {
    hide Reached, Drains;
    RestFacts(w, na, nb);
    FlipUp(w, na, nb);
    PeerNumbered(Flip(w), p, nb, na);
    OldAnswered(w, p, na, nb);
  }

  // ----- what the handshake still has to repeat -----

  lemma RepeatActs(e: Endpoint, inbox: set<Packet>, local: string, remote: string)
    requires Sender.Ok(e.snd) && UpEnd(e, local, remote) && Repeats(e.conn)
    ensures Allowed(e, RetryTimer, inbox)
    ensures var s := Act(e, RetryTimer, inbox);
            && s.Stepped? && UpEnd(s.e, local, remote) && s.e.hasDest == e.hasDest && s.e.snd == e.snd
            && s.e.rcv == Control(e.rcv) && s.e.conn.tcp == SynReceived && s.out == {Acked(e.rcv, EventSynAck).1}
  {
    var o := Conn.Retried(e.rcv, e.conn);
    assert e.rcv.(remote := e.conn.causal.fromNonce) == e.rcv;
    assert o.Does? && o.acks == [Acked(e.rcv, EventSynAck).1] && o.r == Control(e.rcv);
    AckedNames(e.rcv, EventSynAck);
    LearnsNothing(e.snd, o.acks);
    OnlyOne(o.acks);
    hide Conn.Retried, Acked, Control, SetOf;
  }

  lemma ControlRests(r: Receiver)
    ensures var c := Control(r);
            && c.ready == r.ready && c.nextExpected == r.nextExpected && c.lastMsg == r.lastMsg && c.largest == r.largest
            && c.consumed == r.consumed
  {
  }

  lemma RepeatOffers(r: Receiver, history: seq<Frame>, app: seq<byte>)
    requires ReceiverInv(r, history, app) && r.lastMsg == r.largest
    ensures var ack := Acked(r, EventSynAck).1;
            ack.event == EventSynAck && ack.fromNonce == r.local && ack.destNonce == r.remote && ack.msgCap >= 1 && ack.bytesCap >= 1
  {
    hide ReceiverInv, CoreInv;
    CoreOf(r, history, app);
    OffersAll(r, history, app);
  }

  /** The SYN-ACK that b repeats offers a its whole window. */
  lemma RepeatRevives(w: World, na: string, nb: string)
    requires Resting(w, na, nb) && Repeats(w.b.conn)
    ensures Drains(w)
  {
    hide Link, Reaches, CanStep, Next, Act, Allowed, Drains, Control, Acked, ReceiverInv;
    RestFacts(w, na, nb);
    ReachedInv(w);
    PairFacts(w.b, w.a, w.toA, w.toB);
    RepeatActs(w.b, w.toB, nb, na);
    RepeatOffers(w.b.rcv, w.a.snd.history, w.b.app);
    ControlRests(w.b.rcv);
    StepB(w, RetryTimer, na, nb);
    Answered(w, Do(B, RetryTimer), Acked(w.b.rcv, EventSynAck).1, na, nb);
  }

  /** The one that a repeats opens the gate of b. */
  lemma RepeatOpens(w: World, na: string, nb: string)
    requires Resting(w, na, nb) && AllAcked(w.b.snd) && w.a.rcv.ready == [] && Repeats(w.a.conn)
    ensures Drains(w)
  {
    hide Link, Reaches, CanStep, Next, Act, Allowed, Drains, Control, Acked, ReceiverInv;
    RestFacts(w, na, nb);
    ReachedInv(w);
    PairFacts(w.a, w.b, w.toB, w.toA);
    PeerConsumed(w, na, nb);
    RepeatActs(w.a, w.toA, na, nb);
    RepeatOffers(w.a.rcv, w.b.snd.history, w.a.app);
    StepA(w, RetryTimer, na, nb);
    var l := Do(A, RetryTimer);
    var v := Next(w, l);
    PeerRevives(v, Acked(w.a.rcv, EventSynAck).1, na, nb);
    ReachesSelf(w);
    ReachesStep(w, w, l);
    DrainsLater(w, v);
  }

  /** If a has nothing ready and all of b is acknowledged, a has consumed all it knows of. */
  lemma PeerConsumed(w: World, na: string, nb: string)
    requires Up(w, na, nb) && AllAcked(w.b.snd) && w.a.rcv.ready == []
    ensures w.a.rcv.lastMsg == w.a.rcv.largest
  {
    hide Up, UpToDate, CapsInv, HeldInv, ReadyInv;
    PeerLedger(w, na, nb);
    PeerLargest(w, na, nb);
  }

  lemma PeerLargest(w: World, na: string, nb: string)
    requires Up(w, na, nb)
    ensures FirstSeen(w.a.rcv) && -1 <= w.a.rcv.largest < |w.b.snd.history| && w.a.rcv.nextExpected - 1 <= w.a.rcv.largest
  {
    hide ReadyInv, HeldInv, CapsInv, SenderInv, Stream, FlowInv, FirstSeen;
    ReachedInv(w);
    ReachedUpToDate(w);
  }

  // ----- the cases -----

  /** A keepalive of b carries its fresh offer. */
  lemma PeerKeepAliveDrains(w: World, na: string, nb: string)
    requires Resting(w, na, nb) && FlowOk(w.b.rcv) && w.b.hasDest
    ensures Drains(w)
  {
    hide Reached, Reaches, CanStep, Next, Act, Allowed, Drains, KeepAlivePacket;
    RestFacts(w, na, nb);
    KeepAliveActs(w.b, w.toB, nb, na);
    StepB(w, KeepAlive, na, nb);
    Answered(w, Do(B, KeepAlive), KeepAlivePacket(w.b), na, nb);
  }

  lemma QuietNow(w: World, na: string, nb: string)
    requires Resting(w, na, nb) && Sender.Ok(w.a.snd) && Sender.GateOpen(w.a.snd)
    ensures Drains(w)
  {
    hide Reached, Reaches, Sender.GateOpen;
    RestFacts(w, na, nb);
    ReachesSelf(w);
    assert Quiet(w);
  }

  /** If anything at all can still happen, the gate of a can be opened. */
  lemma AliveDrains(w: World, na: string, nb: string)
    requires Resting(w, na, nb) && FlowOk(w.b.rcv) && (w.a.hasDest || w.b.hasDest || !Dead(w))
    ensures Drains(w)
  {
    RestFacts(w, na, nb);
    hide Reached, Drains, Sender.GateOpen, FlowOk, Repeats, Hears;
    if Sender.GateOpen(w.a.snd) {
      QuietNow(w, na, nb);
    } else if w.a.hasDest {
      KeepAliveDrains(w, na, nb);
    } else if w.b.hasDest {
      PeerKeepAliveDrains(w, na, nb);
    } else if Repeats(w.b.conn) {
      RepeatRevives(w, na, nb);
    } else if w.b.snd.acked < |w.b.snd.history| - 1 {
      RetryRevives(w, na, nb);
    } else if Sender.GateOpen(w.b.snd) {
      PushRevives(w, na, nb);
    } else if w.a.rcv.ready != [] {
      ConsumeRevives(w, na, nb);
    } else if Repeats(w.a.conn) {
      RepeatOpens(w, na, nb);
    } else if p :| p in w.toB && Useful(w.b, p) {
      if p.event == EventData { OldDataAnswered(w, p, na, nb); } else { PeerRevives(w, p, na, nb); }
    } else {
      var p :| p in w.toA && Useful(w.a, p);
      if p.event == EventData { DataRevives(w, p, na, nb); } else { LastAck(w, p, na, nb); }
    }
  }

  // ----- a dead pair stays dead -----

  /** The connection is closing or closed, or was given up. */
  predicate Past(e: Endpoint) {
    Rank(e.conn.tcp) >= 5 || e.conn.halted
  }

  /** Nobody can send a keepalive, and none is on its way. */
  predicate Voiceless(w: World) {
    && !w.a.hasDest && !w.b.hasDest
    && (forall p :: p in w.toA ==> p.event != EventKeepAlive)
    && (forall p :: p in w.toB ==> p.event != EventKeepAlive)
  }

  ghost predicate DeadUp(w: World, na: string, nb: string) {
    UpEnd(w.a, na, nb) && UpEnd(w.b, nb, na) && Voiceless(w) && Dead(w)
  }

  /** One end is past being in use, or both are dead. */
  ghost predicate Over(w: World, na: string, nb: string) {
    Past(w.a) || Past(w.b) || DeadUp(w, na, nb)
  }

  /** What a step of a dead end may do: nothing but fall silent or say FIN. */
  ghost predicate DeadStep(e: Endpoint, s: Step, local: string, remote: string) {
    && s.Stepped? && s.e.hasDest == e.hasDest
    && (Past(s.e) || (UpEnd(s.e, local, remote) && Mute(s.e) && (s.e.conn.tcp == SynReceived ==> e.conn.tcp == SynReceived)))
    && (Past(s.e) || forall p :: p in s.out ==> p.event == EventFin)
  }

  ghost predicate DeadEnd(e: Endpoint, local: string, remote: string) {
    UpEnd(e, local, remote) && Mute(e) && !e.hasDest
  }

  lemma ShutStays(s: Sender.Sender, p: Packet)
    requires Shut(s) && !(p.msgCap >= 1 && p.bytesCap >= 1)
    ensures Shut(Sender.GotPacket(s, p))
  {
    hide Sender.CreditAll;
    var t := Sender.GotPacket(s, p);
    assert Stream(t.history[t.acked + 1..]) == [];
  }

  lemma DeadArrives(e: Endpoint, p: Packet, inbox: set<Packet>, local: string, remote: string)
    requires DeadEnd(e, local, remote) && Sender.Ok(e.snd) && p in inbox && Arrive(e, p).Stepped?
    requires !Useful(e, p) && p.event != EventKeepAlive
    ensures DeadStep(e, Act(e, Deliver(p), inbox), local, remote)
  {
    UpLocks(e, p, local, remote);
    ArriveHasDest(e, p);
    if !Conn.Accepts(e.rcv, e.conn, p) {
    } else if Idle(e.conn, p.event) {
      ArrivedPanicFree(e, p);
      InfoArrives(e, p, inbox, local, remote);
      ShutStays(e.snd, p);
      ArrivedRests(e.rcv, p);
      hide Arrived, Acked, Sender.GotPacket, ArrivalPanics, Shut;
    } else {
      ClosesUp(e, p);
    }
  }

  lemma UpLocks(e: Endpoint, p: Packet, local: string, remote: string)
    requires UpEnd(e, local, remote)
    ensures Conn.LockedOn(e.rcv, e.conn, p) == (e.rcv, e.conn)
    ensures Conn.Accepts(e.rcv, e.conn, p) ==> Hears(e, p)
  {
  }

  lemma ArriveHasDest(e: Endpoint, p: Packet)
    requires Sender.Ok(e.snd) && Arrive(e, p).Stepped?
    ensures Arrive(e, p).e.hasDest == e.hasDest
  {
    Theorems.ArriveWindow(e, p);
  }

  lemma ArrivedPanicFree(e: Endpoint, p: Packet)
    requires Sender.Ok(e.snd) && Arrive(e, p).Stepped? && Conn.LockedOn(e.rcv, e.conn, p) == (e.rcv, e.conn)
    requires Conn.Accepts(e.rcv, e.conn, p)
    ensures !ArrivalPanics(e.rcv, p)
  {
    hide ArrivalPanics, Conn.LockedOn, Conn.Accepts;
  }

  /** FIN, and the request to close, take an end past being in use. */
  lemma ClosesUp(e: Endpoint, p: Packet)
    requires Sender.Ok(e.snd) && (e.conn.tcp == Established || e.conn.tcp == SynReceived)
    requires p.event == EventFin || (p.event == EventStartClose && e.conn.tcp == Established)
    requires Conn.LockedOn(e.rcv, e.conn, p) == (e.rcv, e.conn) && Conn.Accepts(e.rcv, e.conn, p) && Arrive(e, p).Stepped?
    ensures Past(Arrive(e, p).e)
  {
    var r1 := Arrived(e.rcv, p);
    if p.event == EventFin {
      CloseHandled(r1, e.conn, p);
    } else {
      OtherHandled(r1, e.conn, p);
    }
    hide ArrivalPanics, Arrived, Acked, Sender.GotPacket, LearnedAll, Conn.HandleEvent, Conn.LockedOn, Conn.Accepts;
  }

  lemma DeadRead(e: Endpoint, room: nat, inbox: set<Packet>)
    requires Sender.Ok(e.snd) && Allowed(e, Read(room), inbox) && e.rcv.ready == []
    ensures var s := Act(e, Read(room), inbox); s.Stepped? && s.e == e.(app := s.e.app) && s.out == {}
  {
    NothingOut();
    assert e.rcv.(ready := []) == e.rcv;
  }

  lemma DeadActs(e: Endpoint, a: Action, inbox: set<Packet>, local: string, remote: string)
    requires DeadEnd(e, local, remote) && Sender.Ok(e.snd) && Allowed(e, a, inbox) && Act(e, a, inbox).Stepped?
    requires forall p :: p in inbox ==> !Useful(e, p) && p.event != EventKeepAlive
    ensures DeadStep(e, Act(e, a, inbox), local, remote)
  {
    hide Arrive, Sender.GateOpen, Useful, ReadInto;
    NothingOut();
    match a
    case Deliver(p) => DeadArrives(e, p, inbox, local, remote);
    case Read(room) => DeadRead(e, room, inbox);
    case Retry(frames) =>
      forall n ensures n !in frames {
        assert !(e.snd.acked < n < |e.snd.history|);
      }
    case _ =>
  }

  lemma NothingOut()
    ensures SetOf([]) == {}
  {
  }

  lemma ActOver(w: World, a: Action, na: string, nb: string)
    requires Over(w, na, nb) && CanActA(w, a)
    ensures Over(ActA(w, a), na, nb)
  {
    hide Act, Allowed, UpEnd, Mute, Useful;
    if Past(w.a) {
      PastStays(w.a, a, w.toA);
    } else if !Past(w.b) {
      FinUseless(w.b);
      DeadActs(w.a, a, w.toA, na, nb);
      var e := ActA(w, a).a;
      if !Past(e) {
        UsefulBefore(w.a, e, w.toA, na, nb);
      }
    }
  }

  lemma FinUseless(e: Endpoint)
    ensures forall p: Packet :: p.event == EventFin ==> !Useful(e, p)
  {
  }

  lemma UsefulBefore(e: Endpoint, e': Endpoint, inbox: set<Packet>, local: string, remote: string)
    requires UpEnd(e, local, remote) && UpEnd(e', local, remote) && (e'.conn.tcp == SynReceived ==> e.conn.tcp == SynReceived)
    requires forall p :: p in inbox ==> !Useful(e, p)
    ensures forall p :: p in inbox ==> !Useful(e', p)
  {
    forall p | p in inbox
      ensures !Useful(e', p)
    {
      assert !Useful(e, p);
    }
  }

  lemma PastStays(e: Endpoint, a: Action, inbox: set<Packet>)
    requires Past(e) && Sender.Ok(e.snd) && Allowed(e, a, inbox) && Act(e, a, inbox).Stepped?
    ensures Past(Act(e, a, inbox).e)
  {
    ActForward(e, a, inbox);
    hide Act;
  }

  lemma OverFlips(w: World, na: string, nb: string)
    ensures Over(w, na, nb) <==> Over(Flip(w), nb, na)
  {
    hide UpEnd, Mute, Useful, Past;
  }

  lemma StepOver(w: World, l: Label, na: string, nb: string)
    requires Over(w, na, nb) && CanStep(w, l)
    ensures Over(Next(w, l), na, nb)
  {
    hide ActA, CanActA, UpEnd, Mute, Useful, Past;
    match l
    case Do(side, a) =>
      hide Over;
      if side.A? {
        ActOver(w, a, na, nb);
      } else {
        OverFlips(w, na, nb);
        ActOver(Flip(w), a, nb, na);
        OverFlips(Next(w, l), na, nb);
      }
    case Lose(side, p) =>
  }

  lemma OverNotQuiet(w: World, na: string, nb: string)
    requires Over(w, na, nb)
    ensures !Quiet(w)
  {
  }

  lemma {:induction false} OverForever(w: World, ls: seq<Label>, na: string, nb: string)
    requires Over(w, na, nb) && Runs(w, ls)
    ensures !Quiet(After(w, ls))
    decreases |ls|
  {
    hide Over, CanStep, Next, Quiet;
    if ls == [] {
      OverNotQuiet(w, na, nb);
    } else {
      StepOver(w, ls[0], na, nb);
      OverForever(Next(w, ls[0]), ls[1..], na, nb);
    }
  }

  // ----- the exact condition -----

  /** While both ends are in use, everything sent can still be consumed and
      acknowledged, with the gate open in the end, if and only if frame 0 is safe, and
      some end can send keepalives or the pair is not dead. */
  lemma DrainsExactly(w: World, na: string, nb: string)
    requires Up(w, na, nb)
    ensures Drains(w) <==> FirstFrameSafe(w) && (w.a.hasDest || w.b.hasDest || !Dead(w))
  {
    hide Inv, FirstFrameSafe, Quiet, Runs, After, Wedged, Dead, Over, Calm;
    ReachedInv(w);
    ReachedUpToDate(w);
    if !FirstFrameSafe(w) {
      WedgedUnlessSafe(w, na, nb);
      forall ls | Runs(w, ls)
        ensures !Quiet(After(w, ls))
      {
        WedgedForever(w, ls, na, nb);
      }
    } else if w.a.hasDest || w.b.hasDest || !Dead(w) {
      SafeDrains(w, na, nb);
    } else {
      DeadIsOver(w, na, nb);
      forall ls | Runs(w, ls)
        ensures !Quiet(After(w, ls))
      {
        OverForever(w, ls, na, nb);
      }
    }
  }

  /** Everything that is not lost for good can be consumed and acknowledged. */
  lemma SafeDrains(w: World, na: string, nb: string)
    requires Up(w, na, nb) && FirstFrameSafe(w) && (w.a.hasDest || w.b.hasDest || !Dead(w))
    ensures Drains(w)
  {
    hide Reached, FirstFrameSafe, Drains, Dead, Calm;
    if Calm(w) {
      ReachedUpToDate(w);
      AliveDrains(w, na, nb);
    } else {
      BusyDrains(w, na, nb);
    }
  }

  lemma DeadIsOver(w: World, na: string, nb: string)
    requires Up(w, na, nb) && UpToDate(w) && !w.a.hasDest && !w.b.hasDest && Dead(w)
    ensures Over(w, na, nb)
  {
    hide Inv, Dead, FlowInv;
  }

  /** Never wedged: whatever was lost, duplicated, reordered or advertised, once the
      dialler is Established and while the passive end is Established or waits for the
      confirmation, each direction can be brought to a state in which all its frames are
      consumed and acknowledged and its send gate is open, exactly when its first frame
      is safe, and keepalives are possible or the pair is not dead. */
  lemma NeverWedged(ca: Config, cb: Config, ls: seq<Label>)
    requires GoodNonces(ca, cb) && Runs(Start(ca, cb), ls) && OneDialler(ls)
    requires var w := After(Start(ca, cb), ls); InUse(w.a.conn) && InUse(w.b.conn)
    ensures var w := After(Start(ca, cb), ls);
            && (Drains(w) <==> FirstFrameSafe(w) && (ca.hasDest || cb.hasDest || !Dead(w)))
            && (Drains(Flip(w)) <==> FirstFrameSafe(Flip(w)) && (ca.hasDest || cb.hasDest || !Dead(w)))
  {
    hide Start, Runs, After, Drains, FirstFrameSafe, Up, Dead, Good;
    var w := After(Start(ca, cb), ls);
    assert DialsTo(Start(ca, cb), w);
    GoodBy(ca, cb, w);
    DestFixed(ca, cb, ls);
    UpBothWays(w, ca.nonce, cb.nonce);
    DeadFlips(w);
    DrainsExactly(w, ca.nonce, cb.nonce);
    DrainsExactly(Flip(w), cb.nonce, ca.nonce);
  }

  /** A handshake that will never be completed, and all data gets through both ways. */
  lemma StrandedDrains(ca: Config, cb: Config)
    requires GoodNonces(ca, cb) && !ca.hasDest
    ensures exists v :: DialsTo(Start(ca, cb), v) && HalfOpen(v) && Stranded(v) && Drains(v) && Drains(Flip(v))
  {
    hide Start, Runs, After, Drains, Connects, Sender.GateOpen, FirstFrameSafe;
    ConfirmationLost(ca, cb);
    var v :| DialsTo(Start(ca, cb), v) && HalfOpen(v) && Stranded(v);
    var ls :| Runs(Start(ca, cb), ls) && OneDialler(ls) && After(Start(ca, cb), ls) == v;
    UnsentSafe(v);
    UnsentSafe(Flip(v));
    NeverWedged(ca, cb, ls);
  }

  lemma UnsentSafe(w: World)
    requires w.a.snd.history == []
    ensures FirstFrameSafe(w)
  {
  }

  lemma DeadFlips(w: World)
    ensures Dead(w) <==> Dead(Flip(w))
  {
    hide Mute, Useful;
  }
}
