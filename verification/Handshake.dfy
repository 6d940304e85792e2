/** Connection set-up between a dialler, endpoint a, and a passive end, endpoint b:
    every run in which only a dials, over a network that loses, duplicates and
    reorders. na and nb are the nonces of the two sessions. */
module Handshake {
  import opened Tcp
  import opened Packets
  import opened Receiver
  import opened Protocol
  import opened Safety
  import Sender
  import Conn

  // ----- what each end knows and says -----

  predicate Plain(e: TcpEvent) {
    e == EventData || e == EventDataAck || e == EventKeepAlive || e == EventFin || e == EventFinAck
  }

  /** A packet that shows its sender is, or just became, Established. */
  predicate Confirms(p: Packet) {
    p.event == EventEstabAck || (p.event == EventKeepAlive && p.fromState == Established)
  }

  /** Packets of the dialler; learned says that it knows the remote nonce. */
  predicate FromDialler(p: Packet, na: string, nb: string, learned: bool) {
    && p.fromNonce == na && (p.destNonce == "" || p.destNonce == nb)
    && (Plain(p.event) || p.event == EventSyn || p.event == EventEstabAck)
    && (p.event == EventSyn ==> p.destNonce == "")
    && (Confirms(p) ==> learned && p.destNonce == nb)
  }

  /** Packets of the passive end. */
  predicate FromPassive(p: Packet, na: string, nb: string, learned: bool) {
    && p.fromNonce == nb && (p.destNonce == "" || p.destNonce == na)
    && (Plain(p.event) || p.event == EventSynAck)
    && (p.event == EventSynAck ==> learned && p.destNonce == na)
  }

  predicate DiallerState(c: Conn.Conn, remote: string, nb: string) {
    && (remote == "" || remote == nb) && !c.retrying && !c.halted
    && match c.tcp
       case Listen => remote == ""
       case SynSent => remote == "" && c.pending
       case Established => remote == nb
       case Closed => true
       case _ => false
  }

  predicate PassiveState(c: Conn.Conn, remote: string, na: string) {
    && (remote == "" || remote == na)
    && (c.retrying ==> c.retryAction == SendSynAck && c.retryState == SynReceived && c.causal.fromNonce == na)
    && match c.tcp
       case Listen => !c.retrying && !c.halted
       case SynReceived => remote == na && (c.retrying || c.halted)
       case Established => remote == na && !c.retrying && !c.halted
       case Closed => !c.retrying
       case _ => false
  }

  /** Sender and receiver of one session agree on the two nonces. */
  predicate Named(e: Endpoint, local: string, remote: string) {
    e.snd.local == e.rcv.local == local && e.snd.remote == e.rcv.remote == remote
  }

  ghost predicate Shake(w: World, na: string, nb: string) {
    && Named(w.a, na, w.a.rcv.remote) && DiallerState(w.a.conn, w.a.rcv.remote, nb)
    && Named(w.b, nb, w.b.rcv.remote) && PassiveState(w.b.conn, w.b.rcv.remote, na)
    && (w.a.rcv.remote == nb ==> w.b.rcv.remote == na)
    && (w.b.conn.tcp == Established ==> w.a.rcv.remote == nb)
    && (w.b.conn.tcp == Listen ==> w.b.rcv.remote == "")
    && (forall p :: p in w.toB ==> FromDialler(p, na, nb, w.a.rcv.remote == nb))
    && (forall p :: p in w.toA ==> FromPassive(p, na, nb, w.b.rcv.remote == na))
  }

  // ----- steps that do not touch the connection -----

  /** A packet of the data stream, or a keepalive or FIN. */
  predicate PlainFrom(p: Packet, local: string, remote: string, s: TcpState) {
    && Plain(p.event) && p.fromNonce == local && p.destNonce == remote
    && (p.event == EventKeepAlive ==> p.fromState == s && remote != "")
  }

  predicate Ordinary(a: Action) {
    match a
    case Deliver(p) => p.event == EventData
    case Dial => false
    case RetryTimer => false
    case _ => true
  }

  predicate SameNames(r: Receiver, r': Receiver) {
    r'.local == r.local && r'.remote == r.remote
  }

  predicate AcksOf(acks: seq<Packet>, r: Receiver) {
    forall p :: p in acks ==> p.event == EventDataAck && p.fromNonce == r.local && p.destNonce == r.remote
  }

  lemma DataNames(r: Receiver, p: Packet)
    ensures var (r', acks) := DataReceived(r, p); SameNames(r, r') && AcksOf(acks, r')
    ensures SameNames(r, Arrived(r, p))
  {
    hide Run, AfterRun;
  }

  lemma ReadNames(r: Receiver, room: nat)
    ensures var (r', bytes, acks) := ReadInto(r, room); SameNames(r, r') && AcksOf(acks, r')
    ensures r.ready != [] ==> var (r', ack) := Delivered(r); SameNames(r, r') && AcksOf([ack], r')
  {
    hide Filled, Numbers, Leftover;
  }

  lemma {:induction false} LearnsNothing(s: Sender.Sender, acks: seq<Packet>)
    requires forall p :: p in acks ==> p.destNonce == s.remote
    ensures LearnedAll(s, acks) == s
    decreases |acks|
  {
    if acks != [] {
      assert acks[0] in acks;
      assert forall p :: p in acks[1..] ==> p in acks;
      LearnsNothing(s, acks[1..]);
    }
  }

  /** What an ordinary step of e does to e and what it sends. */
  ghost predicate OrdinaryStep(e: Endpoint, s: Step) {
    && s.Stepped? && s.e.conn == e.conn && s.e.hasDest == e.hasDest
    && Named(s.e, e.rcv.local, e.rcv.remote)
    && forall p :: p in s.out ==>
         PlainFrom(p, e.rcv.local, e.rcv.remote, e.conn.tcp) && (p.event == EventKeepAlive ==> e.hasDest)
  }

  lemma AckingOrdinary(e: Endpoint, e1: Endpoint, r: Receiver, acks: seq<Packet>)
    requires Named(e1, e.rcv.local, e.rcv.remote) && e1.hasDest == e.hasDest
    requires SameNames(e.rcv, r) && AcksOf(acks, r)
    ensures OrdinaryStep(e, Acking(e1, r, e.conn, acks))
  {
    LearnsNothing(e1.snd, acks);
  }

  lemma OrdinaryActs(e: Endpoint, a: Action, inbox: set<Packet>)
    requires Sender.Ok(e.snd) && Allowed(e, a, inbox) && Ordinary(a)
    requires Named(e, e.rcv.local, e.rcv.remote)
    requires a.Deliver? ==> !ArrivalPanics(e.rcv, a.p)
    requires !Act(e, a, inbox).Overrun?
    ensures OrdinaryStep(e, Act(e, a, inbox))
  {
    hide DataReceived, Arrived, Delivered, ReadInto, Acking, ArrivalPanics, Conn.Accepts, Conn.HandleEvent, Sender.GateOpen,
         Sender.CreditAll, Unread, Conn.Live;
    match a
    case Consume =>
      ReadNames(e.rcv, 0);
      var (r, ack) := Delivered(e.rcv);
      AckingOrdinary(e, e.(app := e.app + Unread(e.rcv.ready)), r, [ack]);
    case Read(room) =>
      ReadNames(e.rcv, room);
      var (r, bytes, acks) := ReadInto(e.rcv, room);
      AckingOrdinary(e, e.(app := e.app + bytes), r, acks);
    case Deliver(p) =>
      DataNames(e.rcv, p);
      DataNames(Arrived(e.rcv, p), p);
      var (r, acks) := DataReceived(Arrived(e.rcv, p), p);
      AckingOrdinary(e, e.(snd := Sender.GotPacket(e.snd, p)), r, acks);
    case _ =>
  }

  // ----- the handshake itself -----

  /** The states in which a FIN of the peer closes the session. */
  predicate Closes(c: Conn.Conn, p: Packet) {
    p.event == EventFin && (c.tcp == Listen || c.tcp == SynReceived || c.tcp == SynSent || c.tcp == Established)
  }

  lemma FinHandled(r: Receiver, c: Conn.Conn, p: Packet)
    requires Closes(c, p)
    ensures Update(c.tcp, p.event, p.fromState).1 == DoAppClose
    ensures var (r', ack) := Acked(r, EventFinAck);
            Conn.Handled(r, c, p.event, p) ==
            Conn.Does(r', Conn.Told(c.(tcp := CloseResponderGotFin, retrying := false)), [ack])
  {
    hide Acked;
  }

  lemma AppClosedHandled(r: Receiver, c: Conn.Conn, p: Packet)
    requires c.tcp == CloseResponderGotFin && !c.retrying
    ensures Conn.HandleEvent(r, c, EventApplicationClosed, p) == Conn.Does(r, c.(tcp := Closed), [])
  {
  }

  /** A FIN closes the connection within one step: the application is told, if it
      asked to be, and exactly one FinAck is sent. */
  lemma CloseHandled(r: Receiver, c: Conn.Conn, p: Packet)
    requires Closes(c, p)
    ensures var (r', ack) := Acked(r, EventFinAck);
            Conn.HandleEvent(r, c, p.event, p) == Conn.Does(r', Conn.Told(c.(tcp := Closed, retrying := false)), [ack])
  {
    FinHandled(r, c, p);
    hide Acked, Conn.Handled, Update;
    var c1 := Conn.Told(c.(tcp := CloseResponderGotFin, retrying := false));
    var (r1, ack) := Acked(r, EventFinAck);
    AppClosedHandled(r1, c1, p);
    assert [ack] + [] == [ack];
  }

  lemma OtherHandled(r: Receiver, c: Conn.Conn, p: Packet)
    requires Update(c.tcp, p.event, p.fromState).1 != DoAppClose
    ensures Conn.HandleEvent(r, c, p.event, p) == Conn.Handled(r, c, p.event, p)
  {
    hide Conn.Handled, Update;
  }

  /** Each ack names the two ends as the receiver now knows them. */
  predicate Replies(acks: seq<Packet>, r: Receiver, event: TcpEvent) {
    forall p :: p in acks ==> p.event == event && p.fromNonce == r.local && p.destNonce == r.remote
  }

  predicate PlainReplies(acks: seq<Packet>, r: Receiver) {
    Replies(acks, r, EventDataAck) || Replies(acks, r, EventFinAck)
  }

  /** What a packet of the passive end other than data does to the dialler. */
  predicate DiallerOutcome(r: Receiver, p: Packet, o: Conn.Outcome, nb: string) {
    && o.Does? && o.r.local == r.local && DiallerState(o.c, o.r.remote, nb)
    && if o.r.remote == r.remote then PlainReplies(o.acks, o.r)
       else p.event == EventSynAck && r.remote == "" && o.r.remote == nb && o.c.tcp == Established
            && Replies(o.acks, o.r, EventEstabAck) && |o.acks| == 1
  }

  lemma DiallerHandles(r: Receiver, c: Conn.Conn, p: Packet, na: string, nb: string)
    requires nb != "" && DiallerState(c, r.remote, nb) && c.tcp != Closed && p.event != EventData
    requires FromPassive(p, na, nb, true)
    ensures DiallerOutcome(r, p, Conn.HandleEvent(r, c, p.event, p), nb)
  {
    hide Conn.HandleEvent, Conn.Handled, Acked;
    if Update(c.tcp, p.event, p.fromState).1 == DoAppClose {
      CloseHandled(r, c, p);
      AckedNames(r, EventFinAck);
    } else {
      OtherHandled(r, c, p);
      DiallerReacts(r, c, p, na, nb);
    }
  }

  lemma DiallerReacts(r: Receiver, c: Conn.Conn, p: Packet, na: string, nb: string)
    requires nb != "" && DiallerState(c, r.remote, nb) && c.tcp != Closed && p.event != EventData
    requires FromPassive(p, na, nb, true) && Update(c.tcp, p.event, p.fromState).1 != DoAppClose
    ensures DiallerOutcome(r, p, Conn.Handled(r, c, p.event, p), nb)
  {
    AckedNames(r, EventDataAck);
    AckedNames(r.(remote := p.fromNonce), EventEstabAck);
    hide Acked;
  }

  /** What a packet of the dialler other than data does to the passive end. */
  predicate PassiveOutcome(r: Receiver, c: Conn.Conn, p: Packet, o: Conn.Outcome, na: string) {
    && o.Does? && o.r.local == r.local && PassiveState(o.c, o.r.remote, na)
    && (r.remote == na ==> o.r.remote == na)
    && ((PlainReplies(o.acks, o.r) && o.r.remote == r.remote) ||
        (Replies(o.acks, o.r, EventSynAck) && |o.acks| == 1 && o.r.remote == na && c.tcp == Listen))
    && o.c.attempts == c.attempts
    && (o.c.tcp == Listen ==> c.tcp == Listen && p.event != EventSyn && o.r.remote == r.remote)
    && (p.event == EventSyn && c.tcp == Listen ==> |o.acks| == 1 && Replies(o.acks, o.r, EventSynAck))
    && (o.c.tcp == Established ==> c.tcp == Established || Confirms(p))
  }

  lemma PassiveHandles(r: Receiver, c: Conn.Conn, p: Packet, na: string, nb: string)
    requires na != "" && PassiveState(c, r.remote, na) && c.tcp != Closed && !c.halted && p.event != EventData
    requires FromDialler(p, na, nb, true)
    ensures PassiveOutcome(r, c, p, Conn.HandleEvent(r, c, p.event, p), na)
  {
    hide Conn.HandleEvent, Conn.Handled, Acked;
    if Update(c.tcp, p.event, p.fromState).1 == DoAppClose {
      CloseHandled(r, c, p);
      AckedNames(r, EventFinAck);
    } else {
      OtherHandled(r, c, p);
      PassiveReacts(r, c, p, na, nb);
    }
  }

  lemma AckedNames(r: Receiver, event: TcpEvent)
    ensures var (r', ack) := Acked(r, event); SameNames(r, r') && Replies([ack], r', event)
  {
  }

  lemma PassiveReacts(r: Receiver, c: Conn.Conn, p: Packet, na: string, nb: string)
    requires na != "" && PassiveState(c, r.remote, na) && c.tcp != Closed && !c.halted && p.event != EventData
    requires FromDialler(p, na, nb, true) && Update(c.tcp, p.event, p.fromState).1 != DoAppClose
    ensures PassiveOutcome(r, c, p, Conn.Handled(r, c, p.event, p), na)
  {
    AckedNames(r, EventDataAck);
    AckedNames(r.(remote := p.fromNonce), EventSynAck);
    hide Acked;
  }

  lemma {:induction false} Learns(s: Sender.Sender, acks: seq<Packet>, remote: string)
    requires forall p :: p in acks ==> p.destNonce == remote
    requires s.remote == remote || (s.remote == "" && |acks| == 1)
    ensures LearnedAll(s, acks) == s.(remote := remote)
  {
    if s.remote == remote {
      LearnsNothing(s, acks);
    } else {
      assert acks[0] in acks && acks[1..] == [];
      assert LearnedAll(Sender.Learned(s, acks[0]), []) == Sender.Learned(s, acks[0]);
    }
  }

  /** What a step of the dialler keeps; heard says that the passive end knows its nonce. */
  ghost predicate DiallerStep(e: Endpoint, s: Step, na: string, nb: string, heard: bool) {
    && s.Stepped?
    && Named(s.e, na, s.e.rcv.remote) && DiallerState(s.e.conn, s.e.rcv.remote, nb)
    && (s.e.rcv.remote == e.rcv.remote || (heard && s.e.rcv.remote == nb && s.e.conn.tcp == Established))
    && (e.rcv.remote == nb ==> s.e.rcv.remote == nb)
    && (forall p :: p in s.out ==> FromDialler(p, na, nb, s.e.rcv.remote == nb))
    && (forall p :: p in s.out && Confirms(p) ==> e.hasDest || e.rcv.remote == "")
    && s.e.hasDest == e.hasDest
  }

  ghost predicate PassiveStep(e: Endpoint, s: Step, na: string, nb: string, confirmed: bool) {
    && s.Stepped?
    && Named(s.e, nb, s.e.rcv.remote) && PassiveState(s.e.conn, s.e.rcv.remote, na)
    && (e.rcv.remote == na ==> s.e.rcv.remote == na)
    && (s.e.conn.tcp == Established ==> e.conn.tcp == Established || confirmed)
    && (forall p :: p in s.out ==> FromPassive(p, na, nb, s.e.rcv.remote == na))
    && (forall p :: p in s.out && p.event == EventSynAck ==> e.conn.tcp == Listen || e.conn.attempts < Conn.MAX_ATTEMPTS)
    && e.conn.attempts <= s.e.conn.attempts
    && (s.e.conn.tcp == Listen ==> e.conn.tcp == Listen && s.e.rcv.remote == e.rcv.remote)
  }

  lemma DiallerArrives(e: Endpoint, p: Packet, na: string, nb: string, heard: bool)
    requires Sender.Ok(e.snd) && nb != "" && Named(e, na, e.rcv.remote)
    requires DiallerState(e.conn, e.rcv.remote, nb) && e.conn.tcp != Closed
    requires p.event != EventData && FromPassive(p, na, nb, heard) && !ArrivalPanics(e.rcv, p)
    ensures DiallerStep(e, Arrive(e, p), na, nb, heard)
  {
    hide ArrivalPanics, Arrived, Conn.Accepts, Conn.HandleEvent, Acking, DataReceived, DiallerState, DiallerStep;
    assert Conn.LockedOn(e.rcv, e.conn, p) == (e.rcv, e.conn);
    RemoteOf(e.conn, e.rcv.remote, nb);
    if Conn.Accepts(e.rcv, e.conn, p) {
      DataNames(e.rcv, p);
      var r1 := Arrived(e.rcv, p);
      DiallerHandles(r1, e.conn, p, na, nb);
      var o := Conn.HandleEvent(r1, e.conn, p.event, p);
      DiallerAcking(e, e.(snd := Sender.GotPacket(e.snd, p)), o.r, o.c, o.acks, na, nb, heard);
    } else {
      DiallerIdle(e, na, nb, heard);
    }
  }

  lemma DiallerIdle(e: Endpoint, na: string, nb: string, heard: bool)
    requires Named(e, na, e.rcv.remote) && DiallerState(e.conn, e.rcv.remote, nb)
    ensures DiallerStep(e, Stepped(e, {}), na, nb, heard)
  {
  }

  lemma DiallerAcking(e: Endpoint, e1: Endpoint, r: Receiver, c: Conn.Conn, acks: seq<Packet>, na: string, nb: string, heard: bool)
    requires Named(e, na, e.rcv.remote) && Named(e1, na, e.rcv.remote) && nb != ""
    requires e1.hasDest == e.hasDest && r.local == na && DiallerState(c, r.remote, nb) && (e.rcv.remote == "" || e.rcv.remote == nb)
    requires if r.remote == e.rcv.remote then PlainReplies(acks, r)
             else heard && e.rcv.remote == "" && r.remote == nb && c.tcp == Established && Replies(acks, r, EventEstabAck) && |acks| == 1
    ensures DiallerStep(e, Acking(e1, r, c, acks), na, nb, heard)
  {
    hide DiallerState;
    RemoteOf(c, r.remote, nb);
    Learns(e1.snd, acks, r.remote);
  }

  lemma RemoteOf(c: Conn.Conn, remote: string, nb: string)
    requires DiallerState(c, remote, nb)
    ensures remote == "" || remote == nb
  {
  }

  lemma PassiveArrives(e: Endpoint, p: Packet, na: string, nb: string, learned: bool)
    requires Sender.Ok(e.snd) && na != "" && Named(e, nb, e.rcv.remote)
    requires PassiveState(e.conn, e.rcv.remote, na) && e.conn.tcp != Closed && !e.conn.halted
    requires p.event != EventData && FromDialler(p, na, nb, learned) && !ArrivalPanics(Conn.LockedOn(e.rcv, e.conn, p).0, p)
    ensures PassiveStep(e, Arrive(e, p), na, nb, learned)
  {
    LockedOnOk(e, p, na, nb, learned);
    var (r0, c0) := Conn.LockedOn(e.rcv, e.conn, p);
    hide ArrivalPanics, Arrived, Conn.Accepts, Conn.HandleEvent, Acking, DataReceived, PassiveState, PassiveStep, Conn.LockedOn;
    if Conn.Accepts(r0, c0, p) {
      DataNames(r0, p);
      var r1 := Arrived(r0, p);
      PassiveHandles(r1, c0, p, na, nb);
      var o := Conn.HandleEvent(r1, c0, p.event, p);
      PassiveAcking(e, e.(snd := Sender.GotPacket(e.snd, p)), o.r, o.c, o.acks, na, nb, learned);
    } else {
      PassiveIdle(e, na, nb, learned);
    }
  }

  /** Locking on to the dialler's SYN is always followed by accepting it. */
  lemma LockedOnOk(e: Endpoint, p: Packet, na: string, nb: string, learned: bool)
    requires PassiveState(e.conn, e.rcv.remote, na) && FromDialler(p, na, nb, learned)
    ensures var (r0, c0) := Conn.LockedOn(e.rcv, e.conn, p);
            && r0.local == e.rcv.local && PassiveState(c0, r0.remote, na) && c0 == e.conn.(locked := c0.locked)
            && ((r0 == e.rcv && c0 == e.conn) || (p.event == EventSyn && e.conn.tcp == Listen && Conn.Accepts(r0, c0, p)))
            && (e.rcv.remote == na ==> r0.remote == na)
  {
  }

  lemma PassiveIdle(e: Endpoint, na: string, nb: string, confirmed: bool)
    requires Named(e, nb, e.rcv.remote) && PassiveState(e.conn, e.rcv.remote, na)
    ensures PassiveStep(e, Stepped(e, {}), na, nb, confirmed)
  {
  }

  lemma PassiveAcking(e: Endpoint, e1: Endpoint, r: Receiver, c: Conn.Conn, acks: seq<Packet>, na: string, nb: string, confirmed: bool)
    requires Named(e, nb, e.rcv.remote) && Named(e1, nb, e.rcv.remote) && na != ""
    requires r.local == nb && PassiveState(c, r.remote, na) && (e.rcv.remote == "" || e.rcv.remote == na)
    requires e.rcv.remote == na ==> r.remote == na
    requires (PlainReplies(acks, r) && r.remote == e.rcv.remote) ||
             (Replies(acks, r, EventSynAck) && |acks| == 1 && r.remote == na && (e.conn.tcp == Listen || e.conn.attempts < Conn.MAX_ATTEMPTS))
    requires e.conn.attempts <= c.attempts && (c.tcp == Listen ==> e.conn.tcp == Listen && r.remote == e.rcv.remote)
    requires c.tcp == Established ==> e.conn.tcp == Established || confirmed
    ensures PassiveStep(e, Acking(e1, r, c, acks), na, nb, confirmed)
  {
    PassiveRemote(c, r.remote, na);
    hide PassiveState;
    Learns(e1.snd, acks, r.remote);
  }

  lemma PassiveRemote(c: Conn.Conn, remote: string, na: string)
    requires PassiveState(c, remote, na)
    ensures remote == "" || remote == na
  {
  }

  // ----- timers and dialling -----

  lemma DiallerTimer(e: Endpoint, inbox: set<Packet>, na: string, nb: string, heard: bool)
    requires Sender.Ok(e.snd) && Conn.Live(e.conn) && Named(e, na, e.rcv.remote) && DiallerState(e.conn, e.rcv.remote, nb)
    ensures DiallerStep(e, Act(e, RetryTimer, inbox), na, nb, heard)
  {
  }

  lemma DiallerDials(e: Endpoint, inbox: set<Packet>, na: string, nb: string, heard: bool)
    requires Sender.Ok(e.snd) && Conn.Live(e.conn) && Named(e, na, e.rcv.remote) && DiallerState(e.conn, e.rcv.remote, nb)
    ensures DiallerStep(e, Act(e, Action.Dial, inbox), na, nb, heard)
  {
  }

  lemma PassiveTimer(e: Endpoint, inbox: set<Packet>, na: string, nb: string, confirmed: bool)
    requires Sender.Ok(e.snd) && Conn.Live(e.conn) && na != "" && Named(e, nb, e.rcv.remote) && PassiveState(e.conn, e.rcv.remote, na)
    ensures PassiveStep(e, Act(e, RetryTimer, inbox), na, nb, confirmed)
  {
    var o := Conn.Retried(e.rcv, e.conn);
    assert o.Does? && (|o.acks| == 1 || o.acks == []);
    PassiveRemote(e.conn, e.rcv.remote, na);
    assert PassiveState(o.c, o.r.remote, na);
    hide Acking, Conn.Retried, PassiveState, PassiveStep;
    PassiveAcking(e, e, o.r, o.c, o.acks, na, nb, confirmed);
  }

  // ----- every step of the two ends -----

  lemma DiallerOrdinary(e: Endpoint, s: Step, na: string, nb: string, heard: bool)
    requires Named(e, na, e.rcv.remote) && DiallerState(e.conn, e.rcv.remote, nb) && OrdinaryStep(e, s)
    ensures DiallerStep(e, s, na, nb, heard)
  {
  }

  lemma PassiveOrdinary(e: Endpoint, s: Step, na: string, nb: string, confirmed: bool)
    requires Named(e, nb, e.rcv.remote) && PassiveState(e.conn, e.rcv.remote, na) && OrdinaryStep(e, s)
    ensures PassiveStep(e, s, na, nb, confirmed)
  {
  }

  lemma DataNotLocked(e: Endpoint, p: Packet)
    requires p.event == EventData
    ensures Conn.LockedOn(e.rcv, e.conn, p) == (e.rcv, e.conn)
  {
  }

  lemma DiallerActs(w: World, a: Action, na: string, nb: string, heard: bool)
    requires nb != "" && Inv(w) && Shake(w, na, nb) && Sender.Ok(w.a.snd) && Allowed(w.a, a, w.toA)
    requires forall p :: p in w.toA ==> FromPassive(p, na, nb, heard)
    requires !Act(w.a, a, w.toA).Overrun?
    ensures DiallerStep(w.a, Act(w.a, a, w.toA), na, nb, heard)
  {
    if a.Deliver? {
      ArrivePanicFree(w.a, w.b, w.toB, w.toA, a.p);
      NeverLocks(w.a, a.p, na, nb, heard);
    }
    hide Inv, DiallerState, DiallerStep, OrdinaryStep, ArrivalPanics, Conn.LockedOn, PassiveState, FromDialler;
    if Ordinary(a) {
      OrdinaryActs(w.a, a, w.toA);
      DiallerOrdinary(w.a, Act(w.a, a, w.toA), na, nb, heard);
    } else {
      match a
      case Deliver(p) => DiallerArrives(w.a, p, na, nb, heard);
      case RetryTimer => DiallerTimer(w.a, w.toA, na, nb, heard);
      case Dial => DiallerDials(w.a, w.toA, na, nb, heard);
    }
  }

  lemma NeverLocks(e: Endpoint, p: Packet, na: string, nb: string, learned: bool)
    requires FromPassive(p, na, nb, learned)
    ensures Conn.LockedOn(e.rcv, e.conn, p) == (e.rcv, e.conn)
  {
  }

  lemma PassiveActs(w: World, a: Action, na: string, nb: string, learned: bool)
    requires na != "" && Inv(w) && Shake(w, na, nb) && Sender.Ok(w.b.snd) && Allowed(w.b, a, w.toB) && !a.Dial?
    requires forall p :: p in w.toB ==> FromDialler(p, na, nb, learned)
    requires !Act(w.b, a, w.toB).Overrun?
    ensures PassiveStep(w.b, Act(w.b, a, w.toB), na, nb, learned)
  {
    if a.Deliver? {
      ArrivePanicFree(w.b, w.a, w.toA, w.toB, a.p);
      if a.p.event == EventData { DataNotLocked(w.b, a.p); }
    }
    hide Inv, DiallerState, PassiveStep, OrdinaryStep, ArrivalPanics, Conn.LockedOn, PassiveState, FromPassive;
    if Ordinary(a) {
      OrdinaryActs(w.b, a, w.toB);
      PassiveOrdinary(w.b, Act(w.b, a, w.toB), na, nb, learned);
    } else {
      match a
      case Deliver(p) => PassiveArrives(w.b, p, na, nb, learned);
      case RetryTimer => PassiveTimer(w.b, w.toB, na, nb, learned);
    }
  }

  // ----- whole runs -----

  /** Only endpoint a dials. */
  predicate OneDialler(ls: seq<Label>) {
    Do(B, Action.Dial) !in ls
  }

  /** What one step may change about the handshake. */
  ghost predicate Advanced(w: World, v: World, nb: string) {
    && (w.a.rcv.remote == nb ==> v.a.rcv.remote == nb)
    && (v.a.rcv.remote == nb ==> w.a.rcv.remote == nb || v.a.conn.tcp == Established)
  }

  lemma DiallerShake(w: World, a: Action, na: string, nb: string)
    requires nb != "" && Inv(w) && Shake(w, na, nb) && CanActA(w, a)
    ensures Shake(ActA(w, a), na, nb) && Advanced(w, ActA(w, a), nb)
  {
    hide Inv, Act, Allowed, DiallerState, PassiveState, FromPassive, FromDialler, Named;
    DiallerActs(w, a, na, nb, w.b.rcv.remote == na);
    var s := Act(w.a, a, w.toA);
    var was, now := w.a.rcv.remote == nb, s.e.rcv.remote == nb;
    forall p | p in w.toB ensures FromDialler(p, na, nb, now) {
      LearnedGrows(p, na, nb, was, now);
    }
  }

  lemma LearnedGrows(p: Packet, na: string, nb: string, was: bool, now: bool)
    requires was ==> now
    ensures FromDialler(p, na, nb, was) ==> FromDialler(p, na, nb, now)
    ensures FromPassive(p, na, nb, was) ==> FromPassive(p, na, nb, now)
  {
  }

  lemma PassiveShake(w: World, a: Action, na: string, nb: string)
    requires na != "" && Inv(w) && Shake(w, na, nb) && CanActA(Flip(w), a) && !a.Dial?
    ensures var v := Flip(ActA(Flip(w), a)); Shake(v, na, nb) && Advanced(w, v, nb)
  {
    hide Inv, Act, Allowed, DiallerState, PassiveState, FromPassive, FromDialler, Named;
    PassiveActs(w, a, na, nb, w.a.rcv.remote == nb);
    var s := Act(w.b, a, w.toB);
    var was, now := w.b.rcv.remote == na, s.e.rcv.remote == na;
    forall p | p in w.toA ensures FromPassive(p, na, nb, now) {
      LearnedGrows(p, na, nb, was, now);
    }
  }

  lemma LoseShakes(w: World, l: Label, na: string, nb: string)
    requires Shake(w, na, nb) && l.Lose?
    ensures Shake(Next(w, l), na, nb) && Advanced(w, Next(w, l), nb)
  {
    hide Named, DiallerState, PassiveState, FromDialler, FromPassive;
  }

  lemma StepShakes(w: World, l: Label, na: string, nb: string)
    requires na != "" && nb != "" && Inv(w) && Shake(w, na, nb) && CanStep(w, l) && l != Do(B, Action.Dial)
    ensures Shake(Next(w, l), na, nb) && Advanced(w, Next(w, l), nb)
  {
    hide Inv, Shake, Advanced, CanActA, ActA, DiallerState, PassiveState;
    match l
    case Do(side, a) =>
      if side.A? { DiallerShake(w, a, na, nb); } else { PassiveShake(w, a, na, nb); }
    case Lose(side, p) => LoseShakes(w, l, na, nb);
  }

  lemma StartShakes(ca: Config, cb: Config)
    requires ca.nonce != "" && cb.nonce != ""
    ensures Shake(Start(ca, cb), ca.nonce, cb.nonce)
  {
  }

  lemma {:induction false} RunShakes(w: World, ls: seq<Label>, na: string, nb: string)
    requires na != "" && nb != "" && Inv(w) && Shake(w, na, nb) && Runs(w, ls) && OneDialler(ls)
    ensures Inv(After(w, ls)) && Shake(After(w, ls), na, nb)
    decreases |ls|
  {
    hide Inv, CanStep, Next, Shake;
    if ls != [] {
      StepKeeps(w, ls[0]);
      StepShakes(w, ls[0], na, nb);
      RunShakes(Next(w, ls[0]), ls[1..], na, nb);
    }
  }

  ghost predicate GoodNonces(ca: Config, cb: Config) {
    GoodConfig(ca) && GoodConfig(cb) && ca.nonce != "" && cb.nonce != ""
  }

  /** Receiver and sender of each end hold the other's nonce. A step of the model ends
      with the SendAck arm for what it queued, so the senders' half speaks of the time
      after that arm; until then a sender has the nonce of the step before. */
  ghost predicate Agreed(w: World, na: string, nb: string) {
    w.a.rcv.remote == w.a.snd.remote == nb && w.b.rcv.remote == w.b.snd.remote == na
  }

  lemma HandshakeAgreement(ca: Config, cb: Config, ls: seq<Label>)
    requires GoodNonces(ca, cb) && Runs(Start(ca, cb), ls) && OneDialler(ls)
    ensures var w := After(Start(ca, cb), ls);
            (w.a.conn.tcp == Established || w.b.conn.tcp == Established ==> Agreed(w, ca.nonce, cb.nonce))
  {
    hide Inv, Start, Runs, After;
    StartInv(ca, cb);
    StartShakes(ca, cb);
    RunShakes(Start(ca, cb), ls, ca.nonce, cb.nonce);
  }

  /** No packet, timer or request makes either end panic. */
  ghost predicate NoPanic(w: World) {
    && (forall a :: Sender.Ok(w.a.snd) && Allowed(w.a, a, w.toA) ==> !Act(w.a, a, w.toA).Panicked?)
    && (forall a :: Sender.Ok(w.b.snd) && Allowed(w.b, a, w.toB) && !a.Dial? ==> !Act(w.b, a, w.toB).Panicked?)
  }

  lemma ShakeSays(w: World, na: string, nb: string)
    requires Shake(w, na, nb)
    ensures forall p :: p in w.toA ==> FromPassive(p, na, nb, w.b.rcv.remote == na)
    ensures forall p :: p in w.toB ==> FromDialler(p, na, nb, w.a.rcv.remote == nb)
  {
    hide Named, DiallerState, PassiveState;
  }

  lemma HandshakePanicFree(ca: Config, cb: Config, ls: seq<Label>)
    requires GoodNonces(ca, cb) && Runs(Start(ca, cb), ls) && OneDialler(ls)
    ensures NoPanic(After(Start(ca, cb), ls))
  {
    hide Inv, Start, Runs, After, Shake, Act, Allowed;
    StartInv(ca, cb);
    StartShakes(ca, cb);
    RunShakes(Start(ca, cb), ls, ca.nonce, cb.nonce);
    var w := After(Start(ca, cb), ls);
    forall a | Sender.Ok(w.a.snd) && Allowed(w.a, a, w.toA) && !Act(w.a, a, w.toA).Overrun?
      ensures Act(w.a, a, w.toA).Stepped?
    {
      ShakeSays(w, ca.nonce, cb.nonce);
      DiallerActs(w, a, ca.nonce, cb.nonce, w.b.rcv.remote == ca.nonce);
    }
    forall a | Sender.Ok(w.b.snd) && Allowed(w.b, a, w.toB) && !a.Dial? && !Act(w.b, a, w.toB).Overrun?
      ensures Act(w.b, a, w.toB).Stepped?
    {
      ShakeSays(w, ca.nonce, cb.nonce);
      PassiveActs(w, a, ca.nonce, cb.nonce, w.a.rcv.remote == cb.nonce);
    }
  }

  /** The dialler was Established at some point of the run. */
  ghost predicate WasEstablished(w: World, ls: seq<Label>)
    requires Runs(w, ls)
    decreases |ls|
  {
    w.a.conn.tcp == Established || (ls != [] && WasEstablished(Next(w, ls[0]), ls[1..]))
  }

  lemma {:induction false} LearnedWhenEstablished(w: World, ls: seq<Label>, na: string, nb: string)
    requires na != "" && nb != "" && Inv(w) && Shake(w, na, nb) && Runs(w, ls) && OneDialler(ls)
    requires After(w, ls).a.rcv.remote == nb && (w.a.rcv.remote == nb ==> w.a.conn.tcp == Established)
    ensures WasEstablished(w, ls)
    decreases |ls|
  {
    hide Inv, CanStep, Next, Shake;
    if ls != [] && w.a.conn.tcp != Established {
      StepKeeps(w, ls[0]);
      StepShakes(w, ls[0], na, nb);
      LearnedWhenEstablished(Next(w, ls[0]), ls[1..], na, nb);
    }
  }

  /** A passive end becomes Established only after the dialler did, whichever of the
      two confirmations it saw. */
  lemma DiallerFirst(ca: Config, cb: Config, ls: seq<Label>)
    requires GoodNonces(ca, cb) && Runs(Start(ca, cb), ls) && OneDialler(ls)
    requires After(Start(ca, cb), ls).b.conn.tcp == Established
    ensures WasEstablished(Start(ca, cb), ls)
  {
    hide Inv, Start, Runs, After, WasEstablished, Shake;
    StartInv(ca, cb);
    StartShakes(ca, cb);
    StartUnlearned(ca, cb);
    RunShakes(Start(ca, cb), ls, ca.nonce, cb.nonce);
    PassiveEstablished(After(Start(ca, cb), ls), ca.nonce, cb.nonce);
    LearnedWhenEstablished(Start(ca, cb), ls, ca.nonce, cb.nonce);
  }

  lemma PassiveEstablished(w: World, na: string, nb: string)
    requires Shake(w, na, nb) && w.b.conn.tcp == Established
    ensures w.a.rcv.remote == nb
  {
  }

  lemma StartUnlearned(ca: Config, cb: Config)
    ensures Start(ca, cb).a.rcv.remote == ""
  {
  }
}
