/** The one way to wedge a link: frame 0 is acknowledged without having arrived, and
    no copy of it is left. Such a state is never left again, so that the condition of
    Liveness is exact. */
module Wedge {
  import opened Tcp
  import opened Packets
  import opened Receiver
  import opened Links
  import opened Protocol
  import opened Safety
  import opened Handshake
  import opened Opening
  import opened Liveness
  import opened Scenarios
  import Theorems
  import Sender
  import Conn

  /** An end that knows its remote, and may be closing or closed by now. */
  predicate SettledConn(c: Conn.Conn, remote: string) {
    && (AtLeastEstablished(c.tcp) || c.tcp == Closed || c.tcp == SynReceived)
    && (c.retrying ==> c.retryAction == SendFin || (c.retryAction == SendSynAck && c.causal.fromNonce == remote))
  }

  predicate Settled(e: Endpoint, local: string, remote: string) {
    e.rcv.local == local && e.rcv.remote == remote && local != "" && remote != "" && SettledConn(e.conn, remote)
  }

  /** Frame 0, and e would take it. */
  predicate FirstFrame(e: Endpoint, p: Packet) {
    p.event == EventData && p.seqNum == 0 && Hears(e, p)
  }

  /** Frame 0 was sent and is no longer retried, has not arrived and is not on its way. */
  ghost predicate Wedged(w: World, na: string, nb: string) {
    && w.a.snd.acked >= 0 && w.b.rcv.nextExpected == 0
    && Settled(w.b, nb, na)
    && forall p :: p in w.toB ==> !FirstFrame(w.b, p)
  }

  // ----- what a sends -----

  predicate Info(ps: seq<Packet>) {
    forall p :: p in ps ==> p.event != EventData && p.event != EventKeepAlive
  }

  /** The sender only moved forward, and of its frames it only sent those above n. */
  ghost predicate SendsAbove(s: Sender.Sender, st: Step, n: int) {
    && st.Stepped? && s.acked <= st.e.snd.acked
    && (forall p :: p in st.out && p.event == EventData ==> p.seqNum > n)
    && (forall p :: p in st.out && p.event == EventKeepAlive ==> st.e.hasDest)
  }

  lemma ActionInfo(r: Receiver, c: Conn.Conn, act: TcpAction, p: Packet)
    ensures var o := Conn.DoAction(r, c, act, p); o.Does? ==> Info(o.acks)
  {
    hide Control;
  }

  lemma {:induction false} EventInfo(r: Receiver, c: Conn.Conn, event: TcpEvent, p: Packet)
    ensures var o := Conn.HandleEvent(r, c, event, p); o.Does? ==> Info(o.acks)
    decreases 6 - Rank(c.tcp)
  {
    hide Conn.DoAction, Conn.SetUp, Info;
    var (st, act) := Update(c.tcp, event, p.fromState);
    ActionInfo(r, Conn.SetUp(c.(tcp := st), c.tcp, p, act), act, p);
    var o := Conn.Handled(r, c, event, p);
    CloseRank(c.tcp, event, p.fromState);
    hide Update, Rank;
    if o.Does? && act == DoAppClose {
      EventInfo(o.r, o.c, EventApplicationClosed, p);
      var o2 := Conn.HandleEvent(o.r, o.c, EventApplicationClosed, p);
      if o2.Does? {
        InfoConcat(o.acks, o2.acks);
      }
    }
  }

  lemma InfoConcat(xs: seq<Packet>, ys: seq<Packet>)
    requires Info(xs) && Info(ys)
    ensures Info(xs + ys)
  {
  }

  lemma AckingAbove(s: Sender.Sender, e: Endpoint, r: Receiver, c: Conn.Conn, acks: seq<Packet>, n: int)
    requires Info(acks) && s.acked <= e.snd.acked
    ensures SendsAbove(s, Acking(e, r, c, acks), n)
  {
    LearnedOnlyRemote(e.snd, acks);
  }

  lemma AcksInfo(acks: seq<Packet>, r: Receiver)
    requires AcksOf(acks, r)
    ensures Info(acks)
  {
  }

  lemma ArriveAbove(e: Endpoint, p: Packet, n: int)
    requires Sender.Ok(e.snd) && Arrive(e, p).Stepped?
    ensures SendsAbove(e.snd, Arrive(e, p), n)
  {
    hide Conn.HandleEvent, DataReceived, Arrived, Conn.Accepts, Conn.LockedOn, Sender.CreditAll, Acking, ArrivalPanics, Info;
    var (r0, c0) := Conn.LockedOn(e.rcv, e.conn, p);
    var e1 := e.(snd := Sender.GotPacket(e.snd, p));
    if p.event == EventData {
      var (r2, acks) := DataReceived(Arrived(r0, p), p);
      DataNames(Arrived(r0, p), p);
      AcksInfo(acks, r2);
      AckingAbove(e.snd, e1, r2, c0, acks, n);
    } else {
      var o := Conn.HandleEvent(Arrived(r0, p), c0, p.event, p);
      EventInfo(Arrived(r0, p), c0, p.event, p);
      if o.Does? { AckingAbove(e.snd, e1, o.r, o.c, o.acks, n); }
    }
  }

  /** Whatever a does, it sends no frame that has left its retry indices. */
  lemma ActsAbove(e: Endpoint, a: Action, inbox: set<Packet>)
    requires Sender.Ok(e.snd) && Allowed(e, a, inbox) && Act(e, a, inbox).Stepped?
    requires forall n :: 0 <= n < |e.snd.history| ==> e.snd.history[n].seqNum == n
    ensures SendsAbove(e.snd, Act(e, a, inbox), e.snd.acked)
  {
    hide Arrive, Delivered, ReadInto, Conn.Retried, Conn.DoAction, Acking, Unread, Info;
    match a
    case Deliver(p) => ArriveAbove(e, p, e.snd.acked);
    case Consume =>
      var (r, ack) := Delivered(e.rcv);
      ReadNames(e.rcv, 0);
      AcksInfo([ack], r);
      AckingAbove(e.snd, e.(app := e.app + Unread(e.rcv.ready)), r, e.conn, [ack], e.snd.acked);
    case Read(room) =>
      var (r, bytes, acks) := ReadInto(e.rcv, room);
      ReadNames(e.rcv, room);
      AcksInfo(acks, r);
      AckingAbove(e.snd, e.(app := e.app + bytes), r, e.conn, acks, e.snd.acked);
    case RetryTimer =>
      var o := Conn.Retried(e.rcv, e.conn);
      RetriedInfo(e.rcv, e.conn);
      AckingAbove(e.snd, e, o.r, o.c, o.acks, e.snd.acked);
    case _ =>
  }

  lemma RetriedInfo(r: Receiver, c: Conn.Conn)
    ensures var o := Conn.Retried(r, c); o.Does? ==> Info(o.acks)
  {
    ActionInfo(r, c.(attempts := c.attempts + 1), c.retryAction, c.causal);
    hide Conn.DoAction;
  }

  // ----- what b does while frame 0 does not arrive -----

  /** The receiver still waits for the same frame, between the same two sessions. */
  predicate StillWaits(r: Receiver, r': Receiver) {
    SameNames(r, r') && r'.nextExpected == r.nextExpected
  }

  lemma SettledReply(r: Receiver, c: Conn.Conn, act: TcpAction, p: Packet)
    requires act != SendEstabAck && (act == SendSynAck ==> p.fromNonce == r.remote)
    ensures var o := Conn.DoAction(r, c, act, p);
            o.Does? && o.c == (if act == DoAppClose then Conn.Told(c) else c) && StillWaits(r, o.r)
  {
  }

  lemma SettledUpdate(s: TcpState, event: TcpEvent, fromState: TcpState)
    requires AtLeastEstablished(s) || s == SynReceived
    ensures var (st, act) := Update(s, event, fromState);
            && (st == s || AtLeastEstablished(st) || st == Closed) && act != SendSynAck && act != SendEstabAck
            && (st != s && Conn.IsRetryState(st) ==> act == SendFin)
            && (act == DoAppClose ==> AtLeastEstablished(st)) && (st == SynReceived ==> s == SynReceived)
  {
  }

  lemma SettledOne(r: Receiver, c: Conn.Conn, event: TcpEvent, p: Packet)
    requires SettledConn(c, r.remote) && c.tcp != Closed
    ensures var o := Conn.Handled(r, c, event, p);
            && o.Does? && SettledConn(o.c, r.remote) && StillWaits(r, o.r) && (o.c.tcp == SynReceived ==> c.tcp == SynReceived)
            && (Update(c.tcp, event, p.fromState).1 == DoAppClose ==> o.c.tcp != Closed && o.c.tcp != SynReceived)
  {
    var (st, act) := Update(c.tcp, event, p.fromState);
    SettledUpdate(c.tcp, event, p.fromState);
    SettledReply(r, Conn.SetUp(c.(tcp := st), c.tcp, p, act), act, p);
    hide Update, Rank, Conn.DoAction;
  }

  lemma StillWaitsOn(r: Receiver, r': Receiver)
    requires StillWaits(r, r')
    ensures r'.remote == r.remote && forall q :: StillWaits(r', q) ==> StillWaits(r, q)
  {
  }

  lemma {:induction false} SettledHandles(r: Receiver, c: Conn.Conn, event: TcpEvent, p: Packet)
    requires SettledConn(c, r.remote) && c.tcp != Closed
    ensures var o := Conn.HandleEvent(r, c, event, p);
            && o.Does? && SettledConn(o.c, r.remote) && StillWaits(r, o.r) && (o.c.tcp == SynReceived ==> c.tcp == SynReceived)
    decreases 6 - Rank(c.tcp)
  {
    hide Update, Rank, Conn.Handled, SettledConn, AtLeastEstablished, StillWaits;
    var act := Update(c.tcp, event, p.fromState).1;
    SettledOne(r, c, event, p);
    CloseRank(c.tcp, event, p.fromState);
    var o := Conn.Handled(r, c, event, p);
    StillWaitsOn(r, o.r);
    if act == DoAppClose {
      SettledHandles(o.r, o.c, EventApplicationClosed, p);
    }
  }

  lemma OtherFrame(r: Receiver, p: Packet)
    requires p.seqNum != r.nextExpected
    ensures StillWaits(r, DataReceived(r, p).0)
  {
  }

  lemma SettledLocks(e: Endpoint, p: Packet)
    requires SettledConn(e.conn, e.rcv.remote)
    ensures Conn.LockedOn(e.rcv, e.conn, p) == (e.rcv, e.conn)
  {
  }

  /** No packet that e drops is heard by e'. */
  predicate HearsLess(e: Endpoint, e': Endpoint) {
    SameNames(e.rcv, e'.rcv) && (e'.conn.tcp == SynReceived ==> e.conn.tcp == SynReceived)
  }

  lemma SettledArrives(e: Endpoint, p: Packet, local: string, remote: string)
    requires Sender.Ok(e.snd) && Settled(e, local, remote) && e.conn.tcp != Closed && Arrive(e, p).Stepped?
    requires e.rcv.nextExpected == 0 && !FirstFrame(e, p)
    ensures var e' := Arrive(e, p).e; Settled(e', local, remote) && e'.rcv.nextExpected == 0 && HearsLess(e, e')
  {
    hide Conn.HandleEvent, DataReceived, Arrived, Conn.LockedOn, Sender.GotPacket, ArrivalPanics, LearnedAll;
    SettledLocks(e, p);
    DataNames(e.rcv, p);
    ArrivedSame(e.rcv, p);
    var r := Arrived(e.rcv, p);
    if p.event != EventData {
      SettledHandles(r, e.conn, p.event, p);
    } else if Conn.Accepts(e.rcv, e.conn, p) {
      OtherFrame(r, p);
    }
  }

  lemma ReadWaits(r: Receiver, room: nat)
    ensures StillWaits(r, ReadInto(r, room).0)
    ensures r.ready != [] ==> StillWaits(r, Delivered(r).0)
  {
    hide Filled, Numbers, Leftover;
  }

  lemma SettledActs(e: Endpoint, a: Action, inbox: set<Packet>, local: string, remote: string)
    requires Sender.Ok(e.snd) && Allowed(e, a, inbox) && Act(e, a, inbox).Stepped?
    requires Settled(e, local, remote) && e.rcv.nextExpected == 0
    requires forall p :: p in inbox ==> !FirstFrame(e, p)
    ensures var e' := Act(e, a, inbox).e; Settled(e', local, remote) && e'.rcv.nextExpected == 0 && HearsLess(e, e')
  {
    hide Arrive, ReadInto, Delivered, FirstFrame, Unread, LearnedAll, Conn.DoAction;
    match a
    case Deliver(p) => SettledArrives(e, p, local, remote);
    case Consume => ReadWaits(e.rcv, 0);
    case Read(room) => ReadWaits(e.rcv, room);
    case RetryTimer =>
      if e.conn.retrying {
        SettledReply(e.rcv, e.conn.(attempts := e.conn.attempts + 1), e.conn.retryAction, e.conn.causal);
      }
    case _ =>
  }

  // ----- the wedge is for ever -----

  lemma FramesAbove(w: World)
    requires Reached(w)
    ensures Sender.Ok(w.a.snd) && Sender.Ok(w.b.snd)
    ensures forall n :: 0 <= n < |w.a.snd.history| ==> w.a.snd.history[n].seqNum == n
    ensures -1 <= w.b.rcv.lastMsg < w.b.rcv.nextExpected
  {
    hide Stream, Carries, ReadyOk, TakenOf, Reached;
    ReachedInv(w);
  }

  lemma SenderStaysWedged(w: World, a: Action, na: string, nb: string)
    requires Reached(w) && Wedged(w, na, nb) && CanActA(w, a)
    ensures Wedged(ActA(w, a), na, nb)
  {
    hide Reached, Act, Allowed, Settled;
    FramesAbove(w);
    ActsAbove(w.a, a, w.toA);
  }

  lemma ReceiverStaysWedged(w: World, a: Action, na: string, nb: string)
    requires Reached(w) && Wedged(w, na, nb) && CanActA(Flip(w), a)
    ensures Wedged(Flip(ActA(Flip(w), a)), na, nb)
  {
    hide Reached, Act, Allowed, Settled;
    FramesAbove(w);
    SettledActs(w.b, a, w.toB, nb, na);
  }

  lemma StaysWedged(w: World, l: Label, na: string, nb: string)
    requires Reached(w) && Wedged(w, na, nb) && CanStep(w, l)
    ensures Wedged(Next(w, l), na, nb)
  {
    hide Reached, ActA, CanActA;
    match l
    case Do(side, a) =>
      hide Wedged;
      if side.A? { SenderStaysWedged(w, a, na, nb); } else { ReceiverStaysWedged(w, a, na, nb); }
    case Lose(side, p) =>
  }

  lemma {:induction false} WedgedForever(w: World, ls: seq<Label>, na: string, nb: string)
    requires Reached(w) && Wedged(w, na, nb) && Runs(w, ls)
    ensures !Quiet(After(w, ls))
    decreases |ls|
  {
    hide Reached, Wedged, CanStep, Next, Quiet;
    if ls == [] {
      WedgedNotQuiet(w, na, nb);
    } else {
      ReachedStep(w, ls[0]);
      StaysWedged(w, ls[0], na, nb);
      WedgedForever(Next(w, ls[0]), ls[1..], na, nb);
    }
  }

  lemma WedgedNotQuiet(w: World, na: string, nb: string)
    requires Reached(w) && Wedged(w, na, nb)
    ensures !Quiet(w)
  {
    hide Reached;
    FramesAbove(w);
  }

  lemma WedgedUnlessSafe(w: World, na: string, nb: string)
    requires Up(w, na, nb) && !FirstFrameSafe(w)
    ensures Wedged(w, na, nb)
  {
    UpFacts(w, na, nb);
    hide Inv;
  }

  /** Once the dialler is Established the passive end need not be. */
  lemma UpBothWays(w: World, na: string, nb: string)
    requires Good(w, na, nb) && InUse(w.a.conn) && InUse(w.b.conn)
    ensures Up(w, na, nb) && Up(Flip(w), nb, na)
  {
    hide Link, FromDialler, FromPassive;
    GoodFacts(w, na, nb);
    ReachedFlip(w);
  }

  lemma EstablishedInUse(w: World, na: string, nb: string)
    requires Good(w, na, nb) && BothEstablished(w)
    ensures InUse(w.a.conn) && InUse(w.b.conn)
  {
    hide Inv, FromDialler, FromPassive;
    GoodFacts(w, na, nb);
  }

  lemma DestFixed(ca: Config, cb: Config, ls: seq<Label>)
    requires GoodNonces(ca, cb) && Runs(Start(ca, cb), ls)
    ensures var w := After(Start(ca, cb), ls); w.a.hasDest == ca.hasDest && w.b.hasDest == cb.hasDest
  {
    hide Inv, Runs, After;
    StartInv(ca, cb);
    Theorems.WindowsFixed(Start(ca, cb), ls);
  }

  // ----- the wedge is real -----

  lemma NothingSent(w: World, na: string, nb: string)
    requires Up(w, na, nb) && w.a.snd.history == []
    ensures w.a.snd.acked == -1 && w.b.rcv.nextExpected == 0 && w.b.rcv.published == 0
    ensures forall p :: p in w.toB ==> p.event != EventData
  {
    hide ReceiverInv, SenderInv, AckOk, DataOk;
    ReachedInv(w);
    UpFacts(w, na, nb);
    PublishedNone(w.b.rcv, w.a.snd.history, w.b.app);
    forall p | p in w.toB ensures p.event != EventData {
      NoData(p, w.a.snd.history);
    }
  }

  lemma PublishedNone(r: Receiver, history: seq<Frame>, app: seq<byte>)
    requires ReceiverInv(r, history, app) && r.consumed == 0
    ensures r.published == 0
  {
  }

  lemma NoData(p: Packet, history: seq<Frame>)
    requires DataOk(p, history) && history == []
    ensures p.event != EventData
  {
  }

  lemma FirstPush(e: Endpoint, data: seq<byte>, inbox: set<Packet>, local: string, remote: string)
    requires Sender.Ok(e.snd) && e.snd.window >= 1 && UpEnd(e, local, remote) && e.snd.history == [] && Sender.GateOpen(e.snd)
    ensures var a := Push(data, None, false);
            && Allowed(e, a, inbox)
            && var s := Act(e, a, inbox);
               && s.Stepped? && UpEnd(s.e, local, remote) && s.e.conn == e.conn
               && |s.e.snd.history| == 1 && s.e.snd.acked == e.snd.acked && s.e.snd.history[0].data == data
               && s.e.snd.window == e.snd.window && exists p :: s.out == {p}
  {
  }

  /** A packet with acknowledgement number 0 acknowledges frame 0. */
  lemma ZeroAcks(s: Sender.Sender, p: Packet)
    requires Sender.Ok(s) && |s.history| == 1 && p.ackNum == 0
    ensures Sender.GotPacket(s, p).acked == 0
  {
    hide Sender.CreditAll;
  }

  /** An acknowledgement from the time before anything was consumed. */
  predicate EarlyAck(e: Endpoint, q: Packet) {
    Idle(e.conn, q.event) && Hears(e, q) && q.ackNum == 0
  }

  /** From every state in which a has not sent anything yet, and some early
      acknowledgement is still on its way, a pushes frame 0, the network loses it,
      and the acknowledgement takes it out of the indices. */
  lemma WedgeReachable(w: World, q: Packet, data: seq<byte>, na: string, nb: string)
    requires Up(w, na, nb) && w.a.snd.history == [] && Sender.Ok(w.a.snd) && Sender.GateOpen(w.a.snd) && q in w.toA && EarlyAck(w.a, q)
    ensures exists v :: Reaches(w, v) && Wedged(v, na, nb)
  {
    hide Inv, Reaches, CanStep, Next, Act, Allowed, ArrivalPanics, Sender.GateOpen, Runs, After;
    UpFacts(w, na, nb);
    NothingSent(w, na, nb);
    var push := Do(A, Push(data, None, false));
    FirstPush(w.a, data, w.toA, na, nb);
    StepA(w, push.action, na, nb);
    var p :| Act(w.a, push.action, w.toA).out == {p};
    var w1 := Next(w, push);
    ReachesSelf(w);
    ReachesStep(w, w, push);
    FirstLost(w, w1, p, na, nb);
    var w2 := w1.(toB := w1.toB - {p});
    ReachesTrans(w, w1, w2);
    ZeroAcked(w2, q, na, nb);
    var v :| Reaches(w2, v) && Wedged(v, na, nb);
    ReachesTrans(w, w2, v);
  }

  lemma FirstLost(w: World, w1: World, p: Packet, na: string, nb: string)
    requires Up(w1, na, nb) && w1.toB == w.toB + {p}
    ensures Reaches(w1, w1.(toB := w1.toB - {p})) && Up(w1.(toB := w1.toB - {p}), na, nb)
  {
    hide Inv, Reaches;
    assert Next(w1, Lose(B, p)) == w1.(toB := w1.toB - {p});
    ReachedStep(w1, Lose(B, p));
    ReachesSelf(w1);
    ReachesStep(w1, w1, Lose(B, p));
  }

  lemma ZeroAcked(w: World, q: Packet, na: string, nb: string)
    requires Up(w, na, nb) && |w.a.snd.history| == 1 && w.b.rcv.nextExpected == 0 && q in w.toA && EarlyAck(w.a, q)
    requires forall p :: p in w.toB ==> p.event != EventData
    ensures exists v :: Reaches(w, v) && Wedged(v, na, nb)
  {
    hide Inv, Reaches, CanStep, Next, Act, Allowed, ArrivalPanics, Arrived, Acked, Sender.GotPacket;
    UpFacts(w, na, nb);
    NoPanicA(w, q, na, nb);
    InfoArrives(w.a, q, w.toA, na, nb);
    StepA(w, Deliver(q), na, nb);
    ReachesSelf(w);
    ReachesStep(w, w, Do(A, Deliver(q)));
    ZeroAcks(w.a.snd, q);
    assert Wedged(Next(w, Do(A, Deliver(q))), na, nb);
  }

  // ----- a wedged link from any two sessions -----

  /** Both ends are Established, nothing was sent, and the SYN-ACK may come again. */
  ghost predicate JustOpened(w: World, q: Packet, ca: Config, cb: Config) {
    && Up(w, ca.nonce, cb.nonce) && BothEstablished(w) && w.a.snd.history == [] && Sender.Ok(w.a.snd) && Sender.GateOpen(w.a.snd)
    && w.a.snd.window == ca.window && w.b.rcv.window == cb.window && q in w.toA && Offers(q, cb, ca.nonce)
  }

  /** The handshake: connect request, SYN, SYN-ACK and EstabAck. */
  lemma Opens(ca: Config, cb: Config)
    requires GoodNonces(ca, cb)
    ensures exists v, q :: Reaches(Start(ca, cb), v) && JustOpened(v, q, ca, cb)
  {
    hide Inv, Shake, Start, Reaches, DialsTo, JustOpened;
    HalfRun(ca, cb);
    var y, q, p :| DialsTo(Start(ca, cb), y) && Half(y, q, p, ca, cb);
    GoodBy(ca, cb, y);
    CanDeliverB(y, p, ca.nonce, cb.nonce);
    var l := Do(B, Deliver(p));
    DialsStep(Start(ca, cb), y, l);
    ConfirmOpens(y, q, p, ca, cb);
    var v := Next(y, l);
    DialsReaches(Start(ca, cb), v);
    OpenedWindows(ca, cb, v);
    FinallyOpen(v, q, ca, cb);
  }

  lemma OpenedWindows(ca: Config, cb: Config, v: World)
    requires GoodNonces(ca, cb) && DialsTo(Start(ca, cb), v)
    ensures v.a.snd.window == ca.window && v.b.rcv.window == cb.window && Good(v, ca.nonce, cb.nonce)
  {
    hide Inv, Start, Runs, After, Shake;
    GoodBy(ca, cb, v);
    var ls :| Runs(Start(ca, cb), ls) && OneDialler(ls) && After(Start(ca, cb), ls) == v;
    StartInv(ca, cb);
    Theorems.StartWindows(ca, cb);
    Theorems.WindowsFixed(Start(ca, cb), ls);
  }

  lemma ConfirmOpens(y: World, q: Packet, p: Packet, ca: Config, cb: Config)
    requires Half(y, q, p, ca, cb) && Good(y, ca.nonce, cb.nonce)
    ensures var l := Do(B, Deliver(p));
            CanStep(y, l) && BothEstablished(Next(y, l)) && Next(y, l).a == y.a && q in Next(y, l).toA
  {
    hide Inv, Shake, Arrive, ActA, FromDialler, PassiveState, Conn.Accepts, Conn.LockedOn, Offers;
    GoodFacts(y, ca.nonce, cb.nonce);
    var na, nb := ca.nonce, cb.nonce;
    CanDeliverB(y, p, na, nb);
    RetryReady(y, na, nb);
    ShakeSays(y, na, nb);
    LearnedGrows(p, na, nb, y.a.rcv.remote == nb, true);
    PassiveAccepts(y.b, p, na, nb);
    ExpectedArrives(y.b, p);
  }

  lemma FinallyOpen(v: World, q: Packet, ca: Config, cb: Config)
    requires Good(v, ca.nonce, cb.nonce) && BothEstablished(v) && TookOffer(v.a, ca, cb)
    requires v.a.snd.window == ca.window && v.b.rcv.window == cb.window && cb.window >= 1 && cb.windowBytes >= 1
    requires q in v.toA && Offers(q, cb, ca.nonce)
    ensures JustOpened(v, q, ca, cb)
  {
    hide Inv, Shake;
    EstablishedInUse(v, ca.nonce, cb.nonce);
    UpBothWays(v, ca.nonce, cb.nonce);
    assert Stream(v.a.snd.history[0..]) == [];
  }

  /** Any two sessions can get into the wedge: after the handshake a pushes its first
      message, the network loses it, and the SYN-ACK comes a second time. */
  lemma WedgeHappens(ca: Config, cb: Config, data: seq<byte>)
    requires GoodNonces(ca, cb)
    ensures exists v :: Reaches(Start(ca, cb), v) && Wedged(v, ca.nonce, cb.nonce)
  {
    hide Start, Reaches, JustOpened, Wedged;
    Opens(ca, cb);
    var u, q :| Reaches(Start(ca, cb), u) && JustOpened(u, q, ca, cb);
    OpenedWedges(u, q, data, ca, cb);
    var v :| Reaches(u, v) && Wedged(v, ca.nonce, cb.nonce);
    ReachesTrans(Start(ca, cb), u, v);
  }

  lemma OpenedWedges(u: World, q: Packet, data: seq<byte>, ca: Config, cb: Config)
    requires JustOpened(u, q, ca, cb)
    ensures exists v :: Reaches(u, v) && Wedged(v, ca.nonce, cb.nonce)
  {
    WedgeReachable(u, q, data, ca.nonce, cb.nonce);
  }
}
