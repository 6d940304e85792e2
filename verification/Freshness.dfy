/** What every run keeps besides the invariants of the two directions: the shared flow
    record is up to date, frame 0 is ready as soon as it arrives, and only a session
    with a DestInbox sends keepalives. */
module Freshness {
  import opened Tcp
  import opened Packets
  import opened Receiver
  import opened Links
  import opened Ledgers
  import opened Protocol
  import opened Safety
  import opened Liveness
  import opened Wedge
  import Sender
  import Conn
  import Theorems

  predicate FlowInv(e: Endpoint) {
    e.conn.tcp == Listen || e.conn.tcp == SynSent || FlowOk(e.rcv)
  }

  /** Frame 0 never waits: if it arrived at all, it was ready at once. */
  predicate FirstSeen(r: Receiver) {
    r.largest == 0 ==> r.nextExpected >= 1
  }

  /** The ledgers that FirstSeen speaks of. */
  predicate SameSeen(r: Receiver, r': Receiver) {
    r'.largest == r.largest && r'.nextExpected == r.nextExpected
  }

  lemma ControlFlow(r: Receiver, history: seq<Frame>, app: seq<byte>)
    requires CoreInv(r, history, app)
    ensures FlowOk(Control(r))
  {
    if r.lastMsg == r.largest {
      hide CoreInv;
      OffersAll(r, history, app);
    }
  }

  lemma ArrivedFlow(r: Receiver, history: seq<Frame>, app: seq<byte>, p: Packet)
    requires ReceiverInv(r, history, app) && WellNumbered(history) && DataOk(p, history)
    ensures FlowOk(Arrived(r, p))
  {
    hide ReceiverInv, CoreInv, DataOk, WellNumbered, FlowOk, Arrived, Control;
    ArrivedKeeps(r, history, app, p);
    CoreOf(Arrived(r, p), history, app);
    ControlFlow(Arrived(r, p), history, app);
    ControlTwice(r, p);
  }

  /** When the capacities are up to date, events change the receiver's remote nonce only. */
  lemma ActionRemote(r: Receiver, c: Conn.Conn, act: TcpAction, p: Packet)
    requires Control(r) == r
    ensures var o := Conn.DoAction(r, c, act, p); o.Does? ==> o.r == r.(remote := o.r.remote)
  {
  }

  lemma {:induction false} EventRemote(r: Receiver, c: Conn.Conn, event: TcpEvent, p: Packet)
    requires Control(r) == r
    ensures var o := Conn.HandleEvent(r, c, event, p); o.Does? ==> o.r == r.(remote := o.r.remote)
    decreases 6 - Rank(c.tcp)
  {
    var (st, act) := Update(c.tcp, event, p.fromState);
    ActionRemote(r, Conn.SetUp(c.(tcp := st), c.tcp, p, act), act, p);
    CloseRank(c.tcp, event, p.fromState);
    var o := Conn.Handled(r, c, event, p);
    if o.Does? {
      ControlRemote(r, o.r.remote);
      hide Update, Rank, Conn.DoAction, Control, Conn.SetUp;
      if act == DoAppClose {
        EventRemote(o.r, o.c, EventApplicationClosed, p);
      }
    }
  }

  lemma ControlRemote(r: Receiver, remote: string)
    requires Control(r) == r
    ensures Control(r.(remote := remote)) == r.(remote := remote)
  {
  }

  lemma DataFlow(r: Receiver, p: Packet)
    requires Control(r) == r && FlowOk(r)
    ensures FlowOk(DataReceived(r, p).0)
  {
    hide Run, AfterRun;
  }

  lemma ArriveFlow(x: Endpoint, history: seq<Frame>, p: Packet)
    requires ReceiverInv(x.rcv, history, x.app) && WellNumbered(history) && DataOk(p, history)
    requires FlowInv(x) && Sender.Ok(x.snd) && Arrive(x, p).Stepped?
    ensures FlowInv(Arrive(x, p).e)
  {
    hide Link, ReceiverInv, SenderInv, DataOk, WellNumbered, Arrived, Control, DataReceived, Conn.HandleEvent, Conn.Accepts,
         ArrivalPanics, Sender.GotPacket, LearnedAll;
    var (r0, c0) := Conn.LockedOn(x.rcv, x.conn, p);
    RemoteKeeps(x.rcv, history, x.app, p.fromNonce);
    if Conn.Accepts(r0, c0, p) {
      var r1 := Arrived(r0, p);
      ArrivedFlow(r0, history, x.app, p);
      ControlTwice(r0, p);
      if p.event == EventData {
        DataFlow(r1, p);
      } else {
        EventRemote(r1, c0, p.event, p);
      }
    }
  }

  lemma AckedFlow(r: Receiver, c: Conn.Conn, act: TcpAction, p: Packet, history: seq<Frame>, app: seq<byte>)
    requires ReceiverInv(r, history, app) && FlowOk(r)
    ensures var o := Conn.DoAction(r, c, act, p); o.Does? ==> FlowOk(o.r)
  {
    hide ReceiverInv, CoreInv, Control, FlowOk;
    RemoteKeeps(r, history, app, p.fromNonce);
    CoreOf(r, history, app);
    CoreOf(r.(remote := p.fromNonce), history, app);
    ControlFlow(r, history, app);
    ControlFlow(r.(remote := p.fromNonce), history, app);
  }

  lemma ReadFlow(r: Receiver, history: seq<Frame>, app: seq<byte>, room: nat)
    requires ReceiverInv(r, history, app) && WellNumbered(history) && FlowOk(r)
    ensures FlowOk(ReadInto(r, room).0)
    ensures r.ready != [] ==> FlowOk(Delivered(r).0)
  {
    var f := Filled(r.ready, room);
    hide ReceiverInv, CoreInv, WellNumbered, Control, Numbers, Unread, Filled;
    ProgressedKeeps(r, history, app, room);
    ControlFlow(Progressed(r, f), history, app + f.bytes);
    if r.ready != [] {
      HandedAllKeeps(r, history, app);
      ControlFlow(HandedAll(r), history, app + Unread(r.ready));
    }
  }

  lemma ActFlow(x: Endpoint, y: Endpoint, xy: set<Packet>, yx: set<Packet>, a: Action)
    requires Pair(x, y, xy, yx) && FlowInv(x) && Sender.Ok(x.snd) && Allowed(x, a, yx) && Act(x, a, yx).Stepped?
    ensures FlowInv(Act(x, a, yx).e)
  {
    hide Link, ReceiverInv, SenderInv, WellNumbered, Arrive, ReadInto, Delivered, Conn.DoAction, FlowOk, LearnedAll, Unread;
    PairFacts(x, y, xy, yx);
    match a
    case Deliver(p) =>
      HonestIn(x, y, xy, yx, p);
      ArriveFlow(x, y.snd.history, p);
    case Consume => if FlowOk(x.rcv) { ReadFlow(x.rcv, y.snd.history, x.app, 0); }
    case Read(room) => if FlowOk(x.rcv) { ReadFlow(x.rcv, y.snd.history, x.app, room); }
    case RetryTimer =>
      if FlowOk(x.rcv) {
        AckedFlow(x.rcv, x.conn.(attempts := x.conn.attempts + 1), x.conn.retryAction, x.conn.causal, y.snd.history, x.app);
      }
    case _ =>
  }

  lemma DataSeen(r: Receiver, p: Packet)
    requires FirstSeen(r) && r.nextExpected >= 0 && r.window >= 1
    ensures FirstSeen(DataReceived(Arrived(r, p), p).0)
  {
    if p.seqNum == 0 == r.nextExpected {
      NextReceived(Arrived(r, p), p);
    }
    hide Run, AfterRun;
  }

  lemma ActionSeen(r: Receiver, c: Conn.Conn, act: TcpAction, p: Packet)
    ensures var o := Conn.DoAction(r, c, act, p); o.Does? ==> SameSeen(r, o.r)
  {
  }

  lemma ReadSeen(r: Receiver, room: nat)
    ensures SameSeen(r, ReadInto(r, room).0)
    ensures r.ready != [] ==> SameSeen(r, Delivered(r).0)
  {
    hide Filled, Numbers, Leftover;
  }

  lemma ControlSeen(r: Receiver, p: Packet)
    requires FirstSeen(r) && p.seqNum < 0
    ensures FirstSeen(Arrived(r, p))
  {
  }

  lemma ArriveSeen(x: Endpoint, y: Endpoint, xy: set<Packet>, yx: set<Packet>, p: Packet)
    requires Pair(x, y, xy, yx) && p in yx && FirstSeen(x.rcv) && Sender.Ok(x.snd) && Arrive(x, p).Stepped?
    ensures FirstSeen(Arrive(x, p).e.rcv)
  {
    HonestIn(x, y, xy, yx, p);
    assert x.rcv.nextExpected >= 0 && x.rcv.window >= 1;
    var (r0, c0) := Conn.LockedOn(x.rcv, x.conn, p);
    if p.event == EventData {
      DataSeen(r0, p);
    } else {
      ControlSeen(r0, p);
      ControlTwice(r0, p);
      EventRemote(Arrived(r0, p), c0, p.event, p);
    }
    hide Pair, Arrived, Control, DataReceived, Conn.HandleEvent, Conn.Accepts, ArrivalPanics, Sender.GotPacket, LearnedAll;
  }

  lemma ActSeen(x: Endpoint, y: Endpoint, xy: set<Packet>, yx: set<Packet>, a: Action)
    requires Pair(x, y, xy, yx) && FirstSeen(x.rcv) && Sender.Ok(x.snd) && Allowed(x, a, yx) && Act(x, a, yx).Stepped?
    ensures FirstSeen(Act(x, a, yx).e.rcv)
  {
    hide Pair, Arrive, ReadInto, Delivered, Conn.DoAction, LearnedAll, Unread;
    match a
    case Deliver(p) => ArriveSeen(x, y, xy, yx, p);
    case Consume => ReadSeen(x.rcv, 0);
    case Read(room) => ReadSeen(x.rcv, room);
    case RetryTimer => ActionSeen(x.rcv, x.conn.(attempts := x.conn.attempts + 1), x.conn.retryAction, x.conn.causal);
    case _ =>
  }

  /** What every run keeps besides the invariants of the two directions. */
  ghost predicate UpToDate(w: World) {
    && FlowInv(w.a) && FlowInv(w.b) && FirstSeen(w.a.rcv) && FirstSeen(w.b.rcv)
    && (forall p :: p in w.toB && p.event == EventKeepAlive ==> w.a.hasDest)
    && (forall p :: p in w.toA && p.event == EventKeepAlive ==> w.b.hasDest)
  }

  lemma ActFresh(w: World, a: Action)
    requires Reached(w) && UpToDate(w) && CanActA(w, a)
    ensures UpToDate(ActA(w, a))
  {
    hide Reached, Link, Act, Allowed, FlowInv, FirstSeen;
    ReachedInv(w);
    FramesAbove(w);
    ActFlow(w.a, w.b, w.toB, w.toA, a);
    ActSeen(w.a, w.b, w.toB, w.toA, a);
    ActsAbove(w.a, a, w.toA);
    Theorems.SenderWindowFixed(w.a, a, w.toA);
  }

  lemma StepFresh(w: World, l: Label)
    requires Reached(w) && UpToDate(w) && CanStep(w, l)
    ensures UpToDate(Next(w, l))
  {
    hide Reached, ActA, CanActA, FlowInv, FirstSeen;
    ReachedFlip(w);
    match l
    case Do(side, a) =>
      if side.A? { ActFresh(w, a); } else { ActFresh(Flip(w), a); }
    case Lose(side, p) =>
  }

  lemma {:induction false} RunFresh(w: World, ls: seq<Label>)
    requires Reached(w) && UpToDate(w) && Runs(w, ls)
    ensures UpToDate(After(w, ls))
    decreases |ls|
  {
    hide Reached, UpToDate, CanStep, Next;
    if ls != [] {
      ReachedStep(w, ls[0]);
      StepFresh(w, ls[0]);
      RunFresh(Next(w, ls[0]), ls[1..]);
    }
  }

  lemma StartUpToDate(ca: Config, cb: Config)
    ensures UpToDate(Start(ca, cb))
  {
  }

  lemma ReachedUpToDate(w: World)
    requires Reached(w)
    ensures UpToDate(w)
  {
    hide UpToDate, Start, Runs, After;
    var ca, cb :| GoodConfig(ca) && GoodConfig(cb) && Reaches(Start(ca, cb), w);
    var ls :| Runs(Start(ca, cb), ls) && After(Start(ca, cb), ls) == w;
    ReachesSelf(Start(ca, cb));
    ReachedBy(ca, cb, Start(ca, cb));
    StartUpToDate(ca, cb);
    RunFresh(Start(ca, cb), ls);
  }
}
