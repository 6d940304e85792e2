/** What every run of the protocol keeps: delivery in order, no loss, flow control,
    exact byte ledgers, and no panic over cumulative byte counts. */
module Safety {
  import opened Tcp
  import opened Packets
  import opened FlowControl
  import opened Receiver
  import opened Links
  import opened Ledgers
  import opened Protocol
  import Sender
  import Conn

  /** The invariant of the direction from x to y. */
  ghost predicate Link(x: Endpoint, y: Endpoint, xy: set<Packet>, yx: set<Packet>) {
    LinkInv(x.snd, y.rcv, y.app, xy, yx)
  }

  ghost predicate Inv(w: World) {
    Link(w.a, w.b, w.toB, w.toA) && Link(w.b, w.a, w.toA, w.toB)
  }

  /** The receiver may only have made progress. */
  ghost predicate Steady(r: Receiver, r': Receiver) {
    r'.window == r.window && r'.windowBytes == r.windowBytes && r.consumed <= r'.consumed
  }

  /** A step of x next to y that keeps both directions intact. */
  ghost predicate GoodStep(x: Endpoint, y: Endpoint, x': Endpoint, out: set<Packet>) {
    && SenderInv(x'.snd, y.rcv.window, y.rcv.windowBytes)
    && x.snd.history <= x'.snd.history && x'.snd.acked <= y.rcv.consumed
    && ReceiverInv(x'.rcv, y.snd.history, x'.app) && Steady(x.rcv, x'.rcv)
    && (forall p :: p in out ==> DataOk(p, x'.snd.history) && AckOk(p, x'.rcv))
  }

  lemma GoodStepKeeps(x: Endpoint, y: Endpoint, x': Endpoint, out: set<Packet>, xy: set<Packet>, yx: set<Packet>)
    requires Link(x, y, xy, yx) && Link(y, x, yx, xy) && GoodStep(x, y, x', out)
    ensures Link(x', y, xy + out, yx) && Link(y, x', yx, xy + out)
  {
    hide SenderInv, ReceiverInv, DataOk, AckOk;
    HistoryGrows(y.rcv, x.snd.history, x'.snd.history, y.app);
    forall p | p in yx
      ensures DataOk(p, y.snd.history) && AckOk(p, y.rcv)
    {
    }
    forall p | p in xy + out
      ensures DataOk(p, x'.snd.history) && AckOk(p, x'.rcv)
    {
      if p in xy {
        DataOkGrows(p, x.snd.history, x'.snd.history);
        AckOkGrows(p, x.rcv, x'.rcv);
      }
    }
  }

  // ----- the connection part only replies -----

  /** The receiver is ready to send acks, which are honest packets. */
  ghost predicate Replied(r: Receiver, r': Receiver, history: seq<Frame>, app: seq<byte>, acks: seq<Packet>) {
    && ReceiverInv(r', history, app) && Steady(r, r')
    && (forall p :: p in acks ==> AckOk(p, r') && forall h :: DataOk(p, h))
  }

  lemma RemoteKeeps(r: Receiver, history: seq<Frame>, app: seq<byte>, remote: string)
    requires ReceiverInv(r, history, app)
    ensures ReceiverInv(r.(remote := remote), history, app)
  {
    hide Stream, Carries, ReadyOk, TakenOf;
  }

  lemma ReplyKeeps(r: Receiver, c: Conn.Conn, history: seq<Frame>, app: seq<byte>, event: TcpEvent)
    requires ReceiverInv(r, history, app) && event != EventData
    ensures var o := Conn.Reply(r, c, event); o.Does? && Replied(r, o.r, history, app, o.acks)
  {
    CoreOf(r, history, app);
    hide CoreInv, ReceiverInv, DataOk, AckOk;
    AckedKeeps(r, history, app, event);
  }

  lemma NothingReplied(r: Receiver, history: seq<Frame>, app: seq<byte>)
    requires ReceiverInv(r, history, app)
    ensures Replied(r, r, history, app, [])
  {
    hide ReceiverInv;
  }

  lemma LearnerReplied(r: Receiver, remote: string, o: Conn.Outcome, history: seq<Frame>, app: seq<byte>)
    requires o.Does? && Replied(r.(remote := remote), o.r, history, app, o.acks)
    ensures Replied(r, o.r, history, app, o.acks)
  {
    hide ReceiverInv;
  }

  lemma ActionKeeps(r: Receiver, c: Conn.Conn, history: seq<Frame>, app: seq<byte>, act: TcpAction, p: Packet)
    requires ReceiverInv(r, history, app)
    ensures var o := Conn.DoAction(r, c, act, p); o.Does? ==> Replied(r, o.r, history, app, o.acks)
  {
    hide ReceiverInv, Conn.Reply, Replied;
    NothingReplied(r, history, app);
    RemoteKeeps(r, history, app, p.fromNonce);
    var q := r.(remote := p.fromNonce);
    match act
    case NoAction =>
    case SendDataAck => ReplyKeeps(r, c, history, app, EventDataAck);
    case SendSyn => ReplyKeeps(r, c, history, app, EventSyn);
    case SendSynAck =>
      ReplyKeeps(q, c, history, app, EventSynAck);
      LearnerReplied(r, p.fromNonce, Conn.Reply(q, c, EventSynAck), history, app);
    case SendEstabAck =>
      ReplyKeeps(q, c.(pending := false), history, app, EventEstabAck);
      LearnerReplied(r, p.fromNonce, Conn.Reply(q, c.(pending := false), EventEstabAck), history, app);
    case SendFin => ReplyKeeps(r, c, history, app, EventFin);
    case SendFinAck => ReplyKeeps(r, c, history, app, EventFinAck);
    case DoAppClose => ReplyKeeps(r, Conn.Told(c), history, app, EventFinAck);
  }

  lemma AckOkGrows(p: Packet, r: Receiver, r': Receiver)
    requires AckOk(p, r) && Steady(r, r')
    ensures AckOk(p, r')
  {
  }

  lemma {:induction false} EventKeeps(r: Receiver, c: Conn.Conn, history: seq<Frame>, app: seq<byte>, event: TcpEvent, p: Packet)
    requires ReceiverInv(r, history, app)
    ensures var o := Conn.HandleEvent(r, c, event, p); o.Does? ==> Replied(r, o.r, history, app, o.acks)
    decreases 6 - Rank(c.tcp)
  {
    hide ReceiverInv, Conn.DoAction, Conn.SetUp, DataOk, AckOk;
    var (st, act) := Update(c.tcp, event, p.fromState);
    ActionKeeps(r, Conn.SetUp(c.(tcp := st), c.tcp, p, act), history, app, act, p);
    var o := Conn.Handled(r, c, event, p);
    CloseRank(c.tcp, event, p.fromState);
    hide Update, Rank;
    if o.Does? && act == DoAppClose {
      EventKeeps(o.r, o.c, history, app, EventApplicationClosed, p);
      var o2 := Conn.HandleEvent(o.r, o.c, EventApplicationClosed, p);
      if o2.Does? {
        forall q | q in o.acks
          ensures AckOk(q, o2.r)
        {
          AckOkGrows(q, o.r, o2.r);
        }
      }
    }
  }

  lemma RetriedKeeps(r: Receiver, c: Conn.Conn, history: seq<Frame>, app: seq<byte>)
    requires ReceiverInv(r, history, app)
    ensures var o := Conn.Retried(r, c); o.Does? ==> Replied(r, o.r, history, app, o.acks)
  {
    hide ReceiverInv, Conn.DoAction, DataOk, AckOk;
    ActionKeeps(r, c.(attempts := c.attempts + 1), history, app, c.retryAction, c.causal);
  }

  lemma {:induction false} LearnedOnlyRemote(s: Sender.Sender, acks: seq<Packet>)
    ensures LearnedAll(s, acks) == s.(remote := LearnedAll(s, acks).remote)
    decreases |acks|
  {
    if acks != [] {
      LearnedOnlyRemote(Sender.Learned(s, acks[0]), acks[1..]);
    }
  }

  // ----- the actions of an endpoint -----

  /** Both directions, seen from x. */
  ghost predicate Pair(x: Endpoint, y: Endpoint, xy: set<Packet>, yx: set<Packet>) {
    Link(x, y, xy, yx) && Link(y, x, yx, xy)
  }

  /** Acks of a receiver that kept the invariant are sent by its sender. */
  lemma AckingKeeps(x: Endpoint, y: Endpoint, x1: Endpoint, r: Receiver, c: Conn.Conn, acks: seq<Packet>)
    requires SenderInv(x1.snd, y.rcv.window, y.rcv.windowBytes)
    requires x.snd.history <= x1.snd.history && x1.snd.acked <= y.rcv.consumed
    requires Replied(x.rcv, r, y.snd.history, x1.app, acks)
    ensures var s := Acking(x1, r, c, acks); s.Stepped? && GoodStep(x, y, s.e, s.out)
  {
    hide ReceiverInv, DataOk, AckOk, Stream, WellNumbered, Sender.CreditAll;
    LearnedOnlyRemote(x1.snd, acks);
    var s := Acking(x1, r, c, acks);
    assert SenderInv(s.e.snd, y.rcv.window, y.rcv.windowBytes);
  }

  lemma PairFacts(x: Endpoint, y: Endpoint, xy: set<Packet>, yx: set<Packet>)
    requires Pair(x, y, xy, yx)
    ensures SenderInv(x.snd, y.rcv.window, y.rcv.windowBytes) && Sender.Ok(x.snd)
    ensures ReceiverInv(x.rcv, y.snd.history, x.app)
    ensures x.snd.acked <= y.rcv.consumed && WellNumbered(x.snd.history) && WellNumbered(y.snd.history)
    ensures 0 <= x.rcv.published <= x.rcv.consumed && 1 <= x.rcv.window && 1 <= x.rcv.windowBytes
  {
    hide Stream, Carries, ReadyOk, TakenOf;
  }

  /** A packet on its way is honest in both roles, and fits the ledger of its receiver. */
  lemma HonestIn(x: Endpoint, y: Endpoint, xy: set<Packet>, yx: set<Packet>, p: Packet)
    requires Pair(x, y, xy, yx) && p in yx
    ensures DataOk(p, y.snd.history) && AckOk(p, y.rcv) && LedgerInv(x.rcv, y.snd.history)
  {
    hide SenderInv, DataOk, AckOk, WindowInv, ReadyInv, HeldInv, LedgerInv, CapsInv;
  }

  lemma ArrivePanicFree(x: Endpoint, y: Endpoint, xy: set<Packet>, yx: set<Packet>, p: Packet)
    requires Pair(x, y, xy, yx) && p in yx
    ensures !ArrivalPanics(Conn.LockedOn(x.rcv, x.conn, p).0, p)
  {
    hide Pair, SenderInv, ReceiverInv, LedgerInv, AckOk, WellNumbered, CumulPanics;
    PairFacts(x, y, xy, yx);
    HonestIn(x, y, xy, yx, p);
    NoCumulPanic(x.rcv, y.snd.history, p);
    SamePanics(x.rcv, Conn.LockedOn(x.rcv, x.conn, p).0, p);
  }

  lemma SamePanics(r: Receiver, r': Receiver, p: Packet)
    requires r'.largest == r.largest && r'.maxCumul == r.maxCumul
    ensures CumulPanics(r, p) == CumulPanics(r', p)
  {
  }

  lemma ArriveKeeps(x: Endpoint, y: Endpoint, xy: set<Packet>, yx: set<Packet>, p: Packet)
    requires Pair(x, y, xy, yx) && p in yx && Arrive(x, p).Stepped?
    ensures GoodStep(x, y, Arrive(x, p).e, Arrive(x, p).out)
  {
    var h := y.snd.history;
    hide Pair, SenderInv, ReceiverInv, LedgerInv, DataOk, AckOk, WellNumbered, Conn.HandleEvent, DataReceived, Arrived, Acking,
         CumulPanics, IndexPanics, Sender.CreditAll, Sender.Through;
    var (r0, c0) := Conn.LockedOn(x.rcv, x.conn, p);
    PairFacts(x, y, xy, yx);
    HonestIn(x, y, xy, yx, p);
    RemoteKeeps(x.rcv, h, x.app, p.fromNonce);
    GotPacketKeeps(x.snd, y.rcv, p);
    if Conn.Accepts(r0, c0, p) {
      ArrivedKeeps(r0, h, x.app, p);
      ArrivedSteady(r0, p);
      AcceptedKeeps(x, y, p, c0, Arrived(r0, p));
    }
  }

  lemma ArrivedSteady(r: Receiver, p: Packet)
    ensures Steady(r, Arrived(r, p))
  {
  }

  lemma AcceptedKeeps(x: Endpoint, y: Endpoint, p: Packet, c: Conn.Conn, r: Receiver)
    requires Sender.Ok(x.snd)
    requires var s := Sender.GotPacket(x.snd, p);
             SenderInv(s, y.rcv.window, y.rcv.windowBytes) && s.acked <= y.rcv.consumed && s.history == x.snd.history
    requires ReceiverInv(r, y.snd.history, x.app) && Steady(x.rcv, r)
    requires DataOk(p, y.snd.history) && p.seqNum <= r.largest
    ensures var x1 := x.(snd := Sender.GotPacket(x.snd, p));
            if p.event == EventData then
              var (r2, acks) := DataReceived(r, p);
              var s := Acking(x1, r2, c, acks); s.Stepped? && GoodStep(x, y, s.e, s.out)
            else
              var o := Conn.HandleEvent(r, c, p.event, p);
              o.Does? ==> var s := Acking(x1, o.r, o.c, o.acks); s.Stepped? && GoodStep(x, y, s.e, s.out)
  {
    hide SenderInv, ReceiverInv, DataOk, AckOk, Sender.GotPacket, Conn.HandleEvent, DataReceived, Acking, GoodStep;
    var x1 := x.(snd := Sender.GotPacket(x.snd, p));
    if p.event == EventData {
      DataReceivedKeeps(r, y.snd.history, x.app, p);
      DataReceivedSteady(r, p);
      var (r2, acks) := DataReceived(r, p);
      AckingKeeps(x, y, x1, r2, c, acks);
    } else {
      EventKeeps(r, c, y.snd.history, x.app, p.event, p);
      var o := Conn.HandleEvent(r, c, p.event, p);
      if o.Does? {
        AckingKeeps(x, y, x1, o.r, o.c, o.acks);
      }
    }
  }

  lemma DataReceivedSteady(r: Receiver, p: Packet)
    ensures Steady(r, DataReceived(r, p).0)
  {
  }

  /** A packet built from the shared flow record is an honest packet of this end. */
  lemma StampedOk(x: Endpoint, history: seq<Frame>, p: Packet)
    requires ReceiverInv(x.rcv, history, x.app)
    requires 0 <= p.ackNum <= x.rcv.consumed
    requires p.msgCap == x.rcv.flow.msgCap && p.bytesCap == x.rcv.flow.bytesCap
    ensures AckOk(p, x.rcv)
  {
  }

  lemma FrameOk(s: Sender.Sender, flow: Flow, n: nat)
    requires WellNumbered(s.history) && n < |s.history|
    ensures DataOk(Sender.DataPacket(s, flow, s.history[n]), s.history)
  {
  }

  /** The facts about x and y that the single actions need. */
  /** Sending more packets of this end, with the sender part possibly grown. */
  lemma SendingGood(x: Endpoint, y: Endpoint, x': Endpoint, out: set<Packet>)
    requires SenderInv(x'.snd, y.rcv.window, y.rcv.windowBytes)
    requires x.snd.history <= x'.snd.history && x'.snd.acked <= y.rcv.consumed
    requires ReceiverInv(x.rcv, y.snd.history, x.app) && x'.rcv == x.rcv && x'.app == x.app
    requires forall p :: p in out ==> DataOk(p, x'.snd.history) && AckOk(p, x.rcv)
    ensures GoodStep(x, y, x', out)
  {
    hide SenderInv, ReceiverInv, DataOk, AckOk;
  }

  lemma PushGood(x: Endpoint, y: Endpoint, xy: set<Packet>, yx: set<Packet>, a: Action)
    requires Pair(x, y, xy, yx) && a.Push? && Allowed(x, a, yx) && Act(x, a, yx).Stepped?
    ensures var s := Act(x, a, yx); GoodStep(x, y, s.e, s.out)
  {
    hide SenderInv, ReceiverInv, DataOk, AckOk, Pair, GoodStep, WellNumbered;
    PairFacts(x, y, xy, yx);
    PushKeeps(x.snd, y.rcv.window, y.rcv.windowBytes, a.data, a.account, a.cliAcked);
    var t := Sender.Sent(x.snd, a.data, a.account, a.cliAcked);
    Numbered(t, y.rcv.window, y.rcv.windowBytes);
    FrameOk(t, x.rcv.flow, |t.history| - 1);
    StampedOk(x, y.snd.history, Sender.DataPacket(t, x.rcv.flow, t.history[|t.history| - 1]));
    SendingGood(x, y, Act(x, a, yx).e, Act(x, a, yx).out);
  }

  lemma Numbered(s: Sender.Sender, window: int, windowBytes: int)
    requires SenderInv(s, window, windowBytes)
    ensures WellNumbered(s.history)
  {
  }

  lemma RetryGood(x: Endpoint, y: Endpoint, xy: set<Packet>, yx: set<Packet>, a: Action)
    requires Pair(x, y, xy, yx) && a.Retry? && Allowed(x, a, yx)
    ensures var s := Act(x, a, yx); s.Stepped? && GoodStep(x, y, s.e, s.out)
  {
    hide SenderInv, ReceiverInv, DataOk, AckOk, Pair, GoodStep, WellNumbered;
    PairFacts(x, y, xy, yx);
    forall n | n in a.frames
      ensures var p := Sender.DataPacket(x.snd, x.rcv.flow, x.snd.history[n]);
              DataOk(p, x.snd.history) && AckOk(p, x.rcv)
    {
      FrameOk(x.snd, x.rcv.flow, n);
      StampedOk(x, y.snd.history, Sender.DataPacket(x.snd, x.rcv.flow, x.snd.history[n]));
    }
    hide Sender.DataPacket;
    SendingGood(x, y, x, Act(x, a, yx).out);
  }

  lemma ControlOk(p: Packet, history: seq<Frame>)
    requires p.event != EventData && p.seqNum <= -98 && p.cumul == 0 && p.dataOffset == 0
    ensures DataOk(p, history)
  {
  }

  lemma SynOk(x: Endpoint)
    requires 0 <= x.rcv.consumed && 1 <= x.rcv.window && 1 <= x.rcv.windowBytes
    ensures AckOk(Conn.SynPacket(x.rcv), x.rcv) && forall h :: DataOk(Conn.SynPacket(x.rcv), h)
  {
  }

  lemma ControlPacketsGood(x: Endpoint, y: Endpoint, xy: set<Packet>, yx: set<Packet>, a: Action)
    requires Pair(x, y, xy, yx) && (a.KeepAlive? || a.Close? || a.Dial?) && Allowed(x, a, yx)
    ensures var s := Act(x, a, yx); s.Stepped? && GoodStep(x, y, s.e, s.out)
  {
    hide SenderInv, ReceiverInv, DataOk, AckOk, Pair, GoodStep, WellNumbered;
    PairFacts(x, y, xy, yx);
    StampedOk(x, y.snd.history, KeepAlivePacket(x));
    ControlOk(KeepAlivePacket(x), x.snd.history);
    StampedOk(x, y.snd.history, FinPacket(x));
    ControlOk(FinPacket(x), x.snd.history);
    SynOk(x);
    hide KeepAlivePacket, FinPacket, Conn.SynPacket;
    SendingGood(x, y, Act(x, a, yx).e, Act(x, a, yx).out);
  }

  lemma ConsumeGood(x: Endpoint, y: Endpoint, xy: set<Packet>, yx: set<Packet>, a: Action)
    requires Pair(x, y, xy, yx) && a.Consume? && Allowed(x, a, yx)
    ensures var s := Act(x, a, yx); s.Stepped? && GoodStep(x, y, s.e, s.out)
  {
    hide SenderInv, ReceiverInv, DataOk, AckOk, Acking, Pair, GoodStep, Delivered, WellNumbered;
    PairFacts(x, y, xy, yx);
    DeliveredKeeps(x.rcv, y.snd.history, x.app);
    DeliveredSteady(x.rcv);
    var (r, ack) := Delivered(x.rcv);
    AckingKeeps(x, y, x.(app := x.app + Unread(x.rcv.ready)), r, x.conn, [ack]);
  }

  lemma ReadGood(x: Endpoint, y: Endpoint, xy: set<Packet>, yx: set<Packet>, a: Action)
    requires Pair(x, y, xy, yx) && a.Read? && Allowed(x, a, yx)
    ensures var s := Act(x, a, yx); s.Stepped? && GoodStep(x, y, s.e, s.out)
  {
    hide SenderInv, ReceiverInv, DataOk, AckOk, Acking, Pair, GoodStep, ReadInto, WellNumbered, CoreInv, CapsInv;
    PairFacts(x, y, xy, yx);
    ReadKeeps(x.rcv, y.snd.history, x.app, a.room);
    ReadSteady(x.rcv, a.room);
    var (r, bytes, acks) := ReadInto(x.rcv, a.room);
    CoreIsAll(r, y.snd.history, x.app + bytes);
    AckingKeeps(x, y, x.(app := x.app + bytes), r, x.conn, acks);
  }

  lemma CoreIsAll(r: Receiver, history: seq<Frame>, app: seq<byte>)
    requires CoreInv(r, history, app) && CapsInv(r)
    ensures ReceiverInv(r, history, app)
  {
  }

  lemma DeliveredSteady(r: Receiver)
    requires r.ready != []
    ensures var r' := Delivered(r).0; r'.window == r.window && r'.windowBytes == r.windowBytes
  {
  }

  lemma ReadSteady(r: Receiver, room: nat)
    ensures var r' := ReadInto(r, room).0; r'.window == r.window && r'.windowBytes == r.windowBytes
  {
  }

  lemma TimerGood(x: Endpoint, y: Endpoint, xy: set<Packet>, yx: set<Packet>)
    requires Pair(x, y, xy, yx) && Allowed(x, RetryTimer, yx) && Act(x, RetryTimer, yx).Stepped?
    ensures var s := Act(x, RetryTimer, yx); GoodStep(x, y, s.e, s.out)
  {
    hide SenderInv, ReceiverInv, Acking, Pair, GoodStep, Conn.Retried, DataOk, AckOk, WellNumbered;
    PairFacts(x, y, xy, yx);
    RetriedKeeps(x.rcv, x.conn, y.snd.history, x.app);
    var o := Conn.Retried(x.rcv, x.conn);
    AckingKeeps(x, y, x, o.r, o.c, o.acks);
  }

  /** Every step of an endpoint is a good one. */
  lemma ActGood(x: Endpoint, y: Endpoint, xy: set<Packet>, yx: set<Packet>, a: Action)
    requires Pair(x, y, xy, yx) && Allowed(x, a, yx) && Act(x, a, yx).Stepped?
    ensures var s := Act(x, a, yx); GoodStep(x, y, s.e, s.out)
  {
    hide Pair, GoodStep, Acking, Arrive, Delivered, ReadInto, Conn.Retried;
    match a
    case Push(_, _, _) => PushGood(x, y, xy, yx, a);
    case Retry(_) => RetryGood(x, y, xy, yx, a);
    case Deliver(p) => ArriveKeeps(x, y, xy, yx, p);
    case Consume => ConsumeGood(x, y, xy, yx, a);
    case Read(_) => ReadGood(x, y, xy, yx, a);
    case KeepAlive => ControlPacketsGood(x, y, xy, yx, a);
    case Close => ControlPacketsGood(x, y, xy, yx, a);
    case Dial => ControlPacketsGood(x, y, xy, yx, a);
    case RetryTimer => TimerGood(x, y, xy, yx);
  }

  // ----- whole runs -----

  lemma ActAKeeps(w: World, a: Action)
    requires Inv(w) && CanActA(w, a)
    ensures Inv(ActA(w, a))
  {
    hide Link, GoodStep, Act;
    ActGood(w.a, w.b, w.toB, w.toA, a);
    var s := Act(w.a, a, w.toA);
    GoodStepKeeps(w.a, w.b, s.e, s.out, w.toB, w.toA);
  }

  lemma LoseKeeps(x: Endpoint, y: Endpoint, xy: set<Packet>, yx: set<Packet>, p: Packet)
    requires Link(x, y, xy, yx)
    ensures Link(x, y, xy - {p}, yx) && Link(x, y, xy, yx - {p})
  {
    hide SenderInv, ReceiverInv, DataOk, AckOk;
  }

  lemma StepKeeps(w: World, l: Label)
    requires Inv(w) && CanStep(w, l)
    ensures Inv(Next(w, l))
  {
    hide Link, ActA, CanActA;
    match l
    case Do(side, a) =>
      if side.A? { ActAKeeps(w, a); } else { ActAKeeps(Flip(w), a); }
    case Lose(side, p) =>
      LoseKeeps(w.a, w.b, w.toB, w.toA, p);
      LoseKeeps(w.b, w.a, w.toA, w.toB, p);
  }

  ghost predicate GoodConfig(c: Config) {
    c.window >= 1 && c.windowBytes >= 1
  }

  lemma StartInv(ca: Config, cb: Config)
    requires GoodConfig(ca) && GoodConfig(cb)
    ensures Inv(Start(ca, cb))
  {
    hide LinkInv;
    InitInv(Sender.Init(ca.nonce, ca.window), Init(cb.nonce, cb.window, cb.windowBytes));
    InitInv(Sender.Init(cb.nonce, cb.window), Init(ca.nonce, ca.window, ca.windowBytes));
  }

  lemma {:induction false} RunKeeps(w: World, ls: seq<Label>)
    requires Inv(w) && Runs(w, ls)
    ensures Inv(After(w, ls))
    decreases |ls|
  {
    hide Inv, CanStep, Next;
    if ls != [] {
      StepKeeps(w, ls[0]);
      RunKeeps(Next(w, ls[0]), ls[1..]);
    }
  }

  // ----- reachable worlds -----

  /** Some run of some two sessions leads to w. */
  ghost predicate Reached(w: World) {
    exists ca, cb :: GoodConfig(ca) && GoodConfig(cb) && Reaches(Start(ca, cb), w)
  }

  lemma ReachedBy(ca: Config, cb: Config, w: World)
    requires GoodConfig(ca) && GoodConfig(cb) && Reaches(Start(ca, cb), w)
    ensures Reached(w)
  {
  }

  lemma ReachedInv(w: World)
    requires Reached(w)
    ensures Inv(w)
  {
    hide Inv, Start, Runs, After;
    var ca, cb :| GoodConfig(ca) && GoodConfig(cb) && Reaches(Start(ca, cb), w);
    var ls :| Runs(Start(ca, cb), ls) && After(Start(ca, cb), ls) == w;
    StartInv(ca, cb);
    RunKeeps(Start(ca, cb), ls);
  }

  lemma ReachedStep(w: World, l: Label)
    requires Reached(w) && CanStep(w, l)
    ensures Reached(Next(w, l))
  {
    hide Reaches, Start, CanStep, Next;
    var ca, cb :| GoodConfig(ca) && GoodConfig(cb) && Reaches(Start(ca, cb), w);
    ReachesStep(Start(ca, cb), w, l);
  }

  lemma ReachedFlip(w: World)
    requires Reached(w)
    ensures Reached(Flip(w))
  {
    hide Reaches;
    var ca, cb :| GoodConfig(ca) && GoodConfig(cb) && Reaches(Start(ca, cb), w);
    FlipReaches(Start(ca, cb), w);
    assert Flip(Start(ca, cb)) == Start(cb, ca);
  }
}
