/** LastByteConsumed starts as an index, -1, and becomes a count with the first
    consumption. From then on the capacity that UpdateControl computes is one byte
    too large: this module says exactly when it exceeds the window, and that it does. */
module Adverts {
  import opened Tcp
  import opened Packets
  import opened Receiver
  import opened Links
  import opened Ledgers
  import opened Protocol
  import opened Safety
  import opened Liveness
  import Sender
  import Conn

  /** What r would advertise next exceeds its byte window, by one, exactly when its
      application has consumed every byte the receiver knows of, and has begun to. */
  ghost predicate ExceedsExactly(r: Receiver) {
    && (Control(r).bytesCap > r.windowBytes <==> r.lastByte == r.maxCumul)
    && (Control(r).bytesCap > r.windowBytes <==> Control(r).bytesCap == r.windowBytes + 1)
  }

  lemma ReceiverExceeds(r: Receiver, history: seq<Frame>, app: seq<byte>)
    requires ReceiverInv(r, history, app)
    ensures ExceedsExactly(r)
  {
    AppWithinLedger(r, history, app);
    hide WindowInv, HeldInv, Stream, TakenOf, ReadyOk;
  }

  /** After every run, at both ends. */
  lemma ExcessExactly(ca: Config, cb: Config, ls: seq<Label>)
    requires GoodConfig(ca) && GoodConfig(cb) && Runs(Start(ca, cb), ls)
    ensures var w := After(Start(ca, cb), ls); ExceedsExactly(w.a.rcv) && ExceedsExactly(w.b.rcv)
  {
    hide Start, Runs, After, ReceiverInv, ExceedsExactly;
    StartInv(ca, cb);
    RunKeeps(Start(ca, cb), ls);
    var w := After(Start(ca, cb), ls);
    PairFacts(w.a, w.b, w.toB, w.toA);
    PairFacts(w.b, w.a, w.toA, w.toB);
    ReceiverExceeds(w.a.rcv, w.b.snd.history, w.a.app);
    ReceiverExceeds(w.b.rcv, w.a.snd.history, w.b.app);
  }

  /** Every delivery that leaves nothing ready or buffered is acknowledged with one
      byte more than the window. */
  lemma DeliveryExceeds(r: Receiver, history: seq<Frame>, app: seq<byte>)
    requires ReceiverInv(r, history, app) && WellNumbered(history) && r.ready != [] && r.largest == r.nextExpected - 1
    ensures Delivered(r).1.bytesCap == r.windowBytes + 1
  {
    hide Numbers, ReceiverInv, WellNumbered;
    LastCumul(r, history, app);
  }

  lemma LastCumul(r: Receiver, history: seq<Frame>, app: seq<byte>)
    requires ReceiverInv(r, history, app) && WellNumbered(history) && r.ready != [] && r.largest == r.nextExpected - 1
    ensures r.ready[|r.ready| - 1].cumul == r.maxCumul
  {
    hide Stream, WellNumbered, ReadyOk, TakenOf, WindowInv, HeldInv, CapsInv;
    var n := |r.ready| - 1;
    ReadyAt(r.ready, r.lastMsg + 1, history, n);
    assert r.lastMsg + 1 + n + 1 == r.largest + 1;
  }

  // ----- a run that does it -----

  /** Frame 0 was pushed at a and its packet p is on its way; nothing else happened. */
  ghost predicate FirstSent(w: World, p: Packet, ca: Config, cb: Config) {
    && Reached(w) && w.b == NewEndpoint(cb) && |w.a.snd.history| == 1
    && p in w.toB && p.event == EventData && p.seqNum == 0 && p.destNonce == ""
  }

  lemma SendFirst(ca: Config, cb: Config, data: seq<byte>)
    requires GoodConfig(ca) && GoodConfig(cb)
    ensures exists w, p :: Reaches(Start(ca, cb), w) && FirstSent(w, p, ca, cb)
  {
    hide Inv, Reached, Reaches;
    var s := Start(ca, cb);
    StartInv(ca, cb);
    ReachesSelf(s);
    var l := Do(A, Push(data, None, false));
    assert Sender.GateOpen(s.a.snd) by { assert Stream(s.a.snd.history[0..]) == []; }
    ReachesStep(s, s, l);
    ReachedBy(ca, cb, Next(s, l));
    var w := Next(s, l);
    var p := Sender.DataPacket(w.a.snd, s.a.rcv.flow, w.a.snd.history[0]);
    assert FirstSent(w, p, ca, cb);
  }

  /** b takes the packet although it is not connected, and waits for frame 1. */
  lemma FirstArrives(c: Config, p: Packet)
    requires GoodConfig(c) && p.event == EventData && p.seqNum == 0 && p.destNonce == "" && !ArrivalPanics(NewEndpoint(c).rcv, p)
    ensures var s := Arrive(NewEndpoint(c), p);
            s.Stepped? && s.e.rcv.nextExpected >= 1 && s.e.rcv.lastMsg == -1 && Conn.Live(s.e.conn)
            && s.e.rcv.windowBytes == c.windowBytes
  {
    var e := NewEndpoint(c);
    assert Conn.LockedOn(e.rcv, e.conn, p) == (e.rcv, e.conn);
    ArrivedSame(e.rcv, p);
    NextReceived(Arrived(e.rcv, p), p);
    DataReceivedSteady(Arrived(e.rcv, p), p);
    hide Arrived, ArrivalPanics, Run, AfterRun;
  }

  lemma FirstPanicFree(w: World, p: Packet, ca: Config, cb: Config)
    requires FirstSent(w, p, ca, cb)
    ensures !ArrivalPanics(w.b.rcv, p) && Sender.Ok(w.b.snd)
  {
    hide ArrivalPanics, Link, SenderInv, ReceiverInv, WellNumbered;
    ReachedInv(w);
    PairFacts(w.b, w.a, w.toA, w.toB);
    ArrivePanicFree(w.b, w.a, w.toA, w.toB, p);
  }

  lemma FirstConsumed(w: World)
    requires Reached(w) && |w.a.snd.history| == 1 && w.b.rcv.nextExpected >= 1 && w.b.rcv.lastMsg == -1 && Conn.Live(w.b.conn)
    ensures exists v, q :: Reaches(w, v) && q in v.toA && q.bytesCap == w.b.rcv.windowBytes + 1
  {
    ReachedInv(w);
    var r := w.b.rcv;
    PairFacts(w.a, w.b, w.toB, w.toA);
    PairFacts(w.b, w.a, w.toA, w.toB);
    FirstReady(r, w.a.snd.history, w.b.app);
    DeliveryExceeds(r, w.a.snd.history, w.b.app);
    hide Inv, ReceiverInv, WellNumbered, Delivered, Unread, LearnedAll, SenderInv, Reaches;
    var l := Do(B, Consume);
    ReachesSelf(w);
    ReachesStep(w, w, l);
    var q := Delivered(r).1;
    assert q in [q];
    assert q in Next(w, l).toA;
  }

  lemma FirstReady(r: Receiver, history: seq<Frame>, app: seq<byte>)
    requires ReceiverInv(r, history, app) && |history| == 1 && r.nextExpected >= 1 && r.lastMsg == -1
    ensures r.ready != [] && r.largest == r.nextExpected - 1
  {
    hide Stream, ReadyOk, TakenOf;
  }

  /** Any two sessions do it with the first message, of whatever length. */
  lemma ExcessHappens(ca: Config, cb: Config, data: seq<byte>)
    requires GoodConfig(ca) && GoodConfig(cb)
    ensures exists v, q :: Reaches(Start(ca, cb), v) && q in v.toA && q.bytesCap == cb.windowBytes + 1
  {
    hide Reached, Reaches, Start, Arrive, ArrivalPanics;
    SendFirst(ca, cb, data);
    var w, p :| Reaches(Start(ca, cb), w) && FirstSent(w, p, ca, cb);
    FirstPanicFree(w, p, ca, cb);
    FirstArrives(cb, p);
    var l := Do(B, Deliver(p));
    ReachedStep(w, l);
    ReachesStep(Start(ca, cb), w, l);
    var x := Next(w, l);
    FirstConsumed(x);
    var v, q :| Reaches(x, v) && q in v.toA && q.bytesCap == x.b.rcv.windowBytes + 1;
    ReachesTrans(Start(ca, cb), x, v);
  }
}
