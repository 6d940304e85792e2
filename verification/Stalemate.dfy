/** A dead pair is real: any two sessions without a DestInbox can get there. Each end
    pushes one message that fills the other's byte window, so that the next packet of
    either end offers no room, and these packets are the last to be heard of. */
module Stalemate {
  import opened Tcp
  import opened Packets
  import opened Receiver
  import opened Links
  import opened Protocol
  import opened Safety
  import opened Handshake
  import opened Opening
  import opened Liveness
  import opened Scenarios
  import opened Wedge
  import opened Freshness
  import opened Deadlock
  import EndToEnd
  import Sender
  import Conn
  import Theorems

  // ----- what one full message does to a receiver -----

  /** Frame 0 fills the whole byte window. */
  predicate Fills(p: Packet, c: Config) {
    p.event == EventData && p.seqNum == 0 && p.cumul == c.windowBytes == |p.data| && p.dataOffset == 0
  }

  /** Frame 0 arrived and was not consumed: the receiver offers no room for bytes. */
  predicate Full(r: Receiver, c: Config) {
    && r.window == c.window && r.windowBytes == c.windowBytes
    && r.nextExpected == 1 && r.consumed == 0 && r.lastMsg == -1 && r.lastByte == -1 && r.largest == 0
    && r.maxCumul == c.windowBytes && r.flow.bytesCap == 0 && |r.ready| == 1
  }

  lemma RunOfOne(p: Packet)
    ensures Run(map[0 := p], 0) == [p]
  {
    var rest := map[0 := p] - {0};
    assert rest == map[];
    assert Run(rest, 1) == [];
  }

  lemma FullReceived(r: Receiver, p: Packet, c: Config)
    requires GoodConfig(c) && Untouched(r, c) && Fills(p, c)
    ensures var (r', acks) := DataReceived(Arrived(r, p), p); Full(r', c) && acks == []
  {
    RunOfOne(p);
    hide Run, AfterRun;
  }

  /** The same packet again, and any acknowledgement: still no room. */
  lemma FilledOffers(r: Receiver, p: Packet, c: Config)
    requires GoodConfig(c) && Full(r, c) && p.seqNum <= 0
    ensures Full(Arrived(r, p), c)
    ensures var ack := Acked(Arrived(r, p), EventDataAck).1; ack.bytesCap == 0 && ack.ackNum == 0
    ensures p.seqNum == 0 ==> DataReceived(Arrived(r, p), p) == (Discarded(Arrived(r, p)).0, [Acked(Arrived(r, p), EventDataAck).1])
    ensures Full(Discarded(Arrived(r, p)).0, c)
  {
  }

  // ----- the run, stage by stage -----

  /** The handshake is done, and neither end has sent anything. */
  ghost predicate Clean(w: World, ca: Config, cb: Config) {
    && Sender.Ok(w.a.snd) && Sender.GateOpen(w.a.snd) && Up(w, ca.nonce, cb.nonce) && BothEstablished(w) && FlowOk(w.a.rcv)
    && !w.a.hasDest && !w.b.hasDest && w.a.snd.history == [] && w.b.snd.history == []
    && Untouched(w.a.rcv, ca) && Untouched(w.b.rcv, cb)
  }

  /** A control packet leaves the ledgers of a receiver without data alone. */
  lemma InfoLedger(e: Endpoint, p: Packet, c: Config)
    requires Sender.Ok(e.snd) && Arrive(e, p).Stepped? && Untouched(e.rcv, c) && p.event != EventData && p.seqNum < 0
    ensures Untouched(Arrive(e, p).e.rcv, c)
  {
    var (r0, c0) := Conn.LockedOn(e.rcv, e.conn, p);
    var r1 := Arrived(r0, p);
    assert Untouched(r1, c);
    ControlTwice(r0, p);
    EventRemote(r1, c0, p.event, p);
    hide Arrived, Control, Conn.HandleEvent, Conn.LockedOn, Conn.Accepts, ArrivalPanics, LearnedAll, Sender.GotPacket;
  }

  lemma ControlNumbers(w: World, p: Packet)
    requires Reached(w) && p in w.toB && p.event != EventData
    ensures p.seqNum < 0
  {
    hide ReceiverInv, SenderInv;
    ReachedInv(w);
    HonestIn(w.b, w.a, w.toA, w.toB, p);
  }

  lemma CleanRun(ca: Config, cb: Config)
    requires GoodNonces(ca, cb) && !ca.hasDest && !cb.hasDest
    ensures exists v :: Reaches(Start(ca, cb), v) && Clean(v, ca, cb)
  {
    hide Inv, Shake, Start, DialsTo, Untouched, Offers, Arrive, Sender.GateOpen, Runs, After;
    HalfRun(ca, cb);
    var y, q, p :| DialsTo(Start(ca, cb), y) && Half(y, q, p, ca, cb);
    GoodBy(ca, cb, y);
    ConfirmOpens(y, q, p, ca, cb);
    CanDeliverB(y, p, ca.nonce, cb.nonce);
    var l := Do(B, Deliver(p));
    DialsStep(Start(ca, cb), y, l);
    var v := Next(y, l);
    OpenedWindows(ca, cb, v);
    FinallyOpen(v, q, ca, cb);
    GoodFacts(y, ca.nonce, cb.nonce);
    ControlNumbers(y, p);
    InfoLedger(y.b, p, cb);
    EndToEnd.ArriveHistory(y.b, p);
    ArriveHasDest(y.b, p);
    DialsUpToDate(ca, cb, v);
    assert Clean(v, ca, cb);
    DialsReaches(Start(ca, cb), v);
  }

  lemma DialsUpToDate(ca: Config, cb: Config, v: World)
    requires GoodNonces(ca, cb) && DialsTo(Start(ca, cb), v)
    ensures UpToDate(v) && v.b.snd.window == cb.window
  {
    hide Inv, Start, Runs, After, UpToDate;
    var ls :| Runs(Start(ca, cb), ls) && OneDialler(ls) && After(Start(ca, cb), ls) == v;
    StartInv(ca, cb);
    DialsReaches(Start(ca, cb), v);
    ReachedBy(ca, cb, v);
    ReachedUpToDate(v);
    Theorems.StartWindows(ca, cb);
    Theorems.WindowsFixed(Start(ca, cb), ls);
  }

  /** e pushed its first message, and p is its packet. */
  predicate Pushed(e: Endpoint, p: Packet) {
    |e.snd.history| == 1 && e.snd.acked == -1 && p.ackNum == 0 && p.event == EventData
  }

  lemma FullPush(e: Endpoint, c: Config, data: seq<byte>, inbox: set<Packet>, local: string, remote: string)
    requires Sender.Ok(e.snd) && UpEnd(e, local, remote) && e.snd.history == [] && e.snd.total == 0
    requires Sender.GateOpen(e.snd) && e.snd.window >= 1 && |data| == c.windowBytes
    ensures var a := Push(data, None, false);
            && Allowed(e, a, inbox)
            && var s := Act(e, a, inbox);
               && s.Stepped? && UpEnd(s.e, local, remote) && s.e == e.(snd := s.e.snd)
               && exists p :: s.out == {p} && Pushed(s.e, p) && Fills(p, c) && Addressed(p, local, remote)
                              && p.msgCap == e.rcv.flow.msgCap && p.bytesCap == e.rcv.flow.bytesCap
  {
    hide Sender.GateOpen;
  }

  lemma NothingTotal(w: World, na: string, nb: string)
    requires Up(w, na, nb)
    ensures w.a.snd.history == [] ==> w.a.snd.total == 0 && w.a.snd.acked == -1
    ensures w.b.snd.history == [] ==> w.b.snd.total == 0 && w.b.snd.acked == -1
    ensures Sender.Ok(w.a.snd) && Sender.Ok(w.b.snd) && w.a.snd.window >= 1 && w.b.snd.window >= 1
  {
    hide ReceiverInv, Link;
    ReachedInv(w);
    PairFacts(w.a, w.b, w.toB, w.toA);
    PairFacts(w.b, w.a, w.toA, w.toB);
  }

  /** a's message is on its way. */
  ghost predicate Stage1(w: World, p: Packet, ca: Config, cb: Config) {
    && Up(w, ca.nonce, cb.nonce) && BothEstablished(w) && !w.a.hasDest && !w.b.hasDest && w.b.snd.history == []
    && Untouched(w.a.rcv, ca) && Untouched(w.b.rcv, cb) && Pushed(w.a, p)
    && p in w.toB && Fills(p, cb) && Addressed(p, ca.nonce, cb.nonce) && p.msgCap >= 1 && p.bytesCap >= 1
  }

  lemma ToStage1(s: World, w: World, ca: Config, cb: Config, data: seq<byte>)
    requires GoodConfig(ca) && Reaches(s, w) && Clean(w, ca, cb) && |data| == cb.windowBytes
    ensures exists v, p :: Reaches(s, v) && Stage1(v, p, ca, cb)
  {
    hide Inv, Reaches, CanStep, Next, Act, Allowed, Sender.GateOpen, Fills;
    var a := Push(data, None, false);
    NothingTotal(w, ca.nonce, cb.nonce);
    FullPush(w.a, cb, data, w.toA, ca.nonce, cb.nonce);
    StepA(w, a, ca.nonce, cb.nonce);
    var p :| Act(w.a, a, w.toA).out == {p} && Pushed(Act(w.a, a, w.toA).e, p) && Fills(p, cb)
             && Addressed(p, ca.nonce, cb.nonce) && p.msgCap == w.a.rcv.flow.msgCap && p.bytesCap == w.a.rcv.flow.bytesCap;
    ReachesStep(s, w, Do(A, a));
    assert Stage1(Next(w, Do(A, a)), p, ca, cb);
  }

  /** It arrived at b, and b's message is on its way. */
  ghost predicate Stage2(w: World, p: Packet, ca: Config, cb: Config) {
    && Up(w, ca.nonce, cb.nonce) && BothEstablished(w) && !w.a.hasDest && !w.b.hasDest && |w.a.snd.history| == 1
    && Untouched(w.a.rcv, ca) && Full(w.b.rcv, cb) && Pushed(w.b, p)
    && p in w.toA && Fills(p, ca) && Addressed(p, cb.nonce, ca.nonce) && p.bytesCap == 0
  }

  /** a's message arrived at b, which may send. */
  ghost predicate Taken(w: World, ca: Config, cb: Config) {
    && Up(w, ca.nonce, cb.nonce) && BothEstablished(w) && !w.a.hasDest && !w.b.hasDest && |w.a.snd.history| == 1
    && Untouched(w.a.rcv, ca) && Full(w.b.rcv, cb)
    && w.b.snd.history == [] && Sender.Ok(w.b.snd) && Sender.GateOpen(w.b.snd)
  }

  lemma ToTaken(s: World, w: World, p: Packet, ca: Config, cb: Config)
    requires GoodConfig(ca) && GoodConfig(cb) && Reaches(s, w) && Stage1(w, p, ca, cb)
    ensures exists x :: Reaches(s, x) && Taken(x, ca, cb)
  {
    hide Reached, Reaches, CanStep, Next, Act, Allowed, Sender.GateOpen, ArrivalPanics, Arrived, DataReceived, Full, Untouched;
    var na, nb := ca.nonce, cb.nonce;
    NothingTotal(w, na, nb);
    NoPanicB(w, p, na, nb);
    DataArrives(w.b, p, w.toB, nb, na);
    FullReceived(w.b.rcv, p, cb);
    StepB(w, Deliver(p), na, nb);
    var x := Next(w, Do(B, Deliver(p)));
    ReachesStep(s, w, Do(B, Deliver(p)));
    Quietened(w.b.snd, p);
    GotNames(w.b.snd, p);
    assert Taken(x, ca, cb);
  }

  lemma ToStage2(s: World, x: World, ca: Config, cb: Config, data: seq<byte>)
    requires GoodConfig(ca) && Reaches(s, x) && Taken(x, ca, cb) && |data| == ca.windowBytes
    ensures exists v, q :: Reaches(s, v) && Stage2(v, q, ca, cb)
  {
    hide Reached, Reaches, CanStep, Next, Act, Allowed, Sender.GateOpen, Fills, Full, Untouched;
    var na, nb := ca.nonce, cb.nonce;
    NothingTotal(x, na, nb);
    var a := Push(data, None, false);
    FullPush(x.b, ca, data, x.toB, nb, na);
    StepB(x, a, na, nb);
    var q :| Act(x.b, a, x.toB).out == {q} && Pushed(Act(x.b, a, x.toB).e, q) && Fills(q, ca)
             && Addressed(q, nb, na) && q.msgCap == x.b.rcv.flow.msgCap && q.bytesCap == x.b.rcv.flow.bytesCap;
    ReachesStep(s, x, Do(B, a));
    NoRoom(x.b.rcv, cb);
    assert Stage2(Next(x, Do(B, a)), q, ca, cb);
  }

  lemma NoRoom(r: Receiver, c: Config)
    requires Full(r, c)
    ensures r.flow.bytesCap == 0 && |r.ready| == 1 && r.nextExpected == 1
  {
  }

  /** It arrived at a, twice: the gate of a is closed, and so does the answer to b's. */
  ghost predicate Stage3(w: World, q: Packet, ca: Config, cb: Config) {
    && Up(w, ca.nonce, cb.nonce) && BothEstablished(w) && !w.a.hasDest && !w.b.hasDest && Shut(w.a.snd)
    && |w.b.snd.history| == 1 && w.b.snd.acked == -1 && Full(w.a.rcv, ca) && Full(w.b.rcv, cb)
    && q in w.toB && q.event == EventDataAck && Addressed(q, ca.nonce, cb.nonce) && q.ackNum == 0 && q.bytesCap == 0
  }

  lemma ShutByAck(s: Sender.Sender, p: Packet)
    requires Sender.Ok(s) && |s.history| == 1 && p.ackNum == 0 && p.bytesCap == 0
    ensures Shut(Sender.GotPacket(s, p)) && Sender.GotPacket(s, p).history == s.history
  {
    hide Sender.CreditAll;
    var t := Sender.GotPacket(s, p);
    assert Stream(t.history[t.acked + 1..]) == [];
  }

  lemma ToStage3(s: World, w: World, p: Packet, ca: Config, cb: Config)
    requires GoodConfig(ca) && GoodConfig(cb) && Reaches(s, w) && Stage2(w, p, ca, cb)
    ensures exists v, q :: Reaches(s, v) && Stage3(v, q, ca, cb)
  {
    hide Inv, Reaches, CanStep, Next, Act, Allowed, ArrivalPanics, Arrived, DataReceived, Discarded, Acked, Full, Untouched, Shut;
    var na, nb := ca.nonce, cb.nonce;
    var l := Do(A, Deliver(p));
    NothingTotal(w, na, nb);
    NoPanicA(w, p, na, nb);
    DataArrives(w.a, p, w.toA, na, nb);
    FullReceived(w.a.rcv, p, ca);
    ShutByAck(w.a.snd, p);
    StepA(w, Deliver(p), na, nb);
    var x := Next(w, l);
    ReachesStep(s, w, l);
    NothingTotal(x, na, nb);
    NoPanicA(x, p, na, nb);
    DataArrives(x.a, p, x.toA, na, nb);
    FilledOffers(x.a.rcv, p, ca);
    ShutByAck(x.a.snd, p);
    StepA(x, Deliver(p), na, nb);
    ReachesStep(s, x, l);
    hide Sender.GotPacket;
    DataNames(x.a.rcv, p);
    AckedNames(Arrived(x.a.rcv, p), EventDataAck);
    var q := Acked(Arrived(x.a.rcv, p), EventDataAck).1;
    OnlyOne([q]);
    assert q in [q];
    assert Stage3(Next(x, l), q, ca, cb);
  }

  /** Both gates are closed and both ends have consumed everything. */
  ghost predicate Stage4(w: World, ca: Config, cb: Config) {
    && Up(w, ca.nonce, cb.nonce) && BothEstablished(w) && !w.a.hasDest && !w.b.hasDest && Shut(w.a.snd) && Shut(w.b.snd)
    && w.a.rcv.ready == [] && w.b.rcv.ready == [] && w.b.rcv.nextExpected >= 1
  }

  lemma ToStage4(s: World, w: World, q: Packet, ca: Config, cb: Config)
    requires GoodConfig(ca) && GoodConfig(cb) && Reaches(s, w) && Stage3(w, q, ca, cb)
    ensures exists v :: Reaches(s, v) && Stage4(v, ca, cb)
  {
    hide Inv, Reaches, CanStep, Next, Act, Allowed, ArrivalPanics, Arrived, Acked, Full, Shut, Delivered;
    var na, nb := ca.nonce, cb.nonce;
    NothingTotal(w, na, nb);
    NoPanicB(w, q, na, nb);
    InfoArrives(w.b, q, w.toB, nb, na);
    ShutByAck(w.b.snd, q);
    NegativeAck(w, q, na, nb);
    FilledOffers(w.b.rcv, q, cb);
    StepB(w, Deliver(q), na, nb);
    var x := Next(w, Do(B, Deliver(q)));
    ReachesStep(s, w, Do(B, Deliver(q)));
    hide Sender.GotPacket;
    NoRoom(x.b.rcv, cb);
    NothingTotal(x, na, nb);
    ConsumeActs(x.b, x.toB, nb, na);
    DeliversAll(x.b.rcv);
    StepB(x, Consume, na, nb);
    var y := Next(x, Do(B, Consume));
    ReachesStep(s, x, Do(B, Consume));
    NoRoom(y.a.rcv, ca);
    NothingTotal(y, na, nb);
    ConsumeActs(y.a, y.toA, na, nb);
    DeliversAll(y.a.rcv);
    StepA(y, Consume, na, nb);
    ReachesStep(s, y, Do(A, Consume));
    assert Stage4(Next(y, Do(A, Consume)), ca, cb);
  }

  lemma NegativeAck(w: World, q: Packet, na: string, nb: string)
    requires Up(w, na, nb) && q in w.toB && q.event != EventData
    ensures q.seqNum <= 0
  {
    ControlNumbers(w, q);
    hide Inv;
  }

  lemma DeliversAll(r: Receiver)
    requires r.ready != []
    ensures Delivered(r).0.ready == [] && Delivered(r).0.nextExpected == r.nextExpected
  {
  }

  // ----- and then the network loses everything -----

  lemma {:induction false} LoseAll(s: World, w: World, ca: Config, cb: Config)
    requires Reaches(s, w) && Stage4(w, ca, cb)
    ensures exists v :: Reaches(s, v) && Stage4(v, ca, cb) && v.toA == {} && v.toB == {}
    decreases |w.toA| + |w.toB|
  {
    hide Inv, Reaches, Shut;
    if w.toA != {} {
      var p :| p in w.toA;
      LoseOne(s, w, Lose(A, p), ca, cb);
      LoseAll(s, Next(w, Lose(A, p)), ca, cb);
    } else if w.toB != {} {
      var p :| p in w.toB;
      LoseOne(s, w, Lose(B, p), ca, cb);
      LoseAll(s, Next(w, Lose(B, p)), ca, cb);
    }
  }

  lemma LoseOne(s: World, w: World, l: Label, ca: Config, cb: Config)
    requires Reaches(s, w) && Stage4(w, ca, cb) && l.Lose?
    ensures Reaches(s, Next(w, l)) && Stage4(Next(w, l), ca, cb)
  {
    hide Inv, Reaches, Shut;
    ReachedStep(w, l);
    ReachesStep(s, w, l);
  }

  /** Any two sessions without a DestInbox can get into a state from which neither will
      ever send again, although both are Established and nothing is lost for good. */
  lemma StalemateHappens(ca: Config, cb: Config)
    requires GoodNonces(ca, cb) && !ca.hasDest && !cb.hasDest
    ensures exists v ::
              && Reaches(Start(ca, cb), v) && Up(v, ca.nonce, cb.nonce) && BothEstablished(v) && Dead(v)
              && FirstFrameSafe(v) && !Drains(v) && !Drains(Flip(v))
  {
    hide Start, Reaches, Clean, Stage1, Taken, Stage2, Stage3, Stage4, Up, Dead, BothEstablished, Drains, FirstFrameSafe;
    var s := Start(ca, cb);
    CleanRun(ca, cb);
    var w0 :| Reaches(s, w0) && Clean(w0, ca, cb);
    ToStage1(s, w0, ca, cb, seq(cb.windowBytes, _ => 0));
    var w1, p :| Reaches(s, w1) && Stage1(w1, p, ca, cb);
    ToTaken(s, w1, p, ca, cb);
    var x :| Reaches(s, x) && Taken(x, ca, cb);
    ToStage2(s, x, ca, cb, seq(ca.windowBytes, _ => 0));
    var w2, q :| Reaches(s, w2) && Stage2(w2, q, ca, cb);
    ToStage3(s, w2, q, ca, cb);
    var w3, r :| Reaches(s, w3) && Stage3(w3, r, ca, cb);
    ToStage4(s, w3, r, ca, cb);
    var w4 :| Reaches(s, w4) && Stage4(w4, ca, cb);
    LoseAll(s, w4, ca, cb);
    var v :| Reaches(s, v) && Stage4(v, ca, cb) && v.toA == {} && v.toB == {};
    StageDead(v, ca, cb);
  }

  lemma StageDead(v: World, ca: Config, cb: Config)
    requires Stage4(v, ca, cb) && v.toA == {} && v.toB == {}
    ensures Up(v, ca.nonce, cb.nonce) && BothEstablished(v) && Dead(v) && !Drains(v) && !Drains(Flip(v))
    ensures FirstFrameSafe(v)
  {
    hide Inv, Shut, Quiet, Runs, After, Over;
    var na, nb := ca.nonce, cb.nonce;
    StageOver(v, ca, cb);
    OverFlips(v, na, nb);
    forall ls | Runs(v, ls) ensures !Quiet(After(v, ls)) { OverForever(v, ls, na, nb); }
    forall ls | Runs(Flip(v), ls) ensures !Quiet(After(Flip(v), ls)) { OverForever(Flip(v), ls, nb, na); }
  }

  lemma StageOver(v: World, ca: Config, cb: Config)
    requires Stage4(v, ca, cb) && v.toA == {} && v.toB == {}
    ensures Over(v, ca.nonce, cb.nonce) && Dead(v)
  {
    hide Inv, Shut;
  }
}
