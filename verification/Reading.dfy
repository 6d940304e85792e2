/** Consumption through Read: which reads are acknowledged and with which number, that a
    reader with any buffer gets everything, and that its acknowledgements drain the link. */
module Reading {
  import opened Integers
  import opened Tcp
  import opened Packets
  import opened Receiver
  import opened Links
  import opened Ledgers
  import opened Protocol
  import opened Safety
  import opened Handshake
  import opened Liveness
  import Sender
  import Conn

  // ----- one read, one delivery -----

  /** The read of room bytes completes its first packet. */
  predicate FirstFits(ready: seq<Packet>, room: nat) {
    ready != [] && room > 0 && |Rest(ready[0])| <= room
  }

  lemma FirstThrough(ready: seq<Packet>, room: nat)
    ensures ready != [] ==> (FirstFits(ready, room) <==> FitThrough(ready, room, 1))
    ensures FirstFits(ready, room) <==> Filled(ready, room).completed > 0
  {
    if ready != [] {
      UnreadFirst(ready[..1]);
      assert ready[..1][1..] == [] && ready[..0] == [];
      ReadsThrough(ready, room, 1);
    }
    hide Filled;
  }

  /** q acknowledges what r' has consumed, c more messages than r, and nothing else is sent. */
  ghost predicate Acknowledges(q: Packet, r: Receiver, r': Receiver, c: int) {
    && q.event == EventDataAck && q.ackNum == r'.lastMsg == r.lastMsg + c
    && q.fromNonce == r.local && q.destNonce == r.remote
  }

  lemma ReadCompletes(r: Receiver, history: seq<Frame>, app: seq<byte>, room: nat)
    requires ReceiverInv(r, history, app) && WellNumbered(history)
    ensures var (r', bytes, acks) := ReadInto(r, room);
            var c := Filled(r.ready, room).completed;
            && (acks == [] <==> !FirstFits(r.ready, room)) && |acks| <= 1
            && r'.lastMsg == r.lastMsg + c && |r'.ready| == |r.ready| - c && r'.nextExpected == r.nextExpected
            && (acks != [] ==> Acknowledges(acks[0], r, r', c))
  {
    hide ReceiverInv, WellNumbered, Filled, Progressed, Control, FirstFits, Numbers;
    var f := Filled(r.ready, room);
    FirstThrough(r.ready, room);
    ProgressedTo(r, history, app, f);
    LastAtLeast(r, history, app);
    ControlReads(Progressed(r, f));
  }

  lemma LastAtLeast(r: Receiver, history: seq<Frame>, app: seq<byte>)
    requires ReceiverInv(r, history, app)
    ensures r.lastMsg >= -1 && r.consumed == Max(r.lastMsg, 0)
  {
  }

  lemma ControlReads(r: Receiver)
    ensures var c := Control(r);
            && c.lastMsg == r.lastMsg && c.consumed == r.consumed && c.ready == r.ready && c.nextExpected == r.nextExpected
            && SameNames(r, c)
  {
  }

  /** In every run: a read is acknowledged exactly if the rest of the first ready packet
      fits into the buffer. Exactly the packets that fit are consumed, each byte of them is
      handed out, and the one acknowledgement names the last of them. */
  lemma ReadAcknowledged(w: World, room: nat)
    requires Reached(w) && CanActA(w, Read(room))
    ensures var r, s := w.a.rcv, Act(w.a, Read(room), w.toA);
            && (s.out == {} <==> !FirstFits(r.ready, room))
            && (s.out != {} ==> exists q :: s.out == {q} && Acknowledges(q, r, s.e.rcv, s.e.rcv.lastMsg - r.lastMsg))
            && (forall c :: 0 <= c <= |r.ready| ==> (r.lastMsg + c <= s.e.rcv.lastMsg <==> FitThrough(r.ready, room, c)))
            && s.e.app + Unread(s.e.rcv.ready) == w.a.app + Unread(r.ready)
            && |s.e.app| == |w.a.app| + Min(room, |Unread(r.ready)|)
  {
    hide Link, FirstFits, FitThrough, Filled, Unread, Acknowledges, LearnedAll;
    ReachedInv(w);
    PairFacts(w.a, w.b, w.toB, w.toA);
    var r := w.a.rcv;
    ReadCompletes(r, w.b.snd.history, w.a.app, room);
    ReadHandsOut(r, w.a.app, room);
    forall c | 0 <= c <= |r.ready|
      ensures c <= Filled(r.ready, room).completed <==> FitThrough(r.ready, room, c)
    {
      ReadsThrough(r.ready, room, c);
    }
    OneOrNone(ReadInto(r, room).2);
    hide ReadInto, ReceiverInv, WellNumbered, SenderInv, SetOf;
  }

  lemma OneOrNone(acks: seq<Packet>)
    requires |acks| <= 1
    ensures SetOf(acks) == if acks == [] then {} else {acks[0]}
  {
    if acks != [] { assert acks[0] in acks; }
  }

  lemma ReadHandsOut(r: Receiver, app: seq<byte>, room: nat)
    ensures var (r', bytes, acks) := ReadInto(r, room);
            && (app + bytes) + Unread(r'.ready) == app + Unread(r.ready) && |bytes| == Min(room, |Unread(r.ready)|)
  {
    var f := Filled(r.ready, room);
    FillTakesNextBytes(r.ready, room);
    Reassociate(app, f.bytes, Unread(Leftover(r.ready, f)));
    ControlReads(Progressed(r, f));
    hide Control, Filled, Unread;
  }

  /** Delivery over ReadMessagesCh consumes everything, and acknowledges the last of it. */
  lemma ConsumeAcknowledged(w: World)
    requires Reached(w) && CanActA(w, Consume)
    ensures var r, s := w.a.rcv, Act(w.a, Consume, w.toA);
            && s.e.rcv.ready == [] && s.e.app == w.a.app + Unread(r.ready) && s.e.rcv.lastMsg == r.nextExpected - 1
            && exists q :: s.out == {q} && Acknowledges(q, r, s.e.rcv, |r.ready|)
  {
    hide Link, Unread, LearnedAll, Numbers;
    ReachedInv(w);
    PairFacts(w.a, w.b, w.toB, w.toA);
    var r := w.a.rcv;
    LastNumber(r, w.b.snd.history, w.a.app);
    ReadyCount(r, w.b.snd.history, w.a.app);
    OneOrNone([Delivered(r).1]);
    hide ReceiverInv, WellNumbered, SenderInv;
  }

  lemma ReadyCount(r: Receiver, history: seq<Frame>, app: seq<byte>)
    requires ReceiverInv(r, history, app)
    ensures |r.ready| == r.nextExpected - 1 - r.lastMsg
  {
  }

  // ----- a reader with any buffer -----

  /** n reads of room bytes at end a. */
  function Reads(room: nat, n: nat): (ls: seq<Label>)
    ensures |ls| == n
  {
    seq(n, i => Do(A, Read(room)))
  }

  /** A read with room gets on: it completes a packet or hands out bytes. */
  lemma ReadAdvances(w: World, room: nat)
    requires Reached(w) && Conn.Live(w.a.conn) && room >= 1 && w.a.rcv.ready != []
    ensures var l := Do(A, Read(room));
            && CanStep(w, l)
            && var v := Next(w, l);
               && Reached(v) && Conn.Live(v.a.conn) && v.b == w.b
               && v.a.app + Unread(v.a.rcv.ready) == w.a.app + Unread(w.a.rcv.ready)
               && |v.a.rcv.ready| + |Unread(v.a.rcv.ready)| < |w.a.rcv.ready| + |Unread(w.a.rcv.ready)|
  {
    hide Reached, Link, Unread, LearnedAll, ReadInto, ReceiverInv, WellNumbered, SenderInv, Filled, FirstFits;
    ReachedInv(w);
    PairFacts(w.a, w.b, w.toB, w.toA);
    var l := Do(A, Read(room));
    ReadCompletes(w.a.rcv, w.b.snd.history, w.a.app, room);
    ReadHandsOut(w.a.rcv, w.a.app, room);
    SomethingRead(w.a.rcv.ready, room);
    ReachedStep(w, l);
  }

  lemma SomethingRead(ready: seq<Packet>, room: nat)
    requires ready != [] && room >= 1
    ensures Filled(ready, room).completed > 0 || |Unread(ready)| > 0
  {
    if |Rest(ready[0])| == 0 {
      FirstThrough(ready, room);
    } else {
      UnreadFirst(ready);
    }
  }

  /** However small the buffer, enough reads hand out everything that was ready, in
      order, and nothing else. */
  lemma {:induction false} ReadsAll(w: World, room: nat)
    requires Reached(w) && Conn.Live(w.a.conn) && room >= 1
    ensures exists n: nat :: Runs(w, Reads(room, n)) && ReadOut(w, After(w, Reads(room, n)))
    decreases |w.a.rcv.ready| + |Unread(w.a.rcv.ready)|
  {
    hide Reached, CanStep, Next, Unread;
    if w.a.rcv.ready == [] {
      NothingOut(w);
      assert Runs(w, Reads(room, 0)) && ReadOut(w, After(w, Reads(room, 0)));
    } else {
      ReadAdvances(w, room);
      var v := Next(w, Do(A, Read(room)));
      ReadsAll(v, room);
      var n: nat :| Runs(v, Reads(room, n)) && ReadOut(v, After(v, Reads(room, n)));
      var all := Reads(room, n + 1);
      assert all[0] == Do(A, Read(room)) && all[1..] == Reads(room, n);
      assert Runs(w, all) && After(w, all) == After(v, Reads(room, n));
      assert ReadOut(w, After(w, all));
    }
  }

  /** Nothing is ready any more, and the application got exactly what was. */
  ghost predicate ReadOut(w: World, v: World) {
    v.a.rcv.ready == [] && v.a.app == w.a.app + Unread(w.a.rcv.ready) && v.b == w.b
  }

  lemma NothingOut(w: World)
    requires w.a.rcv.ready == []
    ensures ReadOut(w, w)
  {
    assert Unread([]) == [];
  }

  // ----- draining through reads -----

  /** A read with more room than there are bytes takes everything ready. */
  lemma ReadTakesAll(r: Receiver, history: seq<Frame>, app: seq<byte>, room: nat)
    requires ReceiverInv(r, history, app) && WellNumbered(history) && r.ready != [] && r.nextExpected == |history|
    requires room > |Unread(r.ready)|
    ensures var (r', bytes, acks) := ReadInto(r, room);
            && |acks| == 1 && Acknowledges(acks[0], r, r', |r.ready|) && r'.lastMsg == |history| - 1
            && acks[0].msgCap >= 1 && acks[0].bytesCap >= 1
  {
    hide ReceiverInv, CoreInv, WellNumbered, Filled, Progressed, Unread, Control;
    var f := Filled(r.ready, room);
    ThroughAll(r.ready, room);
    ReadCompletes(r, history, app, room);
    ReadyCount(r, history, app);
    ProgressedKeeps(r, history, app, room);
    var r1 := Progressed(r, f);
    ControlReads(r1);
    NoneAhead(r1, history, app + f.bytes);
    OffersAll(r1, history, app + f.bytes);
  }

  lemma ThroughAll(ready: seq<Packet>, room: nat)
    requires room > |Unread(ready)| && ready != []
    ensures Filled(ready, room).completed == |ready| && FirstFits(ready, room)
  {
    var n := |ready|;
    assert ready[..n] == ready && ready == ready[..n - 1] + ready[n - 1..];
    UnreadConcat(ready[..n - 1], ready[n - 1..]);
    hide Unread;
    ReadsThrough(ready, room, n);
    FirstThrough(ready, room);
  }

  lemma ReadActs(e: Endpoint, room: nat, inbox: set<Packet>, local: string, remote: string)
    requires Sender.Ok(e.snd) && UpEnd(e, local, remote) && |ReadInto(e.rcv, room).2| == 1
    ensures Allowed(e, Read(room), inbox)
    ensures var s := Act(e, Read(room), inbox);
            var (r, bytes, acks) := ReadInto(e.rcv, room);
            && s.Stepped? && UpEnd(s.e, local, remote) && s.e.hasDest == e.hasDest && s.e.snd == e.snd
            && s.e.conn == e.conn && s.e.rcv == r && s.out == {acks[0]} && Addressed(acks[0], local, remote)
  {
    OrdinaryActs(e, Read(room), inbox);
    ReadNames(e.rcv, room);
    var (r, bytes, acks) := ReadInto(e.rcv, room);
    assert acks[0] in acks;
    LearnsNothing(e.snd, acks);
    OneOrNone(acks);
    hide ReadInto, SetOf;
  }

  /** When all frames are across, one such read and its acknowledgement drain the link. */
  lemma ReadDrains(w: World, room: nat, na: string, nb: string)
    requires Up(w, na, nb) && w.b.rcv.nextExpected == |w.a.snd.history| && w.b.rcv.ready != []
    requires room > |Unread(w.b.rcv.ready)|
    ensures exists q :: ReadsOut(w, room, q)
  {
    hide Link, Reaches, CanStep, Next, Act, Allowed, ReadInto, ReceiverInv, SenderInv, WellNumbered, Unread, ArrivalPanics;
    ReachedInv(w);
    PairFacts(w.a, w.b, w.toB, w.toA);
    PairFacts(w.b, w.a, w.toA, w.toB);
    ReadTakesAll(w.b.rcv, w.a.snd.history, w.b.app, room);
    ReadActs(w.b, room, w.toB, nb, na);
    StepB(w, Read(room), na, nb);
    var v, q := Next(w, Do(B, Read(room))), ReadInto(w.b.rcv, room).2[0];
    QuietAfter(v, q, na, nb);
    ReadsOutBy(w, room, q);
  }

  /** A read of b and the delivery of its acknowledgement q make the link quiet. */
  ghost predicate ReadsOut(w: World, room: nat, q: Packet) {
    var l, k := Do(B, Read(room)), Do(A, Deliver(q));
    CanStep(w, l) && CanStep(Next(w, l), k) && Quiet(Next(Next(w, l), k))
  }

  lemma ReadsOutBy(w: World, room: nat, q: Packet)
    requires CanStep(w, Do(B, Read(room)))
    requires var v := Next(w, Do(B, Read(room))); CanStep(v, Do(A, Deliver(q))) && Quiet(Next(v, Do(A, Deliver(q))))
    ensures ReadsOut(w, room, q)
  {
  }

  lemma QuietAfter(v: World, q: Packet, na: string, nb: string)
    requires Up(v, na, nb) && v.b.rcv.lastMsg == |v.a.snd.history| - 1 && q in v.toA && TellsAll(v.a, q)
    ensures CanStep(v, Do(A, Deliver(q))) && Quiet(Next(v, Do(A, Deliver(q))))
  {
    hide Reached, CanStep, Next, Act, Allowed, ArrivalPanics, Arrived, Acked;
    UpFacts(v, na, nb);
    NoPanicA(v, q, na, nb);
    InfoArrives(v.a, q, v.toA, na, nb);
    StepA(v, Deliver(q), na, nb);
    Quietened(v.a.snd, q);
    hide Sender.GotPacket;
  }

  /** Whatever is left to be consumed can be brought across and consumed by reading. */
  lemma BusyReads(w: World, na: string, nb: string)
    requires Up(w, na, nb) && FirstFrameSafe(w) && w.b.rcv.lastMsg < |w.a.snd.history| - 1
    ensures exists u, room, q :: Reaches(w, u) && u.b.rcv.lastMsg == w.b.rcv.lastMsg && ReadsOut(u, room, q)
  {
    hide Reached, Reaches, FirstFrameSafe, ReadsOut;
    AdvanceAll(w, na, nb);
    var u :| Reaches(w, u) && AllAcross(w, u, na, nb);
    UpFacts(u, na, nb);
    var room := |Unread(u.b.rcv.ready)| + 1;
    ReadDrains(u, room, na, nb);
    var q :| ReadsOut(u, room, q);
  }
}
