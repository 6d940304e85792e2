/** The receive loop of recv.go as it runs: a ring of RecvWindowSize slots and
    ledgers updated in place. Every method refines the function of the same
    name in module Receiver. */
module RecvLoop {
  import opened Tcp
  import opened Packets
  import opened FlowControl
  import opened Receiver
  import opened Slots

  datatype RxqSlot = Vacant | Received(pack: Packet)

  /** The packets of the ring, by sequence number, for the window that starts at lo. */
  ghost function Ring(slots: seq<RxqSlot>, lo: nat): map<int, Packet>
    requires slots != []
  {
    map n | lo <= n < lo + |slots| && slots[Slot(n, |slots|)].Received? :: slots[Slot(n, |slots|)].pack
  }

  /** Slot i holds only a packet of the current window whose number is i modulo the size. */
  ghost predicate RingOk(slots: seq<RxqSlot>, lo: nat) {
    && slots != []
    && forall i :: 0 <= i < |slots| && slots[i].Received? ==>
         lo <= slots[i].pack.seqNum < lo + |slots| && Slot(slots[i].pack.seqNum, |slots|) == i
  }

  lemma OthersApart(lo: nat, k: nat, w: nat)
    requires lo <= k < lo + w
    ensures forall n :: lo <= n < lo + w && n != k ==> Slot(n, w) != Slot(k, w)
  {
    forall n | lo <= n < lo + w && n != k
      ensures Slot(n, w) != Slot(k, w)
    {
      if n < k { SlotDistinct(n, k, w); } else { SlotDistinct(k, n, w); }
    }
  }

  /** Storing a packet of the window in its slot adds it to the map. */
  lemma RingStore(slots: seq<RxqSlot>, lo: nat, p: Packet)
    requires RingOk(slots, lo) && lo <= p.seqNum < lo + |slots|
    ensures var s := slots[Slot(p.seqNum, |slots|) := Received(p)];
            RingOk(s, lo) && Ring(s, lo) == Ring(slots, lo)[p.seqNum := p]
  {
    OthersApart(lo, p.seqNum, |slots|);
  }

  /** Vacating the slot of the lowest number moves the window up by one. */
  lemma RingTakeOk(slots: seq<RxqSlot>, lo: nat)
    requires RingOk(slots, lo)
    ensures RingOk(slots[Slot(lo, |slots|) := Vacant], lo + 1)
  {
    var s := slots[Slot(lo, |slots|) := Vacant];
    forall i | 0 <= i < |s| && s[i].Received?
      ensures lo + 1 <= s[i].pack.seqNum < lo + 1 + |s| && Slot(s[i].pack.seqNum, |s|) == i
    {
      assert s[i] == slots[i];
    }
  }

  lemma RingTake(slots: seq<RxqSlot>, lo: nat)
    requires RingOk(slots, lo)
    ensures var s := slots[Slot(lo, |slots|) := Vacant];
            RingOk(s, lo + 1) && Ring(s, lo + 1) == Ring(slots, lo) - {lo}
  {
    RingTakeOk(slots, lo);
    var w := |slots|;
    var s := slots[Slot(lo, w) := Vacant];
    SlotAgain(lo, w);
    forall n | lo < n < lo + w
      ensures s[Slot(n, w)] == slots[Slot(n, w)]
    {
      SlotDistinct(lo, n, w);
    }
    var a, b := Ring(s, lo + 1), Ring(slots, lo) - {lo};
    assert forall n :: n in a <==> n in b;
    assert forall n :: n in a ==> a[n] == b[n];
  }

  /** The part of the receiver that the drain changes. */
  datatype DrainState = DrainState(slots: seq<RxqSlot>, next: int, ready: seq<Packet>, history: seq<Packet>)

  ghost predicate DrainOk(d: DrainState) {
    d.next >= 0 && RingOk(d.slots, d.next)
  }

  datatype DrainResult = DrainResult(next: int, ready: seq<Packet>, history: seq<Packet>, waiting: map<int, Packet>)

  ghost function ResultFrom(waiting: map<int, Packet>, next: int, ready: seq<Packet>, history: seq<Packet>): DrainResult {
    var run := Run(waiting, next);
    DrainResult(next + |run|, ready + run, history + run, AfterRun(waiting, next))
  }

  /** Where the drain from d ends, computed on the map instead of the ring. */
  ghost function Result(d: DrainState): DrainResult
    requires DrainOk(d)
  {
    ResultFrom(Ring(d.slots, d.next), d.next, d.ready, d.history)
  }

  ghost function Left(d: DrainState): nat {
    if d.next >= 0 && d.slots != [] then |Ring(d.slots, d.next)| else 0
  }

  /** The state after one turn of the drain loop. */
  ghost function Turned(d: DrainState): DrainState
    requires d.next >= 0 && d.slots != [] && d.slots[Slot(d.next, |d.slots|)].Received?
  {
    var i := Slot(d.next, |d.slots|);
    var p := d.slots[i].pack;
    DrainState(d.slots[i := Vacant], d.next + 1, d.ready + [p], d.history + [p])
  }

  lemma ResultStep(m: map<int, Packet>, n: int, ready: seq<Packet>, history: seq<Packet>)
    requires n in m
    ensures ResultFrom(m, n, ready, history) == ResultFrom(m - {n}, n + 1, ready + [m[n]], history + [m[n]])
    ensures |m - {n}| < |m|
  {
    var run, rest := Run(m, n), Run(m - {n}, n + 1);
    assert run == [m[n]] + rest;
    assert ready + run == (ready + [m[n]]) + rest;
    assert history + run == (history + [m[n]]) + rest;
    assert |m - {n}| == |m| - 1;
  }

  lemma RingLowest(slots: seq<RxqSlot>, lo: int)
    requires lo >= 0 && RingOk(slots, lo) && slots[Slot(lo, |slots|)].Received?
    ensures lo in Ring(slots, lo) && Ring(slots, lo)[lo] == slots[Slot(lo, |slots|)].pack
  {
  }

  /** One turn of the drain loop does not change where the drain ends. */
  lemma DrainStep(d: DrainState)
    requires DrainOk(d) && d.slots[Slot(d.next, |d.slots|)].Received?
    ensures DrainOk(Turned(d)) && Result(Turned(d)) == Result(d)
    ensures Left(Turned(d)) < Left(d)
  {
    hide Ring, RingOk, ResultFrom;
    RingTake(d.slots, d.next);
    RingLowest(d.slots, d.next);
    ResultStep(Ring(d.slots, d.next), d.next, d.ready, d.history);
  }

  lemma DrainEnd(d: DrainState)
    requires DrainOk(d) && d.slots[Slot(d.next, |d.slots|)].Vacant?
    ensures Result(d) == DrainResult(d.next, d.ready, d.history, Ring(d.slots, d.next))
  {
    var m := Ring(d.slots, d.next);
    assert d.next !in m;
    assert Run(m, d.next) == [];
  }

  /** What remains to be read after g, added to g. */
  ghost function Joined(g: Fill, f: Fill): Fill {
    Fill(g.completed + f.completed, g.bytes + f.bytes, f.partial)
  }

  /** g is a stage of the read of room bytes from ready. */
  ghost predicate Continues(ready: seq<Packet>, g: Fill, room: nat) {
    && g.completed <= |ready| && |g.bytes| <= room
    && Filled(ready, room) ==
       if g.partial > 0 then g else Joined(g, Filled(ready[g.completed..], room - |g.bytes|))
  }

  lemma LeftoverNone(ready: seq<Packet>, g: Fill)
    requires g.completed <= |ready| && g.partial == 0
    ensures Leftover(ready, g) == ready[g.completed..]
  {
  }

  /** g after the next packet, with rest left to read, was given room bytes. */
  ghost function Consumed(g: Fill, rest: seq<byte>, room: nat): Fill {
    if |rest| <= room then Fill(g.completed + 1, g.bytes + rest, 0)
    else Fill(g.completed, g.bytes + rest[..room], room)
  }

  lemma JoinedConsumed(tail: seq<Packet>, g: Fill, left: nat)
    requires tail != [] && left > 0 && g.partial == 0 && |Rest(tail[0])| <= left
    ensures var rest := Rest(tail[0]);
            Joined(g, Filled(tail, left)) == Joined(Consumed(g, rest, left), Filled(tail[1..], left - |rest|))
  {
    var rest, f := Rest(tail[0]), Filled(tail[1..], left - |Rest(tail[0])|);
    assert Filled(tail, left) == Fill(f.completed + 1, rest + f.bytes, f.partial);
    assert g.bytes + (rest + f.bytes) == (g.bytes + rest) + f.bytes;
  }

  lemma FillStart(r: Receiver, g: Fill, room: nat)
    requires g == Fill(0, [], 0)
    ensures Progressed(r, g) == r
    ensures Continues(r.ready, g, room)
  {
    LeftoverNone(r.ready, g);
    assert r.ready[0..] == r.ready;
  }

  lemma FillTurn(ready: seq<Packet>, g: Fill, room: nat)
    requires Continues(ready, g, room) && g.partial == 0 && g.completed < |ready| && |g.bytes| < room
    ensures Continues(ready, Consumed(g, Rest(ready[g.completed]), room - |g.bytes|), room)
  {
    var tail, left := ready[g.completed..], room - |g.bytes|;
    var rest := Rest(tail[0]);
    if |rest| <= left {
      JoinedConsumed(tail, g, left);
      assert tail[1..] == ready[g.completed + 1..];
      hide Filled;
    } else {
      assert Filled(tail, left) == Fill(0, rest[..left], left);
    }
  }

  lemma FillEnd(ready: seq<Packet>, g: Fill, room: nat)
    requires Continues(ready, g, room) && (g.completed == |ready| || |g.bytes| == room)
    ensures Filled(ready, room) == g
  {
  }

  /** Go's copy: as much of src as fits into dst from position at on. */
  method CopyBytes(dst: array<byte>, at: nat, src: seq<byte>) returns (m: nat)
    requires at <= dst.Length
    modifies dst
    ensures m == if |src| <= dst.Length - at then |src| else dst.Length - at
    ensures dst[..at + m] == old(dst[..at]) + src[..m]
  {
    m := 0;
    while m < |src| && at + m < dst.Length
      invariant m <= |src| && at + m <= dst.Length
      invariant dst[..at + m] == old(dst[..at]) + src[..m]
    {
      dst[at + m] := src[m];
      m := m + 1;
    }
  }

  lemma NumbersStep(ps: seq<Packet>, i: nat)
    requires i < |ps|
    ensures Numbers(ps[..i + 1]) == Numbers(ps[..i]) + {ps[i].seqNum}
    ensures Numbers(ps[..0]) == {}
  {
    assert forall n :: n in Numbers(ps[..i]) + {ps[i].seqNum} ==> n in Numbers(ps[..i + 1]) by {
      assert ps[..i + 1][i] == ps[i];
      assert forall j :: 0 <= j < i ==> ps[..i + 1][j] == ps[..i][j];
    }
  }

  class RecvState {
    const RecvWindowSize: int
    const RecvWindowSizeBytes: int
    const LocalSessNonce: string
    const Rxq: array<RxqSlot>
    const FlowCt: FlowCtrl
    var RemoteSessNonce: string
    var NextFrameExpected: int
    var LastFrameClientConsumed: int
    var LastMsgConsumed: int
    var LargestSeqnoRcvd: int
    var MaxCumulBytesTrans: int
    var LastByteConsumed: int
    var LastAvailReaderMsgCap: int
    var LastAvailReaderBytesCap: int
    var RcvdButNotConsumed: map<int, Packet>
    var ReadyForDelivery: seq<Packet>
    var RecvHistory: seq<Packet>
    var DiscardCount: int
    var recvLastFrameClientConsumed: int  // lives in the sender, written only here

    /** Between steps the ring holds only the current window, and not the frame
        expected next. */
    ghost predicate Valid()
      reads this, Rxq
    {
      && RecvWindowSize >= 1
      && Rxq.Length == RecvWindowSize
      && NextFrameExpected >= 0
      && RingOk(Rxq[..], NextFrameExpected)
      && Rxq[Slot(NextFrameExpected, RecvWindowSize)].Vacant?
    }

    ghost function View(): Receiver
      requires Rxq.Length > 0 && NextFrameExpected >= 0
      reads this, Rxq, FlowCt
    {
      Receiver(LocalSessNonce, RemoteSessNonce, RecvWindowSize, RecvWindowSizeBytes, NextFrameExpected,
               LastFrameClientConsumed, LastMsgConsumed, LargestSeqnoRcvd, MaxCumulBytesTrans, LastByteConsumed,
               LastAvailReaderMsgCap, LastAvailReaderBytesCap, FlowCt.View(), recvLastFrameClientConsumed,
               Ring(Rxq[..], NextFrameExpected), RcvdButNotConsumed, ReadyForDelivery, RecvHistory, DiscardCount)
    }

    /** NewRecvState: note that LastFrameClientConsumed starts at 0. */
    constructor (recvSz: int, recvSzBytes: int, nonce: string, flowCt: FlowCtrl)
      requires recvSz >= 1 && flowCt.View() == Flow(0, 0)
      ensures Valid() && View() == Init(nonce, recvSz, recvSzBytes)
      ensures fresh(Rxq) && FlowCt == flowCt
    {
      RecvWindowSize, RecvWindowSizeBytes, LocalSessNonce, RemoteSessNonce := recvSz, recvSzBytes, nonce, "";
      FlowCt := flowCt;
      Rxq := new RxqSlot[recvSz](_ => Vacant);
      NextFrameExpected, LastFrameClientConsumed := 0, 0;
      LastMsgConsumed, LargestSeqnoRcvd, MaxCumulBytesTrans, LastByteConsumed := -1, -1, 0, -1;
      LastAvailReaderMsgCap, LastAvailReaderBytesCap := 0, 0;
      RcvdButNotConsumed, ReadyForDelivery, RecvHistory, DiscardCount := map[], [], [], 0;
      recvLastFrameClientConsumed := 0;
      new;
      assert Ring(Rxq[..], 0) == map[];
    }

    method UpdateControl()
      requires Valid()
      modifies this`LastAvailReaderMsgCap, this`LastAvailReaderBytesCap, FlowCt
      ensures Valid() && View() == Control(old(View()))
    {
      LastAvailReaderMsgCap := RecvWindowSize - (LargestSeqnoRcvd - LastMsgConsumed);
      LastAvailReaderBytesCap := RecvWindowSizeBytes - (MaxCumulBytesTrans - (LastByteConsumed + 1));
      var _ := FlowCt.UpdateFlow(LastAvailReaderMsgCap, LastAvailReaderBytesCap);
    }

    /** Every caller passes LastFrameClientConsumed as the number to acknowledge. */
    method Ack(seqno: int, event: TcpEvent) returns (ack: Packet)
      requires Valid() && seqno == LastFrameClientConsumed
      modifies this`LastAvailReaderMsgCap, this`LastAvailReaderBytesCap, FlowCt
      ensures Valid() && (View(), ack) == Acked(old(View()), event)
    {
      UpdateControl();
      ack := Packet(LocalSessNonce, RemoteSessNonce, event, Fresh, -99, seqno,
                    LastAvailReaderMsgCap, LastAvailReaderBytesCap, 0, [], 0);
    }

    /** The ledger part of packet arrival; panicked is true where the code panics. */
    method NoteArrival(p: Packet) returns (panicked: bool)
      requires Valid()
      modifies this, FlowCt
      ensures Valid()
      ensures panicked <==> CumulPanics(old(View()), p)
      ensures panicked <==> if p.seqNum > old(LargestSeqnoRcvd) then p.cumul < old(MaxCumulBytesTrans)
                            else p.cumul > old(MaxCumulBytesTrans)
      ensures !panicked ==> View() == Arrived(old(View()), p)
    {
      if p.seqNum > LargestSeqnoRcvd {
        LargestSeqnoRcvd := p.seqNum;
        if p.cumul < MaxCumulBytesTrans {
          return true;
        }
        MaxCumulBytesTrans := p.cumul;
      }
      if p.cumul > MaxCumulBytesTrans {
        return true;
      }
      UpdateControl();
      return false;
    }

    ghost function Draining(): DrainState
      reads this, Rxq
    {
      DrainState(Rxq[..], NextFrameExpected, ReadyForDelivery, RecvHistory)
    }

    /** The body of the drain loop: hand over the frame in slot and empty the slot. */
    method DeliverNext(slot: nat)
      requires RecvWindowSize == Rxq.Length > 0 && NextFrameExpected >= 0
      requires slot == Slot(NextFrameExpected, RecvWindowSize) && Rxq[slot].Received?
      modifies this`NextFrameExpected, this`ReadyForDelivery, this`RecvHistory, Rxq
      ensures Draining() == Turned(old(Draining()))
    {
      ReadyForDelivery := ReadyForDelivery + [Rxq[slot].pack];
      RecvHistory := RecvHistory + [Rxq[slot].pack];
      Rxq[slot] := Vacant;
      NextFrameExpected := NextFrameExpected + 1;
    }

    /** The drain loop: deliver frames in order until a slot is empty. */
    method Drain()
      requires RecvWindowSize == Rxq.Length && DrainOk(Draining())
      modifies this`NextFrameExpected, this`ReadyForDelivery, this`RecvHistory, Rxq
      ensures Valid()
      ensures old(Result(Draining())) ==
              DrainResult(NextFrameExpected, ReadyForDelivery, RecvHistory, Ring(Rxq[..], NextFrameExpected))
    {
      ghost var start := Draining();
      var slot := NextFrameExpected % RecvWindowSize;
      SlotIsMod(NextFrameExpected, RecvWindowSize);
      while Rxq[slot].Received?
        invariant DrainOk(Draining()) && Result(Draining()) == Result(start)
        invariant slot == Slot(NextFrameExpected, RecvWindowSize)
        decreases Left(Draining())
      {
        DrainStep(Draining());
        DeliverNext(slot);
        slot := NextFrameExpected % RecvWindowSize;
        SlotIsMod(NextFrameExpected, RecvWindowSize);
      }
      DrainEnd(Draining());
    }

    /** A data packet: hold it, then discard and ack, or store it and drain. */
    method ReceiveData(p: Packet) returns (panicked: bool, acks: seq<Packet>)
      requires Valid() && p.event == EventData
      modifies this, Rxq, FlowCt
      ensures Valid() && panicked == IndexPanics(old(View()), p)
      ensures panicked <==> p.seqNum < 0 && -p.seqNum % RecvWindowSize != 0
      ensures !panicked ==> (View(), acks) == DataReceived(old(View()), p)
    {
      hide Ring, RingOk, Drained, Slot;
      panicked, acks := false, [];
      if p.seqNum >= NextFrameExpected {
        RcvdButNotConsumed := RcvdButNotConsumed[p.seqNum := p];
      }
      var pos := if p.seqNum >= 0 then p.seqNum % RecvWindowSize else -(-p.seqNum % RecvWindowSize);
      if pos < 0 {
        return true, [];
      }
      if !InWindow(p.seqNum, NextFrameExpected, NextFrameExpected + RecvWindowSize - 1) {
        DiscardCount := DiscardCount + 1;
        var ack := Ack(LastFrameClientConsumed, EventDataAck);
        return false, [ack];
      }
      Enqueue(p);
    }

    /** Store a packet of the window in its slot, and drain if it was the next one. */
    method Enqueue(p: Packet)
      requires Valid() && InWindow(p.seqNum, NextFrameExpected, NextFrameExpected + RecvWindowSize - 1)
      modifies this`NextFrameExpected, this`ReadyForDelivery, this`RecvHistory, this`recvLastFrameClientConsumed, Rxq
      ensures Valid()
      ensures var stored := Stored(old(View()), p);
              View() == if p.seqNum == old(NextFrameExpected) then Drained(stored) else stored
    {
      hide Run, AfterRun;
      SlotIsMod(p.seqNum, RecvWindowSize);
      RingStore(Rxq[..], NextFrameExpected, p);
      Rxq[p.seqNum % RecvWindowSize] := Received(p);
      if p.seqNum == NextFrameExpected {
        Drain();
        recvLastFrameClientConsumed := LastFrameClientConsumed;
      } else {
        SlotDistinct(NextFrameExpected, p.seqNum, RecvWindowSize);
      }
    }

    /** The loop over a delivery: its packets are no longer held. */
    method ForgetDelivered(delivery: seq<Packet>)
      requires delivery != []
      modifies this`RcvdButNotConsumed, this`LastMsgConsumed
      ensures RcvdButNotConsumed == old(RcvdButNotConsumed) - Numbers(delivery)
      ensures LastMsgConsumed == delivery[|delivery| - 1].seqNum
    {
      var i := 0;
      while i < |delivery|
        invariant 0 <= i <= |delivery|
        invariant RcvdButNotConsumed == old(RcvdButNotConsumed) - Numbers(delivery[..i])
        invariant i > 0 ==> LastMsgConsumed == delivery[i - 1].seqNum
      {
        NumbersStep(delivery, i);
        RcvdButNotConsumed := RcvdButNotConsumed - {delivery[i].seqNum};
        LastMsgConsumed := delivery[i].seqNum;
        i := i + 1;
      }
      assert delivery[..|delivery|] == delivery;
    }

    /** The delivery arm of the loop: hand everything ready to the consumer, then ack. */
    method DeliverToConsumer() returns (delivery: seq<Packet>, ack: Packet)
      requires Valid() && ReadyForDelivery != []
      modifies this, FlowCt
      ensures Valid() && delivery == old(ReadyForDelivery)
      ensures (View(), ack) == Delivered(old(View()))
    {
      hide Ring, RingOk, Slot, Numbers;
      delivery := ReadyForDelivery;
      var deliveryLen := |delivery|;
      ForgetDelivered(delivery);
      LastByteConsumed := delivery[deliveryLen - 1].cumul;
      ReadyForDelivery := [];
      LastFrameClientConsumed := delivery[deliveryLen - 1].seqNum;
      ack := Ack(LastFrameClientConsumed, EventDataAck);
    }

    /** The next packet of r.ready was read to its end. */
    method CompletePacket(pk: Packet, ghost r: Receiver, ghost g: Fill)
      requires Valid() && g.partial == 0 && g.completed < |r.ready| && pk == r.ready[g.completed]
      requires View() == Progressed(r, g)
      modifies this`RcvdButNotConsumed, this`ReadyForDelivery, this`LastMsgConsumed,
               this`LastFrameClientConsumed, this`LastByteConsumed
      ensures Valid() && View() == Progressed(r, Fill(g.completed + 1, g.bytes + Rest(pk), 0))
    {
      hide Ring, RingOk, Slot, Numbers, Leftover, Rest;
      NumbersStep(r.ready, g.completed);
      LeftoverNone(r.ready, g);
      LeftoverNone(r.ready, Fill(g.completed + 1, g.bytes + Rest(pk), 0));
      ReadyForDelivery := ReadyForDelivery[1..];
      RcvdButNotConsumed := RcvdButNotConsumed - {pk.seqNum};
      LastMsgConsumed := pk.seqNum;
      LastFrameClientConsumed := pk.seqNum;
      LastByteConsumed := pk.cumul;
    }

    /** Only m more bytes of the next packet of r.ready were read. */
    method AdvancePacket(pk: Packet, m: nat, ghost r: Receiver, ghost g: Fill)
      requires Valid() && g.partial == 0 && g.completed < |r.ready| && pk == r.ready[g.completed]
      requires View() == Progressed(r, g) && 0 < m < |Rest(pk)|
      modifies this`ReadyForDelivery, this`LastByteConsumed
      ensures Valid() && View() == Progressed(r, Fill(g.completed, g.bytes + Rest(pk)[..m], m))
    {
      LeftoverNone(r.ready, g);
      ReadyForDelivery := ReadyForDelivery[0 := pk.(dataOffset := pk.dataOffset + m)];
      LastByteConsumed := pk.cumul - |Rest(pk)| + m;
    }

    /** The loop body of fillAsMuchAsPossible: copy what fits of the next packet. */
    method ReadPacket(buf: array<byte>, n: nat, pk: Packet, ghost r: Receiver, ghost g: Fill)
      returns (m: nat, ghost h: Fill)
      requires Valid() && n < buf.Length && buf[..n] == g.bytes
      requires g.partial == 0 && g.completed < |r.ready| && pk == r.ready[g.completed]
      requires View() == Progressed(r, g)
      modifies this`RcvdButNotConsumed, this`ReadyForDelivery, this`LastMsgConsumed,
               this`LastFrameClientConsumed, this`LastByteConsumed, buf
      ensures Valid() && h == Consumed(g, Rest(pk), buf.Length - n)
      ensures m == |h.bytes| - |g.bytes| && n + m <= buf.Length && buf[..n + m] == h.bytes
      ensures View() == Progressed(r, h)
    {
      m := CopyBytes(buf, n, Rest(pk));
      h := Consumed(g, Rest(pk), buf.Length - n);
      if m == |Rest(pk)| {
        CompletePacket(pk, r, g);
      } else {
        AdvancePacket(pk, m, r, g);
      }
    }

    /** The loop of fillAsMuchAsPossible; k packets were completed. */
    method FillBuffer(buf: array<byte>) returns (n: nat, k: nat)
      requires Valid() && buf.Length > 0
      modifies this`RcvdButNotConsumed, this`ReadyForDelivery, this`LastMsgConsumed,
               this`LastFrameClientConsumed, this`LastByteConsumed, buf
      ensures Valid() && n <= buf.Length
      ensures var r := old(View());
              var f := Filled(r.ready, buf.Length);
              k == f.completed && buf[..n] == f.bytes && View() == Progressed(r, f)
    {
      hide Continues, Progressed, Filled, Ring, RingOk, Slot, Rest;
      ghost var r := View();
      ghost var g := Fill(0, [], 0);
      FillStart(r, g, buf.Length);
      var ready := ReadyForDelivery;
      n, k := 0, 0;
      while k < |ready|
        modifies this`RcvdButNotConsumed, this`ReadyForDelivery, this`LastMsgConsumed,
                 this`LastFrameClientConsumed, this`LastByteConsumed, buf
        invariant k == g.completed <= |ready| && g.partial == 0
        invariant n < buf.Length && buf[..n] == g.bytes
        invariant Valid() && View() == Progressed(r, g)
        invariant Continues(ready, g, buf.Length)
      {
        FillTurn(ready, g, buf.Length);
        var pk := ready[k];
        var m;
        m, g := ReadPacket(buf, n, pk, r, g);
        n := n + m;
        if m == |Rest(pk)| {
          k := k + 1;
        }
        if n >= buf.Length {
          break;
        }
      }
      FillEnd(ready, g, buf.Length);
    }

    /** fillAsMuchAsPossible: copy ready data into the reader's buffer, then ack
        if a packet was completed. */
    method FillAsMuchAsPossible(buf: array<byte>) returns (n: nat, acks: seq<Packet>)
      requires Valid()
      requires forall i :: 0 <= i < |ReadyForDelivery| ==> ReadyForDelivery[i].dataOffset <= |ReadyForDelivery[i].data|
      modifies this, FlowCt, buf
      ensures Valid() && n <= buf.Length
      ensures (View(), buf[..n], acks) == ReadInto(old(View()), buf.Length)
    {
      n, acks := 0, [];
      if buf.Length == 0 {
        LeftoverNone(ReadyForDelivery, Fill(0, [], 0));
        return;
      }
      var k;
      n, k := FillBuffer(buf);
      if k > 0 {
        var ack := Ack(LastFrameClientConsumed, EventDataAck);
        acks := [ack];
      }
    }
  }
}
