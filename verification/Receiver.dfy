/** The receiver as a value: what each step of the receive loop in recv.go does
    to it. Frames that wait for a gap to fill are a map from sequence number to
    packet; the class RecvState keeps them in a ring. */
module Receiver {
  import opened Tcp
  import opened Packets
  import opened FlowControl

  datatype Receiver = Receiver(
    local: string,              // LocalSessNonce
    remote: string,             // RemoteSessNonce, empty until learned
    window: int,                // RecvWindowSize
    windowBytes: int,           // RecvWindowSizeBytes
    nextExpected: int,          // NextFrameExpected
    consumed: int,              // LastFrameClientConsumed, starts at 0
    lastMsg: int,               // LastMsgConsumed, starts at -1
    largest: int,               // LargestSeqnoRcvd
    maxCumul: int,              // MaxCumulBytesTrans
    lastByte: int,              // LastByteConsumed
    msgCap: int,                // LastAvailReaderMsgCap
    bytesCap: int,              // LastAvailReaderBytesCap
    flow: Flow,                 // the shared FlowCt
    published: int,             // the sender's recvLastFrameClientConsumed
    waiting: map<int, Packet>,  // occupied Rxq slots
    held: map<int, Packet>,     // RcvdButNotConsumed
    ready: seq<Packet>,         // ReadyForDelivery
    history: seq<Packet>,       // RecvHistory
    discards: int)              // DiscardCount

  function Init(local: string, window: int, windowBytes: int): Receiver {
    Receiver(local, "", window, windowBytes, 0, 0, -1, -1, 0, -1, 0, 0, Flow(0, 0), 0, map[], map[], [], [], 0)
  }

  /** InWindow of swp.go. */
  predicate InWindow(seqno: int, min: int, max: int) {
    min <= seqno <= max
  }

  /** UpdateControl: recompute the advertised capacities from the ledgers. */
  function Control(r: Receiver): Receiver {
    var m := r.window - (r.largest - r.lastMsg);
    var b := r.windowBytes - (r.maxCumul - (r.lastByte + 1));
    r.(msgCap := m, bytesCap := b, flow := Updated(r.flow, m, b))
  }

  /** ack: every acknowledgement carries LastFrameClientConsumed. */
  function Acked(r: Receiver, event: TcpEvent): (Receiver, Packet) {
    var c := Control(r);
    (c, Packet(c.local, c.remote, event, Fresh, -99, c.consumed, c.msgCap, c.bytesCap, 0, [], 0))
  }

  /** The two panics on cumulative byte counts. */
  predicate CumulPanics(r: Receiver, p: Packet) {
    var m := if p.seqNum > r.largest then p.cumul else r.maxCumul;
    (p.seqNum > r.largest && p.cumul < r.maxCumul) || p.cumul > m
  }

  /** The ring is indexed with seqNum modulo its size, which the code takes with the
      sign of seqNum: the index is out of range for most negative numbers. */
  predicate IndexPanics(r: Receiver, p: Packet) {
    p.event == EventData && p.seqNum < 0 && r.window > 0 && -p.seqNum % r.window != 0
  }

  predicate ArrivalPanics(r: Receiver, p: Packet) {
    CumulPanics(r, p) || IndexPanics(r, p)
  }

  /** The ledger update and the flow update that every accepted packet causes. */
  function Arrived(r: Receiver, p: Packet): Receiver {
    Control(if p.seqNum > r.largest then r.(largest := p.seqNum, maxCumul := p.cumul) else r)
  }

  /** The packets at n, n+1, ... up to the first gap. */
  function Run(waiting: map<int, Packet>, n: int): seq<Packet>
    decreases |waiting|
  {
    if n in waiting then [waiting[n]] + Run(waiting - {n}, n + 1) else []
  }

  function AfterRun(waiting: map<int, Packet>, n: int): map<int, Packet>
    decreases |waiting|
  {
    if n in waiting then AfterRun(waiting - {n}, n + 1) else waiting
  }

  /** Every data packet that is not an old duplicate is held until consumed. */
  function Held(r: Receiver, p: Packet): Receiver {
    if p.seqNum >= r.nextExpected then r.(held := r.held[p.seqNum := p]) else r
  }

  /** Outside the window: count it, and ack what is known to be good. */
  function Discarded(r: Receiver): (Receiver, Packet) {
    Acked(r.(discards := r.discards + 1), EventDataAck)
  }

  /** In the window, behind a gap. */
  function Stored(r: Receiver, p: Packet): Receiver {
    r.(waiting := r.waiting[p.seqNum := p])
  }

  /** Deliver the contiguous run that starts at nextExpected. */
  function Drained(r: Receiver): Receiver {
    var run := Run(r.waiting, r.nextExpected);
    r.(waiting := AfterRun(r.waiting, r.nextExpected), nextExpected := r.nextExpected + |run|,
       ready := r.ready + run, history := r.history + run, published := r.consumed)
  }

  /** What the receive loop does with a data packet: the new receiver and the
      acknowledgement of a discarded packet. */
  function DataReceived(r: Receiver, p: Packet): (Receiver, seq<Packet>) {
    var r1 := Held(r, p);
    if !InWindow(p.seqNum, r.nextExpected, r.nextExpected + r.window - 1) then
      var (r2, ack) := Discarded(r1);
      (r2, [ack])
    else if p.seqNum == r.nextExpected then (Drained(Stored(r1, p)), [])
    else (Stored(r1, p), [])
  }

  function Numbers(ps: seq<Packet>): set<int> {
    set i | 0 <= i < |ps| :: ps[i].seqNum
  }

  /** The bytes of a packet that have not been read yet. */
  function Rest(p: Packet): seq<byte> {
    if p.dataOffset <= |p.data| then p.data[p.dataOffset..] else []
  }

  function Unread(ps: seq<Packet>): seq<byte> {
    if ps == [] then [] else Rest(ps[0]) + Unread(ps[1..])
  }

  /** Delivery of everything ready over ReadMessagesCh: the new receiver and the ack. */
  function Delivered(r: Receiver): (Receiver, Packet)
    requires r.ready != []
  {
    var last := r.ready[|r.ready| - 1];
    Acked(r.(held := r.held - Numbers(r.ready), lastMsg := last.seqNum, lastByte := last.cumul,
             ready := [], consumed := last.seqNum), EventDataAck)
  }

  /** A read in progress: packets completed, bytes handed out, and bytes taken
      from the next packet without completing it. */
  datatype Fill = Fill(completed: nat, bytes: seq<byte>, partial: nat)

  /** The loop of fillAsMuchAsPossible with room bytes left in the caller's buffer. */
  function Filled(ready: seq<Packet>, room: nat): (f: Fill)
    ensures f.completed <= |ready|
    ensures f.partial > 0 ==> f.completed < |ready| && f.partial < |Rest(ready[f.completed])|
  {
    if room == 0 || ready == [] then Fill(0, [], 0)
    else
      var rest := Rest(ready[0]);
      if |rest| <= room then
        var f := Filled(ready[1..], room - |rest|);
        Fill(f.completed + 1, rest + f.bytes, f.partial)
      else
        Fill(0, rest[..room], room)
  }

  /** The packets left after a read. */
  function Leftover(ready: seq<Packet>, f: Fill): seq<Packet>
    requires f.completed <= |ready|
  {
    var tail := ready[f.completed..];
    if tail == [] then [] else tail[0 := tail[0].(dataOffset := tail[0].dataOffset + f.partial)]
  }

  /** The ledgers after a read that got as far as f. */
  function Progressed(r: Receiver, f: Fill): Receiver
    requires f.completed <= |r.ready|
    requires f.partial > 0 ==> f.completed < |r.ready|
  {
    var r1 := if f.completed == 0 then r else
      var last := r.ready[f.completed - 1];
      r.(held := r.held - Numbers(r.ready[..f.completed]), lastMsg := last.seqNum,
         consumed := last.seqNum, lastByte := last.cumul);
    var r2 := if f.partial == 0 then r1 else
      var p := r.ready[f.completed];
      r1.(lastByte := p.cumul - |Rest(p)| + f.partial);
    r2.(ready := Leftover(r.ready, f))
  }

  /** A read request for room bytes: the new receiver, the bytes handed out, and
      one ack if a packet was completed. */
  function ReadInto(r: Receiver, room: nat): (Receiver, seq<byte>, seq<Packet>) {
    var f := Filled(r.ready, room);
    var r1 := Progressed(r, f);
    if f.completed > 0 then
      var (r2, ack) := Acked(r1, EventDataAck);
      (r2, f.bytes, [ack])
    else (r1, f.bytes, [])
  }

  // ----- what the drain delivers -----

  /** run lists the packets waiting under n, n + 1, ..., and stops at a gap. */
  ghost predicate IsMaximalRun(waiting: map<int, Packet>, n: int, run: seq<Packet>) {
    && (forall k :: n <= k < n + |run| ==> k in waiting && run[k - n] == waiting[k])
    && n + |run| !in waiting
  }

  /** after is waiting without the numbers from n up to but not including m. */
  ghost predicate IsWithout(waiting: map<int, Packet>, n: int, m: int, after: map<int, Packet>) {
    && (forall k :: k in after <==> k in waiting && !(n <= k < m))
    && (forall k :: k in after ==> after[k] == waiting[k])
  }

  lemma MaximalRunStep(waiting: map<int, Packet>, n: int, rest: seq<Packet>)
    requires n in waiting && IsMaximalRun(waiting - {n}, n + 1, rest)
    ensures IsMaximalRun(waiting, n, [waiting[n]] + rest)
  {
    var run := [waiting[n]] + rest;
    forall k | n <= k < n + |run|
      ensures k in waiting && run[k - n] == waiting[k]
    {
      if k > n {
        assert k in waiting - {n} && run[k - n] == rest[k - (n + 1)];
      }
    }
    assert n + |run| == n + 1 + |rest|;
  }

  /** The drain takes exactly the maximal contiguous run and nothing else. */
  lemma {:induction false} RunIsMaximal(waiting: map<int, Packet>, n: int)
    ensures IsMaximalRun(waiting, n, Run(waiting, n))
    ensures IsWithout(waiting, n, n + |Run(waiting, n)|, AfterRun(waiting, n))
    decreases |waiting|
  {
    if n in waiting {
      assert |waiting - {n}| < |waiting|;
      RunIsMaximal(waiting - {n}, n + 1);
      MaximalRunStep(waiting, n, Run(waiting - {n}, n + 1));
      assert Run(waiting, n) == [waiting[n]] + Run(waiting - {n}, n + 1);
      hide Run, AfterRun;
    } else {
      assert Run(waiting, n) == [];
    }
  }

  /** A run of frames from a window of w numbers has at most w packets. */
  lemma RunFitsWindow(waiting: map<int, Packet>, n: int, w: nat)
    requires forall k :: k in waiting ==> n <= k < n + w
    ensures |Run(waiting, n)| <= w
  {
    RunIsMaximal(waiting, n);
    var last := n + |Run(waiting, n)| - 1;
    if last >= n {
      assert last in waiting;
    }
  }

  lemma {:induction false} UnreadConcat(a: seq<Packet>, b: seq<Packet>)
    ensures Unread(a + b) == Unread(a) + Unread(b)
  {
    if a == [] {
      assert a + b == b;
    } else {
      assert (a + b)[1..] == a[1..] + b;
      UnreadConcat(a[1..], b);
    }
  }

  lemma RestAdvance(p: Packet, k: nat)
    requires k <= |Rest(p)|
    ensures Rest(p) == Rest(p)[..k] + Rest(p.(dataOffset := p.dataOffset + k))
  {
    if p.dataOffset <= |p.data| {
      assert Rest(p)[k..] == p.data[p.dataOffset + k..];
    }
  }

  lemma UnreadReplaced(ready: seq<Packet>, p: Packet)
    requires ready != []
    ensures Unread(ready[0 := p]) == Rest(p) + Unread(ready[1..])
  {
    assert ready[0 := p][1..] == ready[1..];
  }

  lemma UnreadFirst(ready: seq<Packet>)
    requires ready != []
    ensures Unread(ready) == Rest(ready[0]) + Unread(ready[1..])
  {
  }

  lemma PartialTakesBytes(ready: seq<Packet>, k: nat)
    requires ready != [] && k <= |Rest(ready[0])|
    ensures var p := ready[0].(dataOffset := ready[0].dataOffset + k);
            Rest(ready[0])[..k] + Unread(ready[0 := p]) == Unread(ready)
  {
    hide Unread, Rest;
    var p := ready[0].(dataOffset := ready[0].dataOffset + k);
    RestAdvance(ready[0], k);
    UnreadReplaced(ready, p);
    UnreadFirst(ready);
    Reassociate(Rest(ready[0])[..k], Rest(p), Unread(ready[1..]));
  }

  lemma LeftoverShift(ready: seq<Packet>, f: Fill)
    requires ready != [] && f.completed < |ready|
    ensures Leftover(ready[1..], f) == Leftover(ready, f.(completed := f.completed + 1))
  {
    assert ready[1..][f.completed..] == ready[f.completed + 1..];
  }

  /** What a read promises: its bytes and what it leaves make up what was unread,
      and it is short only when everything was taken. */
  ghost predicate TakesNext(ready: seq<Packet>, f: Fill, room: nat)
    requires f.completed <= |ready|
  {
    && f.bytes + Unread(Leftover(ready, f)) == Unread(ready)
    && |f.bytes| == (if room <= |Unread(ready)| then room else |Unread(ready)|)
  }

  lemma TakesPart(ready: seq<Packet>, room: nat)
    requires ready != [] && room <= |Rest(ready[0])|
    ensures TakesNext(ready, Fill(0, Rest(ready[0])[..room], room), room)
  {
    hide Unread, Rest;
    PartialTakesBytes(ready, room);
    assert ready[0..] == ready;
  }

  lemma TakesWhole(ready: seq<Packet>, f: Fill, room: nat)
    requires ready != [] && |Rest(ready[0])| <= room && f.completed < |ready|
    requires TakesNext(ready[1..], f, room - |Rest(ready[0])|)
    ensures TakesNext(ready, Fill(f.completed + 1, Rest(ready[0]) + f.bytes, f.partial), room)
  {
    LeftoverShift(ready, f);
    var rest, left := Rest(ready[0]), Unread(Leftover(ready[1..], f));
    assert (rest + f.bytes) + left == rest + (f.bytes + left);
  }

  lemma TakesNothing(room: nat)
    ensures TakesNext([], Fill(0, [], 0), room)
  {
  }

  /** A read returns the next min(room, available) unread bytes, in order, and
      leaves exactly the rest. */
  lemma {:induction false} FillTakesNextBytes(ready: seq<Packet>, room: nat)
    ensures TakesNext(ready, Filled(ready, room), room)
    decreases |ready|
  {
    hide TakesNext, Unread, Leftover;
    if ready == [] {
      TakesNothing(room);
    } else if room == 0 {
      TakesPart(ready, 0);
      assert Rest(ready[0])[..0] == [];
    } else {
      var rest := Rest(ready[0]);
      if |rest| <= room {
        FillTakesNextBytes(ready[1..], room - |rest|);
        TakesWhole(ready, Filled(ready[1..], room - |rest|), room);
      } else {
        TakesPart(ready, room);
      }
    }
  }

  /** The first c packets are read to their end: the bytes of all of them fit into the
      room, and room was left for the last one. */
  ghost predicate FitThrough(ready: seq<Packet>, room: nat, c: nat)
    requires c <= |ready|
  {
    c == 0 || (|Unread(ready[..c - 1])| < room && |Unread(ready[..c])| <= room)
  }

  lemma FitStep(ready: seq<Packet>, room: nat, c: nat)
    requires 2 <= c <= |ready| && |Rest(ready[0])| <= room
    ensures FitThrough(ready, room, c) <==> FitThrough(ready[1..], room - |Rest(ready[0])|, c - 1)
  {
    UnreadFirst(ready[..c]);
    UnreadFirst(ready[..c - 1]);
    assert ready[..c][1..] == ready[1..][..c - 1];
    assert ready[..c - 1][1..] == ready[1..][..c - 2];
  }

  lemma FitNone(ready: seq<Packet>, room: nat, c: nat)
    requires 1 <= c <= |ready| && (room == 0 || |Rest(ready[0])| > room)
    ensures !FitThrough(ready, room, c)
  {
    UnreadFirst(ready[..c]);
  }

  /** A read completes as many packets as fit, no fewer and no more. */
  lemma {:induction false} ReadsThrough(ready: seq<Packet>, room: nat, c: nat)
    requires c <= |ready|
    ensures c <= Filled(ready, room).completed <==> FitThrough(ready, room, c)
    decreases |ready|
  {
    if c > 0 {
      var rest := Rest(ready[0]);
      if room == 0 || |rest| > room {
        FitNone(ready, room, c);
      } else if c == 1 {
        UnreadFirst(ready[..1]);
        assert ready[..1][1..] == [] && ready[..0] == [];
      } else {
        FitStep(ready, room, c);
        ReadsThrough(ready[1..], room - |rest|, c - 1);
      }
    }
  }
}
