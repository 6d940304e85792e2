/** What holds between the data sender at one end and the data receiver at the
    other, and why each step of either keeps it. */
module Links {
  import opened Integers
  import opened Tcp
  import opened Packets
  import opened Receiver
  import Sender

  // ----- packets -----

  /** A packet of the data sender: a frame of its history, or a control packet. */
  ghost predicate DataOk(p: Packet, history: seq<Frame>) {
    && p.dataOffset == 0
    && if p.event == EventData
       then 0 <= p.seqNum < |history| && Carries(p, history[p.seqNum])
       else p.seqNum <= -98 && p.cumul == 0
  }

  /** A packet of the data receiver: it acknowledges no more than was consumed,
      except that number 0 is also sent before anything was. */
  ghost predicate AckOk(p: Packet, r: Receiver) {
    && 0 <= p.ackNum <= r.consumed
    && p.msgCap <= r.window
    && p.bytesCap <= r.windowBytes + 1
  }

  // ----- the data sender -----

  ghost predicate SenderInv(s: Sender.Sender, window: int, windowBytes: int) {
    && Sender.Ok(s) && s.window >= 1
    && WellNumbered(s.history) && s.total == |Stream(s.history)|
    && s.credited == Sender.CreditAll(map[], s.history[..s.acked + 1])
    && s.msgCap <= Max(s.window, window)
    && s.bytesCap <= Max(Sender.INITIAL_BYTES_CAP, windowBytes + 1)
    && Sender.InflightMsgs(s) <= s.window
    && BytesBounded(s, windowBytes)
  }

  /** All frames in flight but the last fit into the byte capacity. */
  ghost predicate BytesBounded(s: Sender.Sender, windowBytes: int)
    requires Sender.Ok(s)
  {
    s.acked < Sender.LastFrameSent(s) ==>
      |Stream(s.history[s.acked + 1..|s.history| - 1])| < Max(Sender.INITIAL_BYTES_CAP, windowBytes + 1)
  }

  // ----- the data receiver -----

  ghost predicate WindowInv(r: Receiver, history: seq<Frame>) {
    && 1 <= r.window && 1 <= r.windowBytes
    && 0 <= r.nextExpected <= |history|
    && |r.history| == r.nextExpected
    && (forall i :: 0 <= i < |r.history| ==> Carries(r.history[i], history[i]))
    && (forall k :: k in r.waiting ==>
          r.nextExpected < k < r.nextExpected + r.window && k <= r.largest
          && k < |history| && Carries(r.waiting[k], history[k]) && r.waiting[k].dataOffset == 0)
  }

  /** Bytes of the first ready packet that were already read. */
  function TakenOf(ready: seq<Packet>): seq<byte> {
    if ready == [] then []
    else if ready[0].dataOffset <= |ready[0].data| then ready[0].data[..ready[0].dataOffset] else ready[0].data
  }

  ghost predicate ReadyInv(r: Receiver, history: seq<Frame>, app: seq<byte>) {
    && -1 <= r.lastMsg < r.nextExpected <= |history|
    && r.consumed == Max(r.lastMsg, 0)
    && ReadyOk(r.ready, r.lastMsg + 1, history)
    && |r.ready| == r.nextExpected - 1 - r.lastMsg
    && app == Stream(history[..r.lastMsg + 1]) + TakenOf(r.ready)
    && (if r.lastByte == -1 then app == [] && r.lastMsg == -1 else r.lastByte == |app| && (app == [] ==> r.lastMsg >= 0))
    && 0 <= r.published <= r.consumed
  }

  /** The ready packets carry the frames from lo on; only the first may be partly read. */
  ghost predicate ReadyOk(ready: seq<Packet>, lo: int, history: seq<Frame>) {
    && 0 <= lo && lo + |ready| <= |history|
    && (forall i :: 0 <= i < |ready| ==> Carries(ready[i], history[lo + i]))
    && (forall i :: 0 < i < |ready| ==> ready[i].dataOffset == 0)
    && (ready != [] ==> ready[0].dataOffset <= |ready[0].data|)
  }

  /** RcvdButNotConsumed: everything ready or waiting, nothing consumed or unseen. */
  ghost predicate HeldInv(r: Receiver) {
    && (forall k :: k in r.held ==> r.lastMsg < k <= r.largest)
    && (forall k :: r.lastMsg < k < r.nextExpected ==> k in r.held)
    && (forall k :: k in r.waiting ==> k in r.held)
  }

  ghost predicate LedgerInv(r: Receiver, history: seq<Frame>) {
    && r.nextExpected - 1 <= r.largest < |history| && -1 <= r.largest
    && r.maxCumul == |Stream(history[..r.largest + 1])|
  }

  ghost predicate CapsInv(r: Receiver) {
    && r.msgCap <= r.window && r.bytesCap <= r.windowBytes + 1
    && 0 <= r.flow.msgCap <= r.window && 0 <= r.flow.bytesCap <= r.windowBytes + 1
  }

  ghost predicate ReceiverInv(r: Receiver, history: seq<Frame>, app: seq<byte>) {
    && WindowInv(r, history) && ReadyInv(r, history, app) && HeldInv(r) && LedgerInv(r, history) && CapsInv(r)
  }

  /** The invariant of one direction: sender s, receiver r whose application got
      app, packets xy from the sender's end and yx from the receiver's end. */
  ghost predicate LinkInv(s: Sender.Sender, r: Receiver, app: seq<byte>, xy: set<Packet>, yx: set<Packet>) {
    && SenderInv(s, r.window, r.windowBytes)
    && ReceiverInv(r, s.history, app)
    && s.acked <= r.consumed
    && (forall p :: p in xy ==> DataOk(p, s.history))
    && (forall p :: p in yx ==> AckOk(p, r))
  }

  lemma InitInv(s: Sender.Sender, r: Receiver)
    requires s.window >= 1 && r.window >= 1 && r.windowBytes >= 1
    requires s == Sender.Init(s.local, s.window) && r == Init(r.local, r.window, r.windowBytes)
    ensures LinkInv(s, r, [], {}, {})
  {
    assert s.history[..0] == [];
  }

  // ----- steps of the data sender -----

  /** More frames change nothing about the frames already sent. */
  lemma HistoryGrows(r: Receiver, h: seq<Frame>, h': seq<Frame>, app: seq<byte>)
    requires ReceiverInv(r, h, app) && h <= h'
    ensures ReceiverInv(r, h', app)
  {
    assert forall i :: 0 <= i <= |h| ==> h'[..i] == h[..i];
  }

  lemma DataOkGrows(p: Packet, h: seq<Frame>, h': seq<Frame>)
    requires DataOk(p, h) && h <= h'
    ensures DataOk(p, h')
  {
  }

  lemma WellNumberedSent(h: seq<Frame>, f: Frame)
    requires WellNumbered(h) && f.seqNum == |h| && f.cumul == |Stream(h)| + |f.data|
    ensures WellNumbered(h + [f]) && Stream(h + [f]) == Stream(h) + f.data
  {
    var h' := h + [f];
    assert h'[..|h|] == h;
    forall i | 0 <= i < |h'|
      ensures h'[i].seqNum == i && CumulAt(h', i)
    {
      if i < |h| {
        assert CumulAt(h, i);
        assert h'[..i + 1] == h[..i + 1];
      } else {
        assert h'[..i + 1] == h';
      }
    }
  }

  /** A push through the open gate into a free slot keeps the sender's bounds. */
  lemma PushKeeps(s: Sender.Sender, window: int, windowBytes: int, data: seq<byte>, account: Option<nat>, cli: bool)
    requires SenderInv(s, window, windowBytes) && Sender.GateOpen(s) && Sender.SlotFree(s)
    ensures SenderInv(Sender.Sent(s, data, account, cli), window, windowBytes)
  {
    hide Stream, WellNumbered, Sender.CreditAll;
    var f := Sender.NextFrame(s, data, account, cli);
    var s' := Sender.Sent(s, data, account, cli);
    WellNumberedSent(s.history, f);
    assert s'.history[..s.acked + 1] == s.history[..s.acked + 1];
    assert s'.history[s.acked + 1..|s'.history| - 1] == s.history[s.acked + 1..];
  }

  lemma ThroughBounds(s: Sender.Sender, ackNum: int)
    requires Sender.Ok(s)
    ensures s.acked <= Sender.Through(s, ackNum) < |s.history|
    ensures Sender.Through(s, ackNum) <= Max(s.acked, ackNum)
  {
  }

  lemma SuffixShorter(h: seq<Frame>, i: nat, j: nat, k: nat)
    requires i <= j <= k <= |h|
    ensures |Stream(h[j..k])| <= |Stream(h[i..k])|
  {
    assert h[i..k] == h[i..j] + h[j..k];
    StreamConcat(h[i..j], h[j..k]);
  }

  lemma CreditMoves(h: seq<Frame>, i: nat, j: nat)
    requires i <= j <= |h|
    ensures Sender.CreditAll(Sender.CreditAll(map[], h[..i]), h[i..j]) == Sender.CreditAll(map[], h[..j])
  {
    assert h[..j] == h[..i] + h[i..j];
    Sender.CreditConcat(map[], h[..i], h[i..j]);
  }

  lemma BoundMoves(s: Sender.Sender, t: Sender.Sender, windowBytes: int)
    requires Sender.Ok(s) && s.acked <= t.acked < |s.history| && t.history == s.history && BytesBounded(s, windowBytes)
    ensures BytesBounded(t, windowBytes)
  {
    if t.acked < |s.history| - 1 {
      SuffixShorter(s.history, s.acked + 1, t.acked + 1, |s.history| - 1);
    }
  }

  /** Any packet that arrives keeps them too: frames only leave the indices, each
      credited once. */
  lemma GotPacketKeeps(s: Sender.Sender, r: Receiver, p: Packet)
    requires SenderInv(s, r.window, r.windowBytes) && AckOk(p, r) && s.acked <= r.consumed
    ensures SenderInv(Sender.GotPacket(s, p), r.window, r.windowBytes)
    ensures Sender.GotPacket(s, p).acked <= r.consumed
  {
    hide Stream, Sender.CreditAll, Sender.Through, WellNumbered, BytesBounded;
    var t := Sender.GotPacket(s, p);
    ThroughBounds(s, p.ackNum);
    CreditMoves(s.history, s.acked + 1, t.acked + 1);
    BoundMoves(s, t, r.windowBytes);
  }
}
