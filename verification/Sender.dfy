/** The sender as a value: what the arms of the send loop in sender.go do to it.
    A frame is in flight while it is in the two retry indices; these always
    hold the frames above acked, so one number stands for both. */
module Sender {
  import opened Tcp
  import opened Packets
  import opened FlowControl

  datatype Sender = Sender(
    local: string,               // LocalSessNonce
    remote: string,              // RemoteSessNonce, empty until learned
    window: int,                 // SenderWindowSize
    history: seq<Frame>,         // SendHistory; LastFrameSent is |history| - 1
    acked: int,                  // everything above is in both retry indices
    msgCap: int,                 // LastSeenAvailReaderMsgCap
    bytesCap: int,               // LastSeenAvailReaderBytesCap
    total: int,                  // TotalBytesSent
    credited: map<nat, int>)     // NumBytesAcked of every ByteAccount

  const INITIAL_BYTES_CAP: int := 1024 * 1024

  function Init(local: string, window: int): Sender {
    Sender(local, "", window, [], -1, window, INITIAL_BYTES_CAP, 0, map[])
  }

  ghost predicate Ok(s: Sender) {
    -1 <= s.acked < |s.history|
  }

  function LastFrameSent(s: Sender): int {
    |s.history| - 1
  }

  /** ComputeInflight. */
  function InflightMsgs(s: Sender): int {
    LastFrameSent(s) - s.acked
  }

  function InflightBytes(s: Sender): int
    requires Ok(s)
  {
    |Stream(s.history[s.acked + 1..])|
  }

  /** A new packet is accepted only while both capacities leave room. */
  predicate GateOpen(s: Sender)
    requires Ok(s)
  {
    s.msgCap - InflightMsgs(s) > 0 && s.bytesCap - InflightBytes(s) > 0
  }

  /** The ring has a slot for the next frame that no indexed frame occupies. */
  predicate SlotFree(s: Sender) {
    InflightMsgs(s) < s.window
  }

  function NextFrame(s: Sender, data: seq<byte>, account: Option<nat>, cliAcked: bool): Frame {
    Frame(|s.history|, data, s.total + |data|, account, cliAcked)
  }

  /** doOrigDataSend. */
  function Sent(s: Sender, data: seq<byte>, account: Option<nat>, cliAcked: bool): Sender {
    s.(history := s.history + [NextFrame(s, data, account, cliAcked)], total := s.total + |data|)
  }

  /** A data packet as first sent or as retried: only the stamps differ. */
  function DataPacket(s: Sender, flow: Flow, f: Frame): Packet {
    Packet(s.local, s.remote, EventData, Fresh, f.seqNum, 0, flow.msgCap, flow.bytesCap, f.cumul, f.data, 0)
  }

  function Credited(credited: map<nat, int>, f: Frame): map<nat, int> {
    match f.account
    case None => credited
    case Some(a) => credited[a := (if a in credited then credited[a] else 0) + |f.data|]
  }

  /** Add the length of each frame to its account, in order. */
  function CreditAll(credited: map<nat, int>, frames: seq<Frame>): map<nat, int> {
    if frames == [] then credited
    else Credited(CreditAll(credited, frames[..|frames| - 1]), frames[|frames| - 1])
  }

  /** The highest frame removed once everything through ackNum is removed. */
  function Through(s: Sender, ackNum: int): int {
    if ackNum <= s.acked then s.acked else if ackNum <= LastFrameSent(s) then ackNum else LastFrameSent(s)
  }

  /** The GotPack arm: any packet overwrites the capacities and removes every
      frame up to its AckNum from the indices. */
  function GotPacket(s: Sender, p: Packet): Sender
    requires Ok(s)
  {
    var t := Through(s, p.ackNum);
    s.(msgCap := p.msgCap, bytesCap := p.bytesCap, acked := t,
       credited := CreditAll(s.credited, s.history[s.acked + 1..t + 1]))
  }

  /** The sender learns the remote nonce from the first acknowledgement that has it. */
  function Learned(s: Sender, ack: Packet): Sender {
    if s.remote == "" && ack.destNonce != "" then s.(remote := ack.destNonce) else s
  }

  /** Bytes of the frames that belong to account a. */
  function BytesFor(a: nat, frames: seq<Frame>): nat {
    if frames == [] then 0
    else
      var f := frames[|frames| - 1];
      BytesFor(a, frames[..|frames| - 1]) + (if f.account == Some(a) then |f.data| else 0)
  }

  function Balance(credited: map<nat, int>, a: nat): int {
    if a in credited then credited[a] else 0
  }

  lemma {:induction false} CreditCounts(credited: map<nat, int>, frames: seq<Frame>, a: nat)
    ensures Balance(CreditAll(credited, frames), a) == Balance(credited, a) + BytesFor(a, frames)
  {
    if frames == [] {
    } else {
      CreditCounts(credited, frames[..|frames| - 1], a);
    }
  }

  lemma {:induction false} CreditConcat(credited: map<nat, int>, xs: seq<Frame>, ys: seq<Frame>)
    ensures CreditAll(credited, xs + ys) == CreditAll(CreditAll(credited, xs), ys)
  {
    if ys == [] {
      assert xs + ys == xs;
    } else {
      assert (xs + ys)[..|xs + ys| - 1] == xs + ys[..|ys| - 1];
      CreditConcat(credited, xs, ys[..|ys| - 1]);
    }
  }
}
