/** One endpoint as it runs: the SWP of swp.go with the arms of its receive and send
    loops, each of which is exactly one step of the protocol. */
module SwpLoop {
  import opened Tcp
  import opened Packets
  import opened FlowControl
  import opened Slots
  import opened RetryTree
  import opened Receiver
  import opened Protocol
  import opened RecvLoop
  import opened SendLoop
  import opened ConnectionLoop
  import Sender
  import Conn

  // ----- which frames a retry sweep sends -----

  /** The indexed frames, those from lo on, whose deadline has passed. */
  ghost function DueFrames(slots: seq<TxqSlot>, history: seq<Frame>, lo: nat, now: int): set<int>
    requires slots != []
  {
    set n | lo <= n < |history| && slots[Slot(n, |slots|)].retryDeadline <= now
  }

  ghost predicate IndexedAt(slots: seq<TxqSlot>, history: seq<Frame>, byDl: seq<int>, lo: nat, j: int) {
    slots != [] && (j in byDl <==> exists n :: lo <= n < |history| && j == Slot(n, |slots|))
  }

  lemma IndexedSlots(slots: seq<TxqSlot>, history: seq<Frame>, bySeq: seq<int>, byDl: seq<int>, j: int)
    requires Indexed(slots, history, bySeq, byDl)
    ensures IndexedAt(slots, history, byDl, |history| - |bySeq|, j)
  {
    var lo := |history| - |bySeq|;
    assert j in byDl <==> j in multiset(byDl);
    assert j in bySeq <==> j in multiset(bySeq);
    if j in bySeq {
      var k :| 0 <= k < |bySeq| && bySeq[k] == j;
      assert j == Slot(lo + k, |slots|);
    }
    if n :| lo <= n < |history| && j == Slot(n, |slots|) {
      assert bySeq[n - lo] == j;
    }
  }

  /** The packets sent are exactly the packets of the due frames. */
  lemma SweepFrames(s: Sender.Sender, flow: Flow, slots: seq<TxqSlot>, bySeq: seq<int>, byDl: seq<int>, now: int)
    requires Indexed(slots, s.history, bySeq, byDl) && Sorted(ByDeadline, slots, byDl)
    ensures var lo := |s.history| - |bySeq|;
            SetOf(Resent(s, flow, slots, DuePrefix(slots, byDl, now))) ==
            set n | n in DueFrames(slots, s.history, lo, now) :: Sender.DataPacket(s, flow, s.history[n])
  {
    var lo, w := |s.history| - |bySeq|, |slots|;
    var due := DuePrefix(slots, byDl, now);
    var frames := DueFrames(slots, s.history, lo, now);
    var sent := Resent(s, flow, slots, due);
    assert Placed(slots, s.history, lo);
    DueIsAll(slots, byDl, now);
    hide Indexed, Sorted, SameItems, DuePrefix, Sender.DataPacket, Positions, Slot;
    forall p | p in SetOf(sent)
      ensures exists n :: n in frames && p == Sender.DataPacket(s, flow, s.history[n])
    {
      var i :| 0 <= i < |sent| && sent[i] == p;
      IndexedSlots(slots, s.history, bySeq, byDl, due[i]);
      assert due[i] in due;
      var n :| lo <= n < |s.history| && due[i] == Slot(n, w);
      assert n in frames;
    }
    forall n | n in frames
      ensures Sender.DataPacket(s, flow, s.history[n]) in SetOf(sent)
    {
      IndexedSlots(slots, s.history, bySeq, byDl, Slot(n, w));
      assert Slot(n, w) in due;
      var i :| 0 <= i < |due| && due[i] == Slot(n, w);
      assert sent[i] == Sender.DataPacket(s, flow, s.history[n]);
    }
  }

  /** Action a takes e to e', and sends out. */
  ghost predicate OneStep(e: Endpoint, a: Action, e': Endpoint, out: seq<Packet>) {
    Sender.Ok(e.snd) && Allowed(e, a, {}) && Act(e, a, {}) == Stepped(e', SetOf(out))
  }

  ghost predicate TimerPanics(e: Endpoint) {
    Sender.Ok(e.snd) && Allowed(e, RetryTimer, {}) && Act(e, RetryTimer, {}).Panicked?
  }

  /** Before the second is over the timer only drops a retry of a state left since. */
  function Waited(c: Conn.Conn): Conn.Conn {
    if c.retrying && c.retryState != c.tcp then c.(retrying := false) else c
  }

  /** The session belongs to another remote. */
  predicate Foreign(remoteInbox: string, from: string) {
    remoteInbox != "" && from != remoteInbox
  }

  class SWP {
    const snd: SenderState
    const rcv: RecvState
    const conn: Connection
    const hasDest: bool
    ghost var app: seq<byte>

    ghost predicate Valid()
      reads this, snd, snd.Txq, snd.SentButNotAckedByDeadline, snd.SentButNotAckedBySeqNum, rcv, rcv.Rxq
    {
      snd.Valid() && rcv.Valid() && conn.recv == rcv && snd.FlowCt == rcv.FlowCt
    }

    ghost function View(): Endpoint
      requires Valid()
      reads this, snd, snd.Txq, snd.SentButNotAckedByDeadline, snd.SentButNotAckedBySeqNum,
            rcv, rcv.Rxq, rcv.FlowCt, conn
    {
      Endpoint(snd.View(), rcv.View(), conn.View(), hasDest, app)
    }

    /** NewSWP: the same window both ways, and one shared flow record. */
    constructor (windowMsgCount: int, windowByteCount: int, nonce: string, destInbox: string, callback: bool)
      requires windowMsgCount >= 1
      ensures Valid() && View() == NewEndpoint(Config(nonce, windowMsgCount, windowByteCount, destInbox != "", callback))
    {
      var flowCt := new FlowCtrl();
      var s := new SenderState(windowMsgCount, nonce, flowCt);
      var r := new RecvState(windowMsgCount, windowByteCount, nonce, flowCt);
      var c := new Connection(r, destInbox, callback);
      snd, rcv, conn := s, r, c;
      hasDest, app := destInbox != "", [];
    }

    /** The SendAck arm, once for every acknowledgement the receiver queued. */
    method SendAcks(acks: seq<Packet>)
      requires snd.Valid()
      modifies snd`RemoteSessNonce
      ensures snd.Valid() && snd.View() == LearnedAll(old(snd.View()), acks)
    {
      hide Indexed;
      var i := 0;
      while i < |acks|
        invariant 0 <= i <= |acks|
        invariant snd.Valid() && LearnedAll(snd.View(), acks[i..]) == LearnedAll(old(snd.View()), acks)
      {
        if snd.RemoteSessNonce == "" && acks[i].destNonce != "" {
          snd.RemoteSessNonce := acks[i].destNonce;
        }
        assert acks[i..][1..] == acks[i + 1..];
        i := i + 1;
      }
    }

    /** Lock on to the first remote that sends a SYN, then drop packets of other remotes
        and of other sessions; from is the inbox that the packet came from. */
    method Admit(p: Packet, from: string) returns (ok: bool)
      requires rcv.Valid() && conn.recv == rcv && from != ""
      modifies rcv`RemoteSessNonce, conn`RemoteInbox
      ensures rcv.Valid()
      ensures Foreign(old(conn.RemoteInbox), from) ==>
                !ok && rcv.View() == old(rcv.View()) && conn.View() == old(conn.View())
      ensures !Foreign(old(conn.RemoteInbox), from) ==>
                && (rcv.View(), conn.View()) == Conn.LockedOn(old(rcv.View()), old(conn.View()), p)
                && ok == Conn.Accepts(rcv.View(), conn.View(), p)
    {
      hide Ring, RingOk;
      if p.event == EventSyn && (conn.TcpState == Fresh || conn.TcpState == Listen) {
        if conn.RemoteInbox == "" && from != "" {
          conn.RemoteInbox := from;
          rcv.RemoteSessNonce := p.fromNonce;
        }
      }
      if conn.RemoteInbox != "" && from != conn.RemoteInbox {
        return false;
      }
      if (p.destNonce != "" || AtLeastEstablished(conn.TcpState)) && p.destNonce != rcv.LocalSessNonce {
        return false;
      }
      if rcv.RemoteSessNonce != "" && p.fromNonce != rcv.RemoteSessNonce {
        return false;
      }
      ok := true;
    }

    /** Packets with payload go to the ring, all others to the connection. */
    method Dispatch(p: Packet) returns (panicked: bool, acks: seq<Packet>)
      requires rcv.Valid() && conn.recv == rcv
      modifies rcv, rcv.Rxq, rcv.FlowCt, conn
      ensures rcv.Valid()
      ensures p.event == EventData ==>
                && panicked == IndexPanics(old(rcv.View()), p) && conn.View() == old(conn.View())
                && (!panicked ==> (rcv.View(), acks) == DataReceived(old(rcv.View()), p))
      ensures p.event != EventData ==>
                Conn.HandleEvent(old(rcv.View()), old(conn.View()), p.event, p) ==
                if panicked then Conn.Panics else Conn.Does(rcv.View(), conn.View(), acks)
    {
      hide Ring, RingOk, DataReceived, Conn.HandleEvent, IndexPanics;
      if p.event == EventData {
        panicked, acks := rcv.ReceiveData(p);
      } else {
        panicked, acks := conn.HandleInfo(p);
      }
    }

    /** The MsgRecv arm together with the GotPack and SendAck arms that it triggers. */
    method PacketArrived(p: Packet, from: string) returns (panicked: bool, out: seq<Packet>)
      requires Valid() && from != ""
      modifies snd, snd.SentButNotAckedByDeadline, snd.SentButNotAckedBySeqNum, rcv, rcv.Rxq, rcv.FlowCt, conn
      ensures Sender.Ok(old(snd.View()))
      ensures Foreign(old(conn.RemoteInbox), from) ==> !panicked && Valid() && View() == old(View()) && out == []
      ensures !Foreign(old(conn.RemoteInbox), from) ==>
                && (panicked <==> Arrive(old(View()), p).Panicked?)
                && (!panicked ==> Valid() && Arrive(old(View()), p) == Stepped(View(), SetOf(out)))
    {
      hide Ring, RingOk, Indexed, DataReceived, Conn.HandleEvent, Arrived, Sender.GotPacket, LearnedAll, CumulPanics, IndexPanics,
           Conn.Accepts, Conn.LockedOn, SetOf;
      SameIndexPanics(p);
      panicked, out := false, [];
      SenderOk();
      var ok := Admit(p, from);
      if !ok {
        NothingSent();
        return;
      }
      panicked := rcv.NoteArrival(p);
      if panicked {
        return;
      }
      panicked := snd.GotPack(p);
      if panicked {
        return;
      }
      panicked, out := Dispatch(p);
      if panicked {
        return;
      }
      SendAcks(out);
    }

    lemma SameIndexPanics(p: Packet)
      ensures forall r :: IndexPanics(Arrived(r, p), p) == IndexPanics(r, p)
      ensures p.event != EventData ==> forall r :: !IndexPanics(r, p)
    {
    }

    lemma SenderOk()
      requires snd.Valid()
      ensures Sender.Ok(snd.View())
    {
      IndexedInRange(snd.Txq[..], snd.SendHistory, snd.SentButNotAckedBySeqNum.items, snd.SentButNotAckedByDeadline.items);
    }

    lemma NothingSent()
      ensures SetOf([]) == {}
    {
    }

    /** The acceptSend arm: open only while the peer offers room for one more message
        and one more byte. If the slot taken is still indexed, its unacknowledged
        frame is overwritten and in no slot any more; Windows shows when that is. */
    method AcceptSend(data: seq<byte>, account: Option<nat>, cliAcked: bool, deadline: int)
      returns (accepted: bool, out: seq<Packet>)
      requires Valid() && Conn.Live(conn.View())
      modifies snd, snd.Txq, snd.SentButNotAckedByDeadline, snd.SentButNotAckedBySeqNum
      ensures Sender.Ok(old(snd.View())) && accepted == Sender.GateOpen(old(snd.View())) == old(snd.HasRoom())
      ensures !accepted ==> Valid() && View() == old(View()) && out == []
      ensures accepted ==>
                var s := Act(old(View()), Push(data, account, cliAcked), {});
                && (!s.Overrun? ==> Valid() && s == Stepped(View(), SetOf(out)))
                && (s.Overrun? ==>
                      forall i :: 0 <= i < snd.Txq.Length ==> snd.Txq[i].frame.seqNum != old(snd.View()).acked + 1)
    {
      hide Ring, RingOk, Indexed, Stream;
      snd.ValidShaped();
      var bytesInflight, msgInflight := snd.ComputeInflight();
      accepted := snd.LastSeenAvailReaderMsgCap - msgInflight > 0 && snd.LastSeenAvailReaderBytesCap - bytesInflight > 0;
      out := [];
      if accepted {
        ghost var slots, history := snd.Txq[..], snd.SendHistory;
        ghost var bySeq, byDl := snd.SentButNotAckedBySeqNum.items, snd.SentButNotAckedByDeadline.items;
        var p := snd.DoOrigDataSend(data, account, cliAcked, deadline);
        Overwrites(slots, history, bySeq, byDl, snd.SendHistory[|history|], deadline);
        out := [p];
        assert SetOf([p]) == {p};
      }
    }

    lemma Overwrites(slots: seq<TxqSlot>, history: seq<Frame>, bySeq: seq<int>, byDl: seq<int>, f: Frame, deadline: int)
      requires Indexed(slots, history, bySeq, byDl) && f.seqNum == |history|
      ensures |bySeq| <= |slots| && slots != []
      ensures var s := slots[Slot(|history|, |slots|) := TxqSlot(f, deadline)];
              |bySeq| >= |slots| ==> forall i :: 0 <= i < |s| ==> s[i].frame.seqNum != |history| - |bySeq|
    {
      if |bySeq| == |slots| {
        OldestOverwritten(slots, history, bySeq, byDl, f, deadline);
      }
    }

    /** The regularIntervalWakeup arm: exactly the indexed frames whose deadline has passed. */
    method RetryDue(now: int, newDeadline: int -> int) returns (ghost frames: set<int>, out: seq<Packet>)
      requires Valid() && Conn.Live(conn.View())
      modifies snd.Txq, snd.SentButNotAckedByDeadline, snd.SentButNotAckedBySeqNum
      ensures Valid() && Sender.Ok(old(snd.View())) && snd.Txq.Length > 0
      ensures frames == DueFrames(old(snd.Txq[..]), old(snd.SendHistory), old(snd.View()).acked + 1, now)
      ensures OneStep(old(View()), Retry(frames), View(), out)
    {
      hide Ring, RingOk, Indexed, Sorted, DuePrefix, Resent, Sender.DataPacket, Stream;
      SenderOk();
      ghost var bySeq, byDl := snd.SentButNotAckedBySeqNum.items, snd.SentButNotAckedByDeadline.items;
      ghost var slots := snd.Txq[..];
      SweepFrames(snd.View(), rcv.FlowCt.View(), slots, bySeq, byDl, now);
      IndexedInRange(slots, snd.SendHistory, bySeq, byDl);
      SameStamps(slots, byDl, now);
      frames := DueFrames(slots, snd.SendHistory, |snd.SendHistory| - |bySeq|, now);
      out := snd.RetrySweep(now, newDeadline);
    }

    lemma SameStamps(slots: seq<TxqSlot>, byDl: seq<int>, now: int)
      requires InRange(slots, byDl)
      ensures var due := DuePrefix(slots, byDl, now);
              Resent(snd.Stamps(), snd.FlowCt.View(), slots, due) == Resent(snd.View(), snd.FlowCt.View(), slots, due)
    {
    }

    /** Delivery of everything ready over ReadMessagesCh. */
    method DeliverReady() returns (delivery: seq<Packet>, out: seq<Packet>)
      requires Valid() && Conn.Live(conn.View()) && rcv.ReadyForDelivery != []
      modifies this`app, snd`RemoteSessNonce, rcv, rcv.FlowCt
      ensures Valid() && delivery == old(rcv.ReadyForDelivery)
      ensures OneStep(old(View()), Consume, View(), out)
    {
      hide Ring, RingOk, Indexed, Delivered, LearnedAll, Unread, SetOf;
      SenderOk();
      var ack;
      app := app + Unread(rcv.ReadyForDelivery);
      delivery, ack := rcv.DeliverToConsumer();
      out := [ack];
      SendAcks(out);
    }

    /** A read request into buf. */
    method ReadRequest(buf: array<byte>) returns (n: nat, out: seq<Packet>)
      requires Valid() && Conn.Live(conn.View())
      requires forall i :: 0 <= i < |rcv.ReadyForDelivery| ==>
                 rcv.ReadyForDelivery[i].dataOffset <= |rcv.ReadyForDelivery[i].data|
      modifies this`app, snd`RemoteSessNonce, rcv, rcv.FlowCt, buf
      ensures Valid() && n <= buf.Length && app == old(app) + buf[..n]
      ensures OneStep(old(View()), Read(buf.Length), View(), out)
    {
      hide Ring, RingOk, Indexed, ReadInto, LearnedAll, SetOf;
      SenderOk();
      n, out := rcv.FillAsMuchAsPossible(buf);
      app := app + buf[..n];
      SendAcks(out);
    }

    /** doKeepAlive: only with somebody to write to, and after an interval without any
        other packet. */
    method DoKeepAlive(sinceLastSend: int, interval: int) returns (sent: bool, out: seq<Packet>)
      requires Valid() && Conn.Live(conn.View())
      ensures Sender.Ok(snd.View()) && sent == (Allowed(View(), KeepAlive, {}) && sinceLastSend >= interval)
      ensures if sent then OneStep(View(), KeepAlive, View(), out) else out == []
    {
      hide Ring, RingOk, Indexed;
      SenderOk();
      if !hasDest || snd.RemoteSessNonce == "" {
        return false, [];
      }
      if sinceLastSend < interval {
        return false, [];
      }
      var flow := snd.FlowCt.View();
      var p := Packet(snd.LocalSessNonce, snd.RemoteSessNonce, EventKeepAlive, conn.TcpState, -777,
                      rcv.recvLastFrameClientConsumed, flow.msgCap, flow.bytesCap, 0, [], 0);
      sent, out := true, [p];
      assert SetOf([p]) == {p};
    }

    /** doSendClosing: a FIN, without any change of local state. */
    method DoSendClosing() returns (out: seq<Packet>)
      requires Valid() && Conn.Live(conn.View())
      ensures OneStep(View(), Close, View(), out)
    {
      hide Ring, RingOk, Indexed;
      SenderOk();
      var flow := snd.FlowCt.View();
      var p := Packet(snd.LocalSessNonce, snd.RemoteSessNonce, EventFin, Fresh, -888, 0,
                      flow.msgCap, flow.bytesCap, 0, [], 0);
      out := [p];
      assert SetOf([p]) == {p};
    }

    /** The ConnectCh arm: one Dial step, or an error for another remote. */
    method ConnectRequest(destInbox: string) returns (err: ConnectError, out: seq<Packet>)
      requires Valid() && Conn.Live(conn.View())
      modifies conn
      ensures Valid()
      ensures err == LockedElsewhere <==> Foreign(old(conn.RemoteInbox), destInbox)
      ensures err == LockedElsewhere ==> View() == old(View()) && out == []
      ensures err != LockedElsewhere && destInbox != "" ==> OneStep(old(View()), Action.Dial, View(), out)
    {
      hide Ring, RingOk, Indexed, SetOf;
      SenderOk();
      err, out := conn.Connect(destInbox);
    }

    /** The retryTimerCh arm. */
    method RetryTimerFired(elapsed: int) returns (panicked: bool, out: seq<Packet>)
      requires Valid() && Conn.Live(conn.View())
      modifies snd`RemoteSessNonce, conn, rcv, rcv.FlowCt
      ensures elapsed <= SECOND ==> !panicked && Valid() && out == [] && rcv.View() == old(rcv.View())
      ensures elapsed <= SECOND ==> conn.View() == Waited(old(conn.View()))
      ensures elapsed > SECOND ==>
                if panicked then TimerPanics(old(View())) else Valid() && OneStep(old(View()), RetryTimer, View(), out)
    {
      hide Ring, RingOk, Indexed, LearnedAll, SetOf, Conn.DoAction;
      SenderOk();
      panicked, out := conn.RetryCheck(elapsed);
      if panicked {
        return;
      }
      SendAcks(out);
    }
  }
}
