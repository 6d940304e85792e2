/** When a slot of the send ring may be taken: doOrigDataSend writes slot
    LastFrameSent modulo SenderWindowSize without asking whether its last frame has
    left the retry indices. That is always so if and only if the peer's window is no
    larger than the own one. */
module Windows {
  import opened Tcp
  import opened Packets
  import opened Receiver
  import opened Links
  import opened Protocol
  import opened Safety
  import opened Theorems
  import opened Handshake
  import opened Opening
  import opened Liveness
  import opened Scenarios
  import opened Wedge
  import opened Slots
  import opened FlowControl
  import opened RetryTree
  import opened SendLoop
  import Sender
  import Conn

  /** No two frames in flight share a slot of the ring, so each is still stored. */
  ghost predicate AllStored(s: Sender.Sender) {
    s.window >= 1 && forall n, m :: 0 <= n && s.acked < n < m < |s.history| ==> Slot(n, s.window) != Slot(m, s.window)
  }

  /** If the gate is open, a push leaves all frames in flight stored. */
  ghost predicate PushesFit(s: Sender.Sender) {
    Sender.Ok(s) && (Sender.GateOpen(s) ==> AllStored(Sender.Sent(s, [], None, false)))
  }

  ghost predicate AlwaysFits(ca: Config, cb: Config) {
    forall ls :: Runs(Start(ca, cb), ls) ==> PushesFit(After(Start(ca, cb), ls).a.snd)
  }

  /** Frames in flight keep their slots exactly as long as they are no more than slots. */
  lemma StoredExactly(s: Sender.Sender)
    requires Sender.Ok(s) && s.window >= 1
    ensures AllStored(s) <==> Sender.InflightMsgs(s) <= s.window
  {
    var w := s.window;
    if Sender.InflightMsgs(s) <= w {
      forall n, m | 0 <= n && s.acked < n < m < |s.history|
        ensures Slot(n, w) != Slot(m, w)
      {
        SlotDistinct(n, m, w);
      }
    } else {
      SlotAgain(s.acked + 1, w);
    }
  }

  /** A push into a free slot leaves everything stored; one into an indexed slot does not. */
  lemma FitsExactly(s: Sender.Sender)
    requires Sender.Ok(s) && s.window >= 1
    ensures PushesFit(s) <==> (Sender.GateOpen(s) ==> Sender.SlotFree(s))
  {
    hide Sender.GateOpen, AllStored;
    StoredExactly(Sender.Sent(s, [], None, false));
  }

  lemma SmallerPeerFits(ca: Config, cb: Config, ls: seq<Label>)
    requires GoodConfig(ca) && GoodConfig(cb) && cb.window <= ca.window && Runs(Start(ca, cb), ls)
    ensures PushesFit(After(Start(ca, cb), ls).a.snd)
  {
    hide Link, Runs, After, Start, Sender.GateOpen, PushesFit;
    StartInv(ca, cb);
    StartWindows(ca, cb);
    WindowsFixed(Start(ca, cb), ls);
    RunKeeps(Start(ca, cb), ls);
    var w := After(Start(ca, cb), ls);
    PairFacts(w.a, w.b, w.toB, w.toA);
    FitsExactly(w.a.snd);
    if Sender.GateOpen(w.a.snd) {
      SlotIsFree(w.a, w.b, w.toB, w.toA);
    }
  }

  /** With such a peer every push that the gate lets through is a step of the protocol,
      so that the theorems about runs cover everything the code does. */
  lemma EveryPushSteps(ca: Config, cb: Config, ls: seq<Label>, data: seq<byte>, account: Option<nat>, cli: bool)
    requires GoodConfig(ca) && GoodConfig(cb) && cb.window <= ca.window && Runs(Start(ca, cb), ls)
    ensures var w := After(Start(ca, cb), ls);
            Sender.Ok(w.a.snd) && (Allowed(w.a, Push(data, account, cli), w.toA) ==> CanStep(w, Do(A, Push(data, account, cli))))
  {
    hide Link, Runs, After, Start, Sender.GateOpen;
    StartInv(ca, cb);
    RunKeeps(Start(ca, cb), ls);
    var w := After(Start(ca, cb), ls);
    PairFacts(w.a, w.b, w.toB, w.toA);
    SmallerPeerFits(ca, cb, ls);
    FitsExactly(w.a.snd);
  }

  // ----- filling the ring -----

  /** a has pushed k empty messages beyond frame base, none of them acknowledged yet,
      and the packet of the last one is on its way to b. */
  ghost predicate Flooding(w: World, b: Endpoint, base: int, k: nat, m: int, window: int) {
    && Reached(w) && Conn.Live(w.a.conn) && w.b == b
    && w.a.snd.acked == base >= -1 && |w.a.snd.history| == base + 1 + k && Stream(w.a.snd.history) == []
    && w.a.snd.msgCap == m && w.a.snd.bytesCap >= 1 && w.a.snd.window == window
    && (k > 0 ==> exists p :: p in w.toB && p.event == EventData && p.seqNum == base + k)
  }

  lemma FloodGate(s: Sender.Sender)
    requires Sender.Ok(s) && Stream(s.history) == [] && s.bytesCap >= 1
    ensures Sender.GateOpen(s) <==> Sender.InflightMsgs(s) < s.msgCap
  {
    SuffixShorter(s.history, 0, s.acked + 1, |s.history|);
    assert s.history[0..|s.history|] == s.history;
    assert s.history[s.acked + 1..|s.history|] == s.history[s.acked + 1..];
  }

  lemma FloodOne(w: World, b: Endpoint, base: int, k: nat, m: int, window: int)
    requires Flooding(w, b, base, k, m, window) && k < m && k < window
    ensures exists v :: Reaches(w, v) && Flooding(v, b, base, k + 1, m, window)
  {
    hide Reached, Reaches, Stream, Sender.GateOpen, Sender.Sent, Sender.DataPacket;
    FloodGate(w.a.snd);
    FloodSent(w.a.snd, w.a.rcv.flow);
    var l := Do(A, Push([], None, false));
    ReachedStep(w, l);
    var v := Next(w, l);
    assert Sender.DataPacket(v.a.snd, w.a.rcv.flow, v.a.snd.history[base + 1 + k]) in v.toB;
    ReachesSelf(w);
    ReachesStep(w, w, l);
    assert Flooding(v, b, base, k + 1, m, window);
  }

  lemma FloodSent(s: Sender.Sender, flow: Flow)
    requires Stream(s.history) == []
    ensures var t := Sender.Sent(s, [], None, false);
            && |t.history| == |s.history| + 1 && Stream(t.history) == [] && t.acked == s.acked
            && t.msgCap == s.msgCap && t.bytesCap == s.bytesCap && t.window == s.window
            && var p := Sender.DataPacket(t, flow, t.history[|s.history|]); p.event == EventData && p.seqNum == |s.history|
  {
    var t := Sender.Sent(s, [], None, false);
    assert t.history[..|s.history|] == s.history;
  }

  lemma {:induction false} Flood(w: World, b: Endpoint, base: int, k: nat, m: int, window: int, n: nat)
    requires Flooding(w, b, base, k, m, window) && k <= n <= m && n <= window
    ensures exists v :: Reaches(w, v) && Flooding(v, b, base, n, m, window)
    decreases n - k
  {
    hide Flooding, Reaches;
    if k == n {
      ReachesSelf(w);
    } else {
      FloodOne(w, b, base, k, m, window);
      var u :| Reaches(w, u) && Flooding(u, b, base, k + 1, m, window);
      Flood(u, b, base, k + 1, m, window, n);
      var v :| Reaches(u, v) && Flooding(v, b, base, n, m, window);
      ReachesTrans(w, u, v);
    }
  }

  // ----- a larger peer window overruns the ring -----

  /** After SYN and SYN-ACK a may send as many messages as the peer's window has. */
  lemma FloodStarts(ca: Config, cb: Config)
    requires GoodConfig(ca) && GoodConfig(cb)
    ensures exists v :: Reaches(Start(ca, cb), v) && Flooding(v, v.b, -1, 0, cb.window, ca.window)
  {
    hide Reached, Start, Runs, After;
    HalfRun(ca, cb);
    var v, q, p :| DialsTo(Start(ca, cb), v) && Half(v, q, p, ca, cb);
    DialsReaches(Start(ca, cb), v);
    ReachedBy(ca, cb, v);
    assert Flooding(v, v.b, -1, 0, cb.window, ca.window);
  }

  lemma LargerPeerOverruns(ca: Config, cb: Config)
    requires GoodConfig(ca) && GoodConfig(cb) && cb.window > ca.window
    ensures !AlwaysFits(ca, cb)
  {
    hide Start, Reached, Runs, After;
    FloodStarts(ca, cb);
    var u :| Reaches(Start(ca, cb), u) && Flooding(u, u.b, -1, 0, cb.window, ca.window);
    Flood(u, u.b, -1, 0, cb.window, ca.window, ca.window);
    var v :| Reaches(u, v) && Flooding(v, u.b, -1, ca.window, cb.window, ca.window);
    FloodGate(v.a.snd);
    ReachesTrans(Start(ca, cb), u, v);
    var ls :| Runs(Start(ca, cb), ls) && After(Start(ca, cb), ls) == v;
    FitsExactly(v.a.snd);
    assert !PushesFit(After(Start(ca, cb), ls).a.snd);
  }

  /** Every push of every run finds its slot free if and only if the peer's window is
      no larger than the own one. */
  lemma SlotsFreeExactly(ca: Config, cb: Config)
    requires GoodConfig(ca) && GoodConfig(cb)
    ensures AlwaysFits(ca, cb) <==> cb.window <= ca.window
  {
    hide Start, Runs, After, PushesFit;
    if cb.window <= ca.window {
      forall ls | Runs(Start(ca, cb), ls)
        ensures PushesFit(After(Start(ca, cb), ls).a.snd)
      {
        SmallerPeerFits(ca, cb, ls);
      }
    } else {
      LargerPeerOverruns(ca, cb);
    }
  }

  // ----- what an overrun leads to -----

  lemma NothingIndexed(slots: seq<TxqSlot>, history: seq<Frame>, bySeq: seq<int>, byDl: seq<int>)
    requires Indexed(slots, history, bySeq, byDl) && history == []
    ensures bySeq == [] && byDl == []
  {
    IndexedInRange(slots, history, bySeq, byDl);
  }

  lemma NothingCredited(p: Packet)
    ensures Sender.GotPacket(Sender.Init("", 1), p).credited == map[]
    ensures Sender.GotPacket(Sender.Init("", 1), p).history == []
  {
  }

  lemma OneSlot(i: nat, slots: seq<TxqSlot>)
    requires |slots| == 1
    ensures Slot(i, 1) == 0 && SumBytes(slots, []) == 0 && SumBytes(slots, [0]) == |slots[0].frame.data|
  {
    assert SumBytes(slots, [0][1..]) == 0;
  }

  /** A send ring of one slot, and a peer that once offered two: whatever n is, n
      messages are let through one after the other although none is acknowledged. The
      slot is found in both trees, equal to itself, so one message is counted; all
      earlier ones are in no slot, and are neither sent again nor credited. */
  method OverrunsForever(n: nat, offer: Packet) returns (s: SenderState)
    requires offer.msgCap == 2 && offer.bytesCap >= 1
    ensures s.SenderWindowSize == 1 && s.LastSeenAvailReaderMsgCap == 2
    ensures |s.SendHistory| == n && s.LastFrameSent == n - 1 && s.NumBytesAcked == map[]
    ensures n > 0 ==> s.Txq.Length == 1 && s.Txq[0].frame == s.SendHistory[n - 1]
    ensures n > 0 ==> s.SentButNotAckedBySeqNum.items == s.SentButNotAckedByDeadline.items == [0]
  {
    hide Sorted, Stream, Sender.CreditAll, Indexed, SumBytes, Slot, Positions, Placed, SameItems;
    var flowCt := new FlowCtrl();
    s := new SenderState(1, "", flowCt);
    var panicked := s.GotPack(offer);
    s.ValidShaped();
    NothingIndexed(s.Txq[..], s.SendHistory, s.SentButNotAckedBySeqNum.items, s.SentButNotAckedByDeadline.items);
    NothingCredited(offer);
    for i := 0 to n
      invariant s.Shaped() && s.SenderWindowSize == 1 && fresh(s.Txq)
      invariant fresh(s) && fresh(s.SentButNotAckedByDeadline) && fresh(s.SentButNotAckedBySeqNum)
      invariant |s.SendHistory| == i && s.NumBytesAcked == map[]
      invariant s.LastSeenAvailReaderMsgCap == 2 && s.LastSeenAvailReaderBytesCap >= 1
      invariant i == 0 ==> s.SentButNotAckedBySeqNum.items == s.SentButNotAckedByDeadline.items == []
      invariant i > 0 ==> s.SentButNotAckedBySeqNum.items == s.SentButNotAckedByDeadline.items == [0]
      invariant i > 0 ==> s.Txq[0].frame == s.SendHistory[i - 1] && s.Txq[0].frame.data == []
    {
      OneSlot(i, s.Txq[..]);
      var bytesInflight, msgInflight := s.ComputeInflight();
      if s.LastSeenAvailReaderMsgCap - msgInflight > 0 && s.LastSeenAvailReaderBytesCap - bytesInflight > 0 {
        var p := s.DoOrigDataSend([], None, false, i);
      }
    }
  }

  // ----- the frame that is discarded although it is new -----

  /** Frame 0 was acknowledged by a second SYN-ACK, and was not delivered yet. */
  lemma AckedEarly(ca: Config, cb: Config)
    requires GoodNonces(ca, cb)
    ensures exists w :: Reaches(Start(ca, cb), w) && Flooding(w, w.b, 0, 0, cb.window, ca.window) && w.b.rcv.nextExpected == 0
                        && w.b.rcv.window == cb.window
  {
    hide Reached, Start, Reaches, CanStep, Next, Act, Allowed, ArrivalPanics, Arrived, Acked, Sender.GateOpen;
    var na, nb := ca.nonce, cb.nonce;
    Opens(ca, cb);
    var u, q :| Reaches(Start(ca, cb), u) && JustOpened(u, q, ca, cb);
    UpFacts(u, na, nb);
    var push := Push([], None, false);
    FirstPush(u.a, [], u.toA, na, nb);
    StepA(u, push, na, nb);
    var x := Next(u, Do(A, push));
    ReachesStep(Start(ca, cb), u, Do(A, push));
    NoPanicA(x, q, na, nb);
    InfoArrives(x.a, q, x.toA, na, nb);
    StepA(x, Deliver(q), na, nb);
    var w := Next(x, Do(A, Deliver(q)));
    ReachesStep(Start(ca, cb), x, Do(A, Deliver(q)));
    FirstAcked(x.a.snd, q);
  }

  lemma FirstAcked(s: Sender.Sender, q: Packet)
    requires Sender.Ok(s) && |s.history| == 1 && s.history[0].data == [] && q.ackNum == 0
    ensures var t := Sender.GotPacket(s, q);
            && t.acked == 0 && t.history == s.history && Stream(t.history) == []
            && t.msgCap == q.msgCap && t.bytesCap == q.bytesCap && t.window == s.window
  {
    hide Sender.CreditAll;
    assert s.history == [s.history[0]];
    StreamOne(s.history[0]);
  }

  /** The exception of DiscardsAreOld happens: frame W is on its way and outside the
      window of b, although b has not seen it. */
  lemma NewFrameDiscarded(ca: Config, cb: Config)
    requires GoodNonces(ca, cb) && ca.window == cb.window
    ensures exists v, p ::
              && Reaches(Start(ca, cb), v) && p in v.toB && p.event == EventData && p.seqNum == cb.window
              && v.b.rcv.nextExpected == 0 && v.a.snd.acked == 0 && DiscardsNew(v.b, p)
  {
    hide Start, Reached, Reaches;
    AckedEarly(ca, cb);
    var u :| Reaches(Start(ca, cb), u) && Flooding(u, u.b, 0, 0, cb.window, ca.window) && u.b.rcv.nextExpected == 0
             && u.b.rcv.window == cb.window;
    Flood(u, u.b, 0, 0, cb.window, ca.window, cb.window);
    var v :| Reaches(u, v) && Flooding(v, u.b, 0, cb.window, cb.window, ca.window);
    ReachesTrans(Start(ca, cb), u, v);
    var p :| p in v.toB && p.event == EventData && p.seqNum == cb.window;
  }
}
