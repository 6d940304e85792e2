/** What an observer of one end can write down during a run, and that it determines the
    state of that end: which frames arrived, which of them in the window, which frames
    are unacknowledged, and what the peer offered last. */
module Records {
  import opened Tcp
  import opened Packets
  import opened FlowControl
  import opened Receiver
  import opened Links
  import opened Ledgers
  import opened Protocol
  import opened Safety
  import opened Liveness
  import opened Freshness
  import opened Reactions
  import Sender
  import Conn

  datatype Record = Record(
    seen: set<int>,  // frames that arrived
    kept: set<int>,  // frames that arrived while they were in the window
    dropped: nat,    // how often a frame arrived outside it
    open: set<int>,  // frames sent and not acknowledged since
    offer: Flow)     // the capacities that the peer gave last

  /** Before the first packet a session takes its own window and 1 MiB for the peer's. */
  function Blank(c: Config): Record {
    Record({}, {}, 0, {}, Flow(c.window, 1_048_576))
  }

  predicate InsideWindow(r: Receiver, n: int) {
    r.nextExpected <= n < r.nextExpected + r.window
  }

  function Above(s: set<int>, n: int): set<int> {
    set k | k in s && k > n
  }

  /** What is written down about one step of e. */
  function Noting(rec: Record, e: Endpoint, a: Action): Record {
    match a
    case Push(_, _, _) => rec.(open := rec.open + {|e.snd.history|})
    case Deliver(p) =>
      if !Takes(e, p) then rec
      else
        var r := rec.(open := Above(rec.open, p.ackNum), offer := Flow(p.msgCap, p.bytesCap));
        if p.event != EventData then r
        else if InsideWindow(e.rcv, p.seqNum) then r.(seen := r.seen + {p.seqNum}, kept := r.kept + {p.seqNum})
        else r.(seen := r.seen + {p.seqNum}, dropped := r.dropped + 1)
    case _ => rec
  }

  /** What is written down about end a during the run ls. */
  ghost function RecordOf(rec: Record, w: World, ls: seq<Label>): Record
    requires Runs(w, ls)
    decreases |ls|
  {
    if ls == [] then rec
    else
      var rec1 := match ls[0]
                  case Do(side, action) => if side.A? then Noting(rec, w.a, action) else rec
                  case Lose(_, _) => rec;
      RecordOf(rec1, Next(w, ls[0]), ls[1..])
  }

  ghost predicate IsHighest(s: set<int>, h: int) {
    h >= -1 && (h == -1 || h in s) && forall k :: k in s ==> k <= h
  }

  ghost predicate IsFirstMissing(s: set<int>, n: int) {
    n >= 0 && n !in s && forall k :: 0 <= k < n ==> k in s
  }

  /** The receiver is what arrived makes it: it waits for the first frame that has not
      arrived in its window, buffers those behind it, and holds what was not consumed. */
  ghost predicate ReceiverRecorded(rec: Record, r: Receiver) {
    && IsHighest(rec.seen, r.largest) && IsFirstMissing(rec.kept, r.nextExpected) && rec.kept <= rec.seen
    && (forall k :: k in r.waiting <==> k in rec.kept && k > r.nextExpected)
    && (forall k :: k in r.held <==> k in rec.seen && k > r.lastMsg)
    && r.discards == rec.dropped
  }

  /** In the retry indices are exactly the frames that no packet acknowledged, and the
      gate goes by the last packet, whatever it was. */
  ghost predicate SenderRecorded(rec: Record, s: Sender.Sender) {
    && (forall n :: n in rec.open <==> s.acked < n < |s.history|)
    && rec.offer == Flow(s.msgCap, s.bytesCap)
  }

  ghost predicate Recorded(rec: Record, e: Endpoint) {
    ReceiverRecorded(rec, e.rcv) && SenderRecorded(rec, e.snd)
  }

  // ----- the receiver -----

  /** A frame outside the window is held if it is new, and dropped. */
  lemma DroppedRecorded(rec: Record, r: Receiver, p: Packet)
    requires ReceiverRecorded(rec, r) && p.seqNum >= 0 && !InsideWindow(r, p.seqNum) && r.lastMsg < r.nextExpected
    ensures ReceiverRecorded(rec.(seen := rec.seen + {p.seqNum}, dropped := rec.dropped + 1), DataReceived(Arrived(r, p), p).0)
  {
    if p.seqNum < r.nextExpected {
      assert p.seqNum in rec.kept;
    }
  }

  lemma StoredRecorded(rec: Record, r: Receiver, p: Packet)
    requires ReceiverRecorded(rec, r) && InsideWindow(r, p.seqNum) && p.seqNum != r.nextExpected && r.lastMsg < r.nextExpected
    ensures ReceiverRecorded(rec.(seen := rec.seen + {p.seqNum}, kept := rec.kept + {p.seqNum}),
                             DataReceived(Arrived(r, p), p).0)
  {
  }

  /** The frame that was missing: the next one missing is behind the whole run. */
  lemma DrainedRecorded(rec: Record, r: Receiver, p: Packet)
    requires ReceiverRecorded(rec, r) && p.seqNum == r.nextExpected && r.window >= 1 && r.lastMsg < r.nextExpected
    ensures ReceiverRecorded(rec.(seen := rec.seen + {p.seqNum}, kept := rec.kept + {p.seqNum}),
                             DataReceived(Arrived(r, p), p).0)
  {
    var n, w := r.nextExpected, r.waiting[p.seqNum := p];
    var run, after := Run(w, n), AfterRun(w, n);
    RunIsMaximal(w, n);
    RunStarts(w, n);
    hide Run, AfterRun;
    var kept := rec.kept + {p.seqNum};
    forall k | 0 <= k < n + |run|
      ensures k in kept
    {
      if k >= n { assert k in w; }
    }
    assert n + |run| !in w;
    assert IsFirstMissing(kept, n + |run|);
    forall k
      ensures k in after <==> k in kept && k > n + |run|
    {
      assert k in after <==> k in w && !(n <= k < n + |run|);
    }
  }

  lemma DataRecorded(rec: Record, r: Receiver, p: Packet)
    requires ReceiverRecorded(rec, r) && p.seqNum >= 0 && r.window >= 1 && r.lastMsg < r.nextExpected
    ensures var seen := rec.seen + {p.seqNum};
            ReceiverRecorded(if InsideWindow(r, p.seqNum) then rec.(seen := seen, kept := rec.kept + {p.seqNum})
                             else rec.(seen := seen, dropped := rec.dropped + 1), DataReceived(Arrived(r, p), p).0)
  {
    if !InsideWindow(r, p.seqNum) {
      DroppedRecorded(rec, r, p);
    } else if p.seqNum == r.nextExpected {
      DrainedRecorded(rec, r, p);
    } else {
      StoredRecorded(rec, r, p);
    }
  }

  /** The fields that a record determines, and how far consumption has come. */
  predicate SameLedgers(r: Receiver, r': Receiver) {
    && r'.largest == r.largest && r'.nextExpected == r.nextExpected && r'.waiting == r.waiting && r'.held == r.held
    && r'.lastMsg == r.lastMsg && r'.discards == r.discards
  }

  lemma ControlSame(r: Receiver, p: Packet)
    ensures SameLedgers(r, Control(r))
    ensures p.seqNum <= r.largest ==> SameLedgers(r, Arrived(r, p))
  {
  }

  lemma LedgersRecorded(rec: Record, r: Receiver, r': Receiver)
    requires ReceiverRecorded(rec, r) && SameLedgers(r, r')
    ensures ReceiverRecorded(rec, r')
  {
  }

  lemma ConsumedRecorded(rec: Record, r: Receiver, r': Receiver, history: seq<Frame>, app: seq<byte>, n: nat)
    requires ReceiverRecorded(rec, r) && ReceiverInv(r, history, app) && WellNumbered(history) && ConsumedTo(r, r', n)
    ensures ReceiverRecorded(rec, r')
  {
    NumbersOf(r.ready, r.lastMsg + 1, history, n);
    hide ReceiverInv, WellNumbered, Numbers;
  }

  lemma ConsumeRecorded(rec: Record, r: Receiver, history: seq<Frame>, app: seq<byte>)
    requires ReceiverRecorded(rec, r) && ReceiverInv(r, history, app) && WellNumbered(history) && r.ready != []
    ensures ReceiverRecorded(rec, Delivered(r).0)
  {
    HandedAllConsumes(r, history, app);
    ConsumedRecorded(rec, r, HandedAll(r), history, app, |r.ready|);
    ControlSame(HandedAll(r), Conn.NoPacket());
    hide ReceiverInv, WellNumbered, Numbers, ReceiverRecorded, Control, ConsumedTo;
    LedgersRecorded(rec, HandedAll(r), Control(HandedAll(r)));
  }

  lemma ReadRecorded(rec: Record, r: Receiver, history: seq<Frame>, app: seq<byte>, room: nat)
    requires ReceiverRecorded(rec, r) && ReceiverInv(r, history, app) && WellNumbered(history)
    ensures ReceiverRecorded(rec, ReadInto(r, room).0)
  {
    hide ReceiverInv, WellNumbered, Numbers, ReceiverRecorded, Control, Filled, Progressed, ConsumedTo;
    var f := Filled(r.ready, room);
    ProgressedTo(r, history, app, f);
    ConsumedRecorded(rec, r, Progressed(r, f), history, app, f.completed);
    ControlSame(Progressed(r, f), Conn.NoPacket());
    LedgersRecorded(rec, Progressed(r, f), Control(Progressed(r, f)));
  }

  // ----- the sender -----

  lemma PacketRecorded(rec: Record, s: Sender.Sender, p: Packet)
    requires SenderRecorded(rec, s) && Sender.Ok(s)
    ensures SenderRecorded(rec.(open := Above(rec.open, p.ackNum), offer := Flow(p.msgCap, p.bytesCap)), Sender.GotPacket(s, p))
  {
    hide Sender.CreditAll;
  }

  lemma SentRecorded(rec: Record, s: Sender.Sender, data: seq<byte>, account: Option<nat>, cli: bool)
    requires SenderRecorded(rec, s) && Sender.Ok(s)
    ensures SenderRecorded(rec.(open := rec.open + {|s.history|}), Sender.Sent(s, data, account, cli))
  {
  }

  lemma LearnedRecorded(rec: Record, s: Sender.Sender, acks: seq<Packet>)
    requires SenderRecorded(rec, s)
    ensures SenderRecorded(rec, LearnedAll(s, acks))
  {
    LearnedOnlyRemote(s, acks);
  }

  // ----- every step -----

  lemma ArriveRecorded(rec: Record, x: Endpoint, y: Endpoint, xy: set<Packet>, yx: set<Packet>, p: Packet)
    requires Pair(x, y, xy, yx) && p in yx && Sender.Ok(x.snd) && Arrive(x, p).Stepped? && Recorded(rec, x)
    ensures Recorded(Noting(rec, x, Deliver(p)), Arrive(x, p).e)
  {
    hide Link, SenderInv, ReceiverInv, Arrived, Control, DataReceived, Conn.HandleEvent, Conn.Accepts, Conn.LockedOn, Takes,
         LocksOn, ArrivalPanics, Sender.GotPacket, LearnedAll, ReceiverRecorded, SenderRecorded, InsideWindow;
    ArriveFacts(x, y, xy, yx, p);
    TakesExactly(x, p);
    var (r0, c0) := Conn.LockedOn(x.rcv, x.conn, p);
    LedgersRecorded(rec, x.rcv, r0);
    if Takes(x, p) {
      PacketRecorded(rec, x.snd, p);
      var rec1 := rec.(open := Above(rec.open, p.ackNum), offer := Flow(p.msgCap, p.bytesCap));
      SameArrivals(rec, rec1, r0);
      var r1, s1 := Arrived(r0, p), Sender.GotPacket(x.snd, p);
      SameWindow(x.rcv, r0, p.seqNum);
      if p.event == EventData {
        DataRecorded(rec1, r0, p);
        LearnedRecorded(Noting(rec, x, Deliver(p)), s1, DataReceived(r1, p).1) by { SameOffers(rec1, Noting(rec, x, Deliver(p)), s1); }
      } else {
        var o := Conn.HandleEvent(r1, c0, p.event, p);
        ControlSame(r0, p);
        ControlTwice(r0, p);
        EventRemote(r1, c0, p.event, p);
        LedgersRecorded(rec1, r0, o.r);
        LearnedRecorded(rec1, s1, o.acks);
      }
    }
  }

  lemma SameWindow(r: Receiver, r': Receiver, n: int)
    requires r'.nextExpected == r.nextExpected && r'.window == r.window
    ensures InsideWindow(r, n) == InsideWindow(r', n)
  {
  }

  lemma SameArrivals(rec: Record, rec': Record, r: Receiver)
    requires rec'.seen == rec.seen && rec'.kept == rec.kept && rec'.dropped == rec.dropped
    ensures ReceiverRecorded(rec, r) == ReceiverRecorded(rec', r)
  {
  }

  lemma SameOffers(rec: Record, rec': Record, s: Sender.Sender)
    requires rec'.open == rec.open && rec'.offer == rec.offer
    ensures SenderRecorded(rec, s) == SenderRecorded(rec', s)
  {
  }

  lemma ArriveFacts(x: Endpoint, y: Endpoint, xy: set<Packet>, yx: set<Packet>, p: Packet)
    requires Pair(x, y, xy, yx) && p in yx
    ensures x.rcv.window >= 1 && -1 <= x.rcv.lastMsg < x.rcv.nextExpected && x.rcv.largest >= -1
    ensures if p.event == EventData then p.seqNum >= 0 else p.seqNum < -1
  {
    hide Stream, Carries, ReadyOk, TakenOf;
    HonestIn(x, y, xy, yx, p);
  }

  lemma ActRecorded(rec: Record, x: Endpoint, y: Endpoint, xy: set<Packet>, yx: set<Packet>, a: Action)
    requires Pair(x, y, xy, yx) && Sender.Ok(x.snd) && Allowed(x, a, yx) && Act(x, a, yx).Stepped? && Recorded(rec, x)
    ensures Recorded(Noting(rec, x, a), Act(x, a, yx).e)
  {
    hide Link, SenderInv, ReceiverInv, WellNumbered, Arrive, ReadInto, Delivered, Conn.DoAction, LearnedAll, Unread,
         Sender.Sent, Sender.GateOpen, ReceiverRecorded, SenderRecorded;
    PairFacts(x, y, xy, yx);
    match a
    case Push(data, account, cli) =>
      SentRecorded(rec, x.snd, data, account, cli);
      SameArrivals(rec, Noting(rec, x, a), x.rcv);
    case Deliver(p) => ArriveRecorded(rec, x, y, xy, yx, p);
    case Consume =>
      ConsumeRecorded(rec, x.rcv, y.snd.history, x.app);
      LearnedRecorded(rec, x.snd, [Delivered(x.rcv).1]);
    case Read(room) =>
      ReadRecorded(rec, x.rcv, y.snd.history, x.app, room);
      LearnedRecorded(rec, x.snd, ReadInto(x.rcv, room).2);
    case RetryTimer =>
      var o := Conn.Retried(x.rcv, x.conn);
      LearnedRecorded(rec, x.snd, o.acks);
      ActionLedgers(x.rcv, x.conn.(attempts := x.conn.attempts + 1), x.conn.retryAction, x.conn.causal);
      LedgersRecorded(rec, x.rcv, o.r);
    case _ =>
  }

  lemma ActionLedgers(r: Receiver, c: Conn.Conn, act: TcpAction, p: Packet)
    ensures var o := Conn.DoAction(r, c, act, p); o.Does? ==> SameLedgers(r, o.r)
  {
  }

  lemma {:induction false} RunRecorded(rec: Record, w: World, ls: seq<Label>)
    requires Inv(w) && Runs(w, ls) && Recorded(rec, w.a)
    ensures Recorded(RecordOf(rec, w, ls), After(w, ls).a)
    decreases |ls|
  {
    hide Link, Act, Allowed, Recorded, Noting;
    if ls != [] {
      StepKeeps(w, ls[0]);
      match ls[0]
      case Do(side, action) =>
        if side.A? {
          ActRecorded(rec, w.a, w.b, w.toB, w.toA, action);
          RunRecorded(Noting(rec, w.a, action), Next(w, ls[0]), ls[1..]);
        } else {
          RunRecorded(rec, Next(w, ls[0]), ls[1..]);
        }
      case Lose(_, _) => RunRecorded(rec, Next(w, ls[0]), ls[1..]);
    }
  }

  /** At first a session itself offers nothing. */
  lemma BlankRecorded(c: Config)
    ensures Recorded(Blank(c), NewEndpoint(c)) && NewEndpoint(c).rcv.flow == Flow(0, 0)
  {
  }

  /** The state of both ends after every run is what their records say. */
  lemma RecordHolds(ca: Config, cb: Config, ls: seq<Label>)
    requires GoodConfig(ca) && GoodConfig(cb) && Runs(Start(ca, cb), ls)
    ensures Recorded(RecordOf(Blank(ca), Start(ca, cb), ls), After(Start(ca, cb), ls).a)
    ensures Runs(Flip(Start(ca, cb)), FlipAll(ls))
    ensures Recorded(RecordOf(Blank(cb), Flip(Start(ca, cb)), FlipAll(ls)), After(Start(ca, cb), ls).b)
  {
    hide Inv, Runs, After, Recorded, RecordOf;
    StartInv(ca, cb);
    StartInv(cb, ca);
    BlankRecorded(ca);
    BlankRecorded(cb);
    RunRecorded(Blank(ca), Start(ca, cb), ls);
    FlipRun(Start(ca, cb), ls);
    RunRecorded(Blank(cb), Start(cb, ca), FlipAll(ls));
  }
}
