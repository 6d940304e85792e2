/** The send gate, exactly: which messages are let through, one by one and in series,
    after every run and after every offer of the peer. */
module Gate {
  import opened Tcp
  import opened Packets
  import opened Receiver
  import opened Links
  import opened Protocol
  import opened Safety
  import opened Liveness
  import opened Reactions
  import opened Records
  import Sender
  import Conn

  // ----- one message -----

  lemma {:induction false} IntervalSize(s: set<int>, lo: int, hi: int)
    requires lo < hi && forall n :: n in s <==> lo < n < hi
    ensures |s| == hi - lo - 1
    decreases hi - lo
  {
    if hi == lo + 1 {
      forall n: int ensures n !in s {
        assert !(lo < n < hi);
      }
      assert s == {};
    } else {
      IntervalSize(s - {hi - 1}, lo, hi - 1);
    }
  }

  /** The bytes of the last n frames sent. */
  ghost function LastBytes(history: seq<Frame>, n: nat): nat
    requires n <= |history|
  {
    |Stream(history[|history| - n..])|
  }

  /** After every run a running session takes a message if and only if both offers of
      the last packet exceed what is unacknowledged. */
  lemma GateExactly(ca: Config, cb: Config, ls: seq<Label>, data: seq<byte>, account: Option<nat>, cli: bool)
    requires GoodConfig(ca) && GoodConfig(cb) && Runs(Start(ca, cb), ls)
    ensures var e, rec := After(Start(ca, cb), ls).a, RecordOf(Blank(ca), Start(ca, cb), ls);
            && Sender.Ok(e.snd) && |rec.open| <= |e.snd.history|
            && (Allowed(e, Push(data, account, cli), {}) <==>
                  Conn.Live(e.conn) && |rec.open| < rec.offer.msgCap && LastBytes(e.snd.history, |rec.open|) < rec.offer.bytesCap)
  {
    hide Inv, Runs, After, RecordOf, Start, ReceiverRecorded, Stream;
    var w := After(Start(ca, cb), ls);
    StartInv(ca, cb);
    RunKeeps(Start(ca, cb), ls);
    SenderFine(w);
    RecordHolds(ca, cb, ls);
    IntervalSize(RecordOf(Blank(ca), Start(ca, cb), ls).open, w.a.snd.acked, |w.a.snd.history|);
  }

  lemma SenderFine(w: World)
    requires Inv(w)
    ensures Sender.Ok(w.a.snd) && Sender.Ok(w.b.snd)
  {
    hide Stream, Carries, ReadyOk, TakenOf;
  }

  // ----- a series of messages -----

  predicate AllPushes(pushes: seq<Action>) {
    forall i :: 0 <= i < |pushes| ==> pushes[i].Push?
  }

  /** End a pushes them one after the other. */
  function Labels(pushes: seq<Action>): (ls: seq<Label>)
    ensures |ls| == |pushes| && forall i :: 0 <= i < |ls| ==> ls[i] == Do(A, pushes[i])
  {
    seq(|pushes|, i requires 0 <= i < |pushes| => Do(A, pushes[i]))
  }

  function BytesOf(pushes: seq<Action>): nat
    requires AllPushes(pushes)
  {
    if pushes == [] then 0 else |pushes[0].data| + BytesOf(pushes[1..])
  }

  /** When the first k messages are on their way there is still room for one more message
      and one more byte, and a free slot. */
  ghost predicate RoomAfter(s: Sender.Sender, msgCap: int, bytesCap: int, pushes: seq<Action>, k: nat)
    requires Sender.Ok(s) && AllPushes(pushes) && k <= |pushes|
  {
    var n := |s.history| - 1 - s.acked;
    && n + k < msgCap && LastBytes(s.history, n) + BytesOf(pushes[..k]) < bytesCap && n + k < s.window
  }

  lemma FirstFits(w: World, a: Action)
    requires Sender.Ok(w.a.snd) && Conn.Live(w.a.conn) && a.Push?
    ensures CanStep(w, Do(A, a)) <==> RoomAfter(w.a.snd, w.a.snd.msgCap, w.a.snd.bytesCap, [a], 0)
    ensures CanStep(w, Do(A, a)) ==>
              var v := Next(w, Do(A, a));
              && v.a == w.a.(snd := v.a.snd) && v.a.snd == Sender.Sent(w.a.snd, a.data, a.account, a.cliAcked)
  {
    hide Stream;
    assert [a][..0] == [];
  }

  /** A message sent shifts the condition by one. */
  lemma RestFits(s: Sender.Sender, pushes: seq<Action>, k: nat)
    requires Sender.Ok(s) && AllPushes(pushes) && 1 <= k <= |pushes|
    ensures var t := Sender.Sent(s, pushes[0].data, pushes[0].account, pushes[0].cliAcked);
            Sender.Ok(t) &&
            (RoomAfter(s, s.msgCap, s.bytesCap, pushes, k) <==> RoomAfter(t, t.msgCap, t.bytesCap, pushes[1..], k - 1))
  {
    var t := Sender.Sent(s, pushes[0].data, pushes[0].account, pushes[0].cliAcked);
    var f := t.history[|s.history|];
    assert t.history[s.acked + 1..] == s.history[s.acked + 1..] + [f];
    StreamConcat(s.history[s.acked + 1..], [f]);
    StreamOne(f);
    assert pushes[..k][1..] == pushes[1..][..k - 1];
    hide Stream;
  }

  lemma SameRoom(s: Sender.Sender, msgCap: int, bytesCap: int, pushes: seq<Action>)
    requires Sender.Ok(s) && AllPushes(pushes) && pushes != []
    ensures RoomAfter(s, msgCap, bytesCap, pushes, 0) <==> RoomAfter(s, msgCap, bytesCap, [pushes[0]], 0)
  {
    assert pushes[..0] == [pushes[0]][..0];
  }

  /** A series of messages, of whatever length and with whatever payloads, is let through
      if and only if each of them finds room behind those before it. */
  lemma {:induction false} LetThrough(w: World, pushes: seq<Action>)
    requires Sender.Ok(w.a.snd) && Conn.Live(w.a.conn) && AllPushes(pushes)
    ensures Runs(w, Labels(pushes)) <==>
              forall k :: 0 <= k < |pushes| ==> RoomAfter(w.a.snd, w.a.snd.msgCap, w.a.snd.bytesCap, pushes, k)
    decreases |pushes|
  {
    if pushes != [] {
      var s, l, rest := w.a.snd, Do(A, pushes[0]), pushes[1..];
      hide RoomAfter, CanStep, Next, BytesOf, Sender.Sent;
      FirstFits(w, pushes[0]);
      SameRoom(s, s.msgCap, s.bytesCap, pushes);
      assert Labels(pushes)[1..] == Labels(rest) && Labels(pushes)[0] == l;
      if CanStep(w, l) {
        var t := Next(w, l).a.snd;
        RestFits(s, pushes, 1);
        LetThrough(Next(w, l), rest);
        forall k | 1 <= k < |pushes|
          ensures RoomAfter(s, s.msgCap, s.bytesCap, pushes, k) <==> RoomAfter(t, t.msgCap, t.bytesCap, rest, k - 1)
        {
          RestFits(s, pushes, k);
        }
        if forall k :: 0 <= k < |pushes| ==> RoomAfter(s, s.msgCap, s.bytesCap, pushes, k) {
          forall k | 0 <= k < |rest| ensures RoomAfter(t, t.msgCap, t.bytesCap, rest, k) {
            assert RoomAfter(s, s.msgCap, s.bytesCap, pushes, k + 1);
          }
        }
      }
    }
  }

  // ----- after a packet of the peer -----

  lemma ArriveSender(e: Endpoint, p: Packet)
    requires Sender.Ok(e.snd) && Takes(e, p) && Arrive(e, p).Stepped?
    ensures var s := Arrive(e, p).e.snd; s == Sender.GotPacket(e.snd, p).(remote := s.remote)
  {
    TakesExactly(e, p);
    hide Conn.HandleEvent, DataReceived, Arrived, Conn.Accepts, Conn.LockedOn, Sender.GotPacket, ArrivalPanics, Takes;
    var (r0, c0) := Conn.LockedOn(e.rcv, e.conn, p);
    var s1 := Sender.GotPacket(e.snd, p);
    if p.event == EventData {
      LearnedOnlyRemote(s1, DataReceived(Arrived(r0, p), p).1);
    } else {
      LearnedOnlyRemote(s1, Conn.HandleEvent(Arrived(r0, p), c0, p.event, p).acks);
    }
  }

  /** Frame n is in the retry indices. */
  predicate Unacked(s: Sender.Sender, n: int) {
    s.acked < n < |s.history|
  }

  /** A packet that is taken removes exactly the frames through its AckNum from the retry
      indices, whatever its event, and sets both capacities. */
  ghost predicate TakenOver(s: Sender.Sender, s': Sender.Sender, p: Packet) {
    && s'.history == s.history && s'.window == s.window && s'.msgCap == p.msgCap && s'.bytesCap == p.bytesCap
    && -1 <= s'.acked < |s.history|
    && forall n :: Unacked(s', n) <==> Unacked(s, n) && n > p.ackNum
  }

  lemma PacketTakenOver(w: World, p: Packet)
    requires CanActA(w, Deliver(p)) && Takes(w.a, p)
    ensures TakenOver(w.a.snd, ActA(w, Deliver(p)).a.snd, p)
  {
    hide Arrive, Takes, Sender.CreditAll;
    ArriveSender(w.a, p);
  }

  /** From then on the gate goes by that packet: a series of messages is let through if
      and only if each finds room in what it offered. */
  lemma OfferLetsThrough(w: World, p: Packet, pushes: seq<Action>)
    requires CanActA(w, Deliver(p)) && Takes(w.a, p) && AllPushes(pushes) && Conn.Live(ActA(w, Deliver(p)).a.conn)
    ensures var v := ActA(w, Deliver(p));
            && TakenOver(w.a.snd, v.a.snd, p)
            && (Runs(v, Labels(pushes)) <==>
                  forall k :: 0 <= k < |pushes| ==> RoomAfter(v.a.snd, p.msgCap, p.bytesCap, pushes, k))
  {
    PacketTakenOver(w, p);
    var v := ActA(w, Deliver(p));
    LetThrough(v, pushes);
    hide ActA, CanActA, RoomAfter, Takes;
  }

  /** A keepalive acknowledges: once it is delivered, all frames through the number that
      was published are out of the indices. */
  lemma KeepAliveAcknowledges(w: World, na: string, nb: string)
    requires Up(w, na, nb) && w.b.hasDest
    ensures exists v: World, p: Packet :: Reaches(w, v) && p.ackNum == w.b.rcv.published && TakenOver(w.a.snd, v.a.snd, p) && v.b == w.b
  {
    hide Reached, Reaches, CanStep, Next, Act, Allowed, Takes, TakenOver, KeepAlivePacket, ArrivalPanics, Arrived, Acked,
         Sender.GotPacket;
    UpFacts(w, na, nb);
    KeepAliveActs(w.b, w.toB, nb, na);
    StepB(w, KeepAlive, na, nb);
    var u, p := Next(w, Do(B, KeepAlive)), KeepAlivePacket(w.b);
    NoPanicA(u, p, na, nb);
    HearsTakes(u.a, p, na, nb);
    InfoArrives(u.a, p, u.toA, na, nb);
    StepA(u, Deliver(p), na, nb);
    DeliveryTakenOver(u, p);
    ReachesSelf(w);
    ReachesStep(w, w, Do(B, KeepAlive));
    ReachesStep(w, u, Do(A, Deliver(p)));
    assert TakenOver(w.a.snd, Next(u, Do(A, Deliver(p))).a.snd, p);
  }

  lemma DeliveryTakenOver(w: World, p: Packet)
    requires CanStep(w, Do(A, Deliver(p))) && Takes(w.a, p)
    ensures TakenOver(w.a.snd, Next(w, Do(A, Deliver(p))).a.snd, p)
  {
    PacketTakenOver(w, p);
    hide CanActA, ActA;
  }

  lemma HearsTakes(e: Endpoint, p: Packet, local: string, remote: string)
    requires UpEnd(e, local, remote) && Hears(e, p)
    ensures Takes(e, p)
  {
  }
}
