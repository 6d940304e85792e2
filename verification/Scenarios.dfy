/** Runs that do what the general theorems only allow: a handshake step by step, and
    the two ways in which it gets stuck. */
module Scenarios {
  import opened Tcp
  import opened Packets
  import opened Receiver
  import opened Protocol
  import opened Safety
  import opened Handshake
  import opened Opening
  import Sender
  import Conn

  // ----- the handshake, step by step -----

  /** The answer to the first SYN offers the whole window of the passive end. */
  predicate Offers(p: Packet, c: Config, na: string) {
    && p.event == EventSynAck && p.fromNonce == c.nonce && p.destNonce == na
    && p.ackNum == 0 && p.msgCap == c.window && p.bytesCap == c.windowBytes && p.cumul == 0 && p.seqNum == -99
  }

  /** No data has arrived yet. */
  predicate Untouched(r: Receiver, c: Config) {
    && r.window == c.window && r.windowBytes == c.windowBytes
    && r.nextExpected == 0 && r.consumed == 0 && r.lastMsg == -1 && r.lastByte == -1 && r.largest == -1 && r.maxCumul == 0
    && r.ready == [] && r.waiting == map[]
  }

  lemma SetOfOne(p: Packet)
    ensures SetOf([p]) == {p}
  {
  }

  lemma SynAnswered(c: Config, p: Packet)
    requires GoodConfig(c) && p == Packet(p.fromNonce, "", EventSyn, Fresh, -98, 0, 0, 0, 0, [], 0)
    ensures var s := Arrive(NewEndpoint(c), p);
            && s.Stepped? && s.e.conn.tcp == SynReceived && !s.e.conn.halted && s.e.conn.attempts == 0
            && s.e.hasDest == c.hasDest && s.e.snd.history == [] && Untouched(s.e.rcv, c)
            && exists q :: s.out == {q} && Offers(q, c, p.fromNonce)
  {
    var e := NewEndpoint(c);
    var (r0, c0) := Conn.LockedOn(e.rcv, e.conn, p);
    assert Conn.Accepts(r0, c0, p) && !ArrivalPanics(r0, p);
    var r1 := Arrived(r0, p);
    OtherHandled(r1, c0, p);
    var o := Conn.HandleEvent(r1, c0, p.event, p);
    hide Conn.HandleEvent;
    assert |o.acks| == 1 && Offers(o.acks[0], c, p.fromNonce);
    LearnedOnlyRemote(Sender.GotPacket(e.snd, p), o.acks);
    assert o.acks == [o.acks[0]];
    SetOfOne(o.acks[0]);
  }

  /** A session after its first connect request. */
  function Dialler(c: Config): Endpoint {
    NewEndpoint(c).(conn := Conn.Dialling(NewEndpoint(c).rcv, NewEndpoint(c).conn).0)
  }

  /** The dialler took the offer and confirmed. */
  predicate TookOffer(e: Endpoint, c: Config, d: Config) {
    && e.conn.tcp == Established && !e.conn.halted && e.hasDest == c.hasDest
    && e.snd.history == [] && e.snd.acked == -1
    && e.snd.msgCap == d.window && e.snd.bytesCap == d.windowBytes && e.snd.window == c.window && Untouched(e.rcv, c)
  }

  lemma OfferTaken(c: Config, q: Packet, d: Config)
    requires GoodConfig(d) && Offers(q, d, c.nonce)
    ensures var s := Arrive(Dialler(c), q);
            s.Stepped? && TookOffer(s.e, c, d) && exists p :: s.out == {p} && p.event == EventEstabAck
  {
    var e := Dialler(c);
    assert Conn.LockedOn(e.rcv, e.conn, q) == (e.rcv, e.conn);
    assert Conn.Accepts(e.rcv, e.conn, q) && !ArrivalPanics(e.rcv, q);
    var r1 := Arrived(e.rcv, q);
    OtherHandled(r1, e.conn, q);
    var o := Conn.HandleEvent(r1, e.conn, q.event, q);
    assert o.Does? && o.c.tcp == Established && !o.c.halted && |o.acks| == 1 && o.acks[0].event == EventEstabAck;
    LearnedOnlyRemote(Sender.GotPacket(e.snd, q), o.acks);
    assert o.acks == [o.acks[0]];
    SetOfOne(o.acks[0]);
  }

  /** a dialled, and its SYN is the only packet. */
  lemma DialRun(ca: Config, cb: Config)
    ensures DialsTo(Start(ca, cb), World(Dialler(ca), NewEndpoint(cb), {}, {Conn.SynPacket(NewEndpoint(ca).rcv)}))
  {
    hide DialsTo;
    var w, l := Start(ca, cb), Do(A, Action.Dial);
    DialsSelf(w);
    SetOfOne(Conn.SynPacket(w.a.rcv));
    DialsStep(w, w, l);
    assert Next(w, l) == World(Dialler(ca), NewEndpoint(cb), {}, {Conn.SynPacket(NewEndpoint(ca).rcv)});
  }

  /** b answered the SYN with q. */
  ghost predicate SynTaken(x: World, q: Packet, ca: Config, cb: Config) {
    && x.a == Dialler(ca) && x.toB == {Conn.SynPacket(NewEndpoint(ca).rcv)} && x.toA == {q} && Offers(q, cb, ca.nonce)
    && x.b.conn.tcp == SynReceived && !x.b.conn.halted && x.b.conn.attempts == 0
    && x.b.hasDest == cb.hasDest && x.b.snd.history == [] && Untouched(x.b.rcv, cb)
  }

  lemma AnswerRun(ca: Config, cb: Config)
    requires GoodConfig(ca) && GoodConfig(cb)
    ensures exists x, q :: DialsTo(Start(ca, cb), x) && SynTaken(x, q, ca, cb)
  {
    hide DialsTo, Arrive, Start;
    DialRun(ca, cb);
    var syn := Conn.SynPacket(NewEndpoint(ca).rcv);
    var u, l := World(Dialler(ca), NewEndpoint(cb), {}, {syn}), Do(B, Deliver(syn));
    SynAnswered(cb, syn);
    var q :| Arrive(u.b, syn).out == {q} && Offers(q, cb, ca.nonce);
    DialsStep(Start(ca, cb), u, l);
    assert SynTaken(Next(u, l), q, ca, cb);
  }

  /** a took the offer q and sent its only confirmation, p. */
  ghost predicate Half(y: World, q: Packet, p: Packet, ca: Config, cb: Config) {
    && TookOffer(y.a, ca, cb) && y.toB == {Conn.SynPacket(NewEndpoint(ca).rcv), p} && p.event == EventEstabAck
    && y.toA == {q} && Offers(q, cb, ca.nonce)
    && y.b.conn.tcp == SynReceived && !y.b.conn.halted
    && y.b.hasDest == cb.hasDest && y.b.snd.history == [] && Untouched(y.b.rcv, cb)
  }

  lemma HalfRun(ca: Config, cb: Config)
    requires GoodConfig(ca) && GoodConfig(cb)
    ensures exists y, q, p :: DialsTo(Start(ca, cb), y) && Half(y, q, p, ca, cb)
  {
    hide DialsTo, Arrive, Start, Untouched;
    AnswerRun(ca, cb);
    var x, q :| DialsTo(Start(ca, cb), x) && SynTaken(x, q, ca, cb);
    OfferTaken(ca, q, cb);
    var p :| Arrive(x.a, q).out == {p} && p.event == EventEstabAck;
    var l := Do(A, Deliver(q));
    DialsStep(Start(ca, cb), x, l);
    assert Half(Next(x, l), q, p, ca, cb);
  }

  // ----- handshakes that get stuck -----

  /** Neither end is finished, and yet no continuation establishes both. */
  ghost predicate Stranded(w: World) {
    Conn.Live(w.a.conn) && Conn.Live(w.b.conn) && !Connects(w)
  }

  lemma NotOpenStranded(ca: Config, cb: Config, v: World)
    requires GoodNonces(ca, cb) && DialsTo(Start(ca, cb), v) && !Open(v)
    requires Conn.Live(v.a.conn) && Conn.Live(v.b.conn)
    ensures Stranded(v)
  {
    hide Start, Runs, After, Open, Connects;
    var ls :| Runs(Start(ca, cb), ls) && OneDialler(ls) && After(Start(ca, cb), ls) == v;
    HandshakeCompletes(ca, cb, ls);
  }

  /** The dialler is Established, and may send; its peer does not know it. Nothing was
      sent yet. */
  ghost predicate HalfOpen(w: World) {
    && w.a.conn.tcp == Established && w.b.conn.tcp == SynReceived
    && Sender.Ok(w.a.snd) && Sender.GateOpen(w.a.snd) && w.a.snd.history == [] && w.b.snd.history == []
  }

  /** The one confirmation of a dialler without a DestInbox is lost. */
  lemma ConfirmationLost(ca: Config, cb: Config)
    requires GoodNonces(ca, cb) && !ca.hasDest
    ensures exists v :: DialsTo(Start(ca, cb), v) && HalfOpen(v) && Stranded(v)
  {
    hide DialsTo, Start, Stranded;
    HalfRun(ca, cb);
    var y, q, p :| DialsTo(Start(ca, cb), y) && Half(y, q, p, ca, cb);
    var l := Lose(B, p);
    DialsStep(Start(ca, cb), y, l);
    var v := Next(y, l);
    assert !ConfirmComing(v);
    assert Stream(v.a.snd.history[0..]) == [];
    NotOpenStranded(ca, cb, v);
  }

  /** The SYN-ACK was lost k times, and as often retried; nothing else happened. */
  ghost predicate Unheard(w: World, k: nat, na: string, nb: string) {
    && Good(w, na, nb) && w.toA == {} && w.a.conn.tcp == SynSent && Conn.Live(w.a.conn)
    && w.b.conn.tcp == SynReceived && Conn.Live(w.b.conn) && w.b.conn.attempts == k
  }

  lemma RetryLost(s: World, w: World, k: nat, na: string, nb: string)
    requires DialsTo(s, w) && Unheard(w, k, na, nb) && k < Conn.MAX_ATTEMPTS
    ensures exists v :: DialsTo(s, v) && Unheard(v, k + 1, na, nb)
  {
    hide DialsTo, Act, Inv, Shake;
    var l := Do(B, RetryTimer);
    RetryReady(w, na, nb);
    RetryRepeats(w.b, w.toB, na, nb);
    var q :| Act(w.b, RetryTimer, w.toB).out == {q};
    GoodStays(w, l, na, nb);
    DialsStep(s, w, l);
    var u := Next(w, l);
    assert u.toA == {q};
    GoodStays(u, Lose(A, q), na, nb);
    DialsStep(s, u, Lose(A, q));
    assert Unheard(Next(u, Lose(A, q)), k + 1, na, nb);
  }

  lemma RetryReady(w: World, na: string, nb: string)
    requires Good(w, na, nb)
    ensures Sender.Ok(w.b.snd) && na != "" && Named(w.b, nb, w.b.rcv.remote) && PassiveState(w.b.conn, w.b.rcv.remote, na)
  {
    GoodFacts(w, na, nb);
    PairFacts(w.b, w.a, w.toA, w.toB);
  }

  lemma RetryRepeats(e: Endpoint, inbox: set<Packet>, na: string, nb: string)
    requires Sender.Ok(e.snd) && Conn.Live(e.conn) && na != ""
    requires Named(e, nb, e.rcv.remote) && PassiveState(e.conn, e.rcv.remote, na)
    requires e.conn.tcp == SynReceived && e.conn.attempts < Conn.MAX_ATTEMPTS
    ensures var s := Act(e, RetryTimer, inbox);
            && s.Stepped? && s.e.conn.tcp == SynReceived && !s.e.conn.halted
            && s.e.conn.attempts == e.conn.attempts + 1 && exists q :: s.out == {q}
  {
    var o := Conn.Retried(e.rcv, e.conn);
    assert o.Does? && |o.acks| == 1;
    assert o.acks == [o.acks[0]];
    SetOfOne(o.acks[0]);
    hide LearnedAll, Conn.Retried, SetOf;
  }

  lemma {:induction false} RetriesLost(s: World, w: World, k: nat, na: string, nb: string)
    requires DialsTo(s, w) && Unheard(w, k, na, nb) && k <= Conn.MAX_ATTEMPTS
    ensures exists v :: DialsTo(s, v) && Unheard(v, Conn.MAX_ATTEMPTS, na, nb)
    decreases Conn.MAX_ATTEMPTS - k
  {
    hide DialsTo, Unheard;
    if k < Conn.MAX_ATTEMPTS {
      RetryLost(s, w, k, na, nb);
      var u :| DialsTo(s, u) && Unheard(u, k + 1, na, nb);
      RetriesLost(s, u, k + 1, na, nb);
    }
  }

  /** All repetitions of the SYN-ACK are lost. */
  lemma AnswersLost(ca: Config, cb: Config)
    requires GoodNonces(ca, cb)
    ensures exists v :: DialsTo(Start(ca, cb), v) && v.a.conn.tcp == SynSent && v.b.conn.tcp == SynReceived && Stranded(v)
  {
    hide DialsTo, Start, Stranded, Inv, Shake;
    var s := Start(ca, cb);
    AnswerRun(ca, cb);
    var x, q :| DialsTo(s, x) && SynTaken(x, q, ca, cb);
    DialsStep(s, x, Lose(A, q));
    var w := Next(x, Lose(A, q));
    GoodBy(ca, cb, w);
    assert Unheard(w, 0, ca.nonce, cb.nonce);
    RetriesLost(s, w, 0, ca.nonce, cb.nonce);
    var v :| DialsTo(s, v) && Unheard(v, Conn.MAX_ATTEMPTS, ca.nonce, cb.nonce);
    assert !SynAckComing(v);
    NotOpenStranded(ca, cb, v);
  }

  // ----- when both ends dial -----

  /** e dialled and was dialled: it waits in SynReceived, and would send its confirmation
      again although it knows the remote by now. */
  predicate Crossed(e: Endpoint) {
    && e.conn.tcp == SynReceived && !e.conn.halted && e.conn.retrying && e.conn.retryState == SynReceived
    && e.conn.retryAction == SendEstabAck && e.conn.attempts == 0 && e.rcv.remote != ""
  }

  lemma SynCrosses(c: Config, p: Packet)
    requires GoodConfig(c) && p == Packet(p.fromNonce, "", EventSyn, Fresh, -98, 0, 0, 0, 0, [], 0) && p.fromNonce != ""
    ensures var s := Arrive(Dialler(c), p); s.Stepped? && Crossed(s.e) && Sender.Ok(s.e.snd)
  {
    var e := Dialler(c);
    assert Conn.LockedOn(e.rcv, e.conn, p) == (e.rcv, e.conn);
    assert Conn.Accepts(e.rcv, e.conn, p) && !ArrivalPanics(e.rcv, p);
    var r1 := Arrived(e.rcv, p);
    OtherHandled(r1, e.conn, p);
    var o := Conn.HandleEvent(r1, e.conn, p.event, p);
    hide Conn.HandleEvent;
    LearnedOnlyRemote(Sender.GotPacket(e.snd, p), o.acks);
  }

  /** Any two sessions that dial each other reach a state in which the retry timer of
      one of them panics. */
  lemma BothDialPanics(ca: Config, cb: Config)
    requires GoodNonces(ca, cb)
    ensures exists v ::
              && Reaches(Start(ca, cb), v) && Sender.Ok(v.a.snd) && Allowed(v.a, RetryTimer, v.toA)
              && Act(v.a, RetryTimer, v.toA).Panicked?
  {
    hide Reaches, DialsTo, Arrive;
    var s, syn := Start(ca, cb), Conn.SynPacket(NewEndpoint(cb).rcv);
    DialRun(ca, cb);
    var u := World(Dialler(ca), NewEndpoint(cb), {}, {Conn.SynPacket(NewEndpoint(ca).rcv)});
    DialsReaches(s, u);
    SetOfOne(syn);
    ReachesStep(s, u, Do(B, Action.Dial));
    var w := Next(u, Do(B, Action.Dial));
    assert w.a == Dialler(ca) && w.toA == {syn};
    SynCrosses(ca, syn);
    ReachesStep(s, w, Do(A, Deliver(syn)));
    var v := Next(w, Do(A, Deliver(syn)));
    assert Crossed(v.a);
    assert Act(v.a, RetryTimer, v.toA).Panicked?;
  }
}
