/** When the handshake can still be completed: exactly which states reached by runs
    with a single dialler have a continuation that ends with both ends Established. */
module Opening {
  import opened Tcp
  import opened Packets
  import opened Receiver
  import opened Links
  import opened Protocol
  import opened Safety
  import opened Handshake
  import Sender
  import Conn

  predicate BothEstablished(w: World) {
    w.a.conn.tcp == Established && w.b.conn.tcp == Established
  }

  /** Some continuation in which only a dials establishes both ends. */
  ghost predicate Connects(w: World) {
    exists ls :: Runs(w, ls) && OneDialler(ls) && BothEstablished(After(w, ls))
  }

  predicate SynAckComing(w: World) {
    exists p :: p in w.toA && p.event == EventSynAck
  }

  predicate ConfirmComing(w: World) {
    exists p :: p in w.toB && Confirms(p)
  }

  /** The dialler has not heard from b, and b has not stopped waiting for it. */
  predicate AnswerPossible(w: World) {
    && (w.a.conn.tcp == Listen || w.a.conn.tcp == SynSent)
    && (w.b.conn.tcp == Listen ||
        (w.b.conn.tcp == SynReceived && (SynAckComing(w) || w.b.conn.attempts < Conn.MAX_ATTEMPTS)))
  }

  /** The dialler is Established, and b knows or can still learn it. */
  predicate ConfirmPossible(w: World) {
    && w.a.conn.tcp == Established
    && (w.b.conn.tcp == Established || (w.b.conn.tcp == SynReceived && (ConfirmComing(w) || w.a.hasDest)))
  }

  /** Neither end is finished, and what is still missing can be sent. */
  predicate Open(w: World) {
    Conn.Live(w.a.conn) && Conn.Live(w.b.conn) && (AnswerPossible(w) || ConfirmPossible(w))
  }

  // ----- an open handshake can be completed -----

  /** v can be reached from w in a run in which only a dials. */
  ghost predicate DialsTo(w: World, v: World) {
    exists ls :: Runs(w, ls) && OneDialler(ls) && After(w, ls) == v
  }

  lemma DialsSelf(w: World)
    ensures DialsTo(w, w)
  {
    assert Runs(w, []) && OneDialler([]) && After(w, []) == w;
  }

  lemma DialsStep(w: World, v: World, l: Label)
    requires DialsTo(w, v) && CanStep(v, l) && l != Do(B, Action.Dial)
    ensures DialsTo(w, Next(v, l))
  {
    hide CanStep, Next;
    var ls :| Runs(w, ls) && OneDialler(ls) && After(w, ls) == v;
    RunOne(v, l);
    RunsConcat(w, ls, [l]);
    assert Runs(w, ls + [l]) && OneDialler(ls + [l]);
  }

  lemma DialsReaches(w: World, v: World)
    requires DialsTo(w, v)
    ensures Reaches(w, v)
  {
  }

  /** w is reached by a run of sessions na and nb in which only a dials. */
  ghost predicate Good(w: World, na: string, nb: string) {
    exists ca, cb :: GoodNonces(ca, cb) && ca.nonce == na && cb.nonce == nb && DialsTo(Start(ca, cb), w)
  }

  lemma GoodBy(ca: Config, cb: Config, w: World)
    requires GoodNonces(ca, cb) && DialsTo(Start(ca, cb), w)
    ensures Good(w, ca.nonce, cb.nonce)
  {
  }

  lemma GoodFacts(w: World, na: string, nb: string)
    requires Good(w, na, nb)
    ensures na != "" && nb != "" && Reached(w) && Inv(w) && Shake(w, na, nb)
  {
    hide Inv, Shake, Start, Runs, After;
    var ca, cb :| GoodNonces(ca, cb) && ca.nonce == na && cb.nonce == nb && DialsTo(Start(ca, cb), w);
    var ls :| Runs(Start(ca, cb), ls) && OneDialler(ls) && After(Start(ca, cb), ls) == w;
    StartInv(ca, cb);
    StartShakes(ca, cb);
    RunShakes(Start(ca, cb), ls, na, nb);
    ReachedBy(ca, cb, w);
  }

  lemma GoodStays(w: World, l: Label, na: string, nb: string)
    requires Good(w, na, nb) && CanStep(w, l) && l != Do(B, Action.Dial)
    ensures Good(Next(w, l), na, nb)
  {
    hide DialsTo, Start, CanStep, Next;
    var ca, cb :| GoodNonces(ca, cb) && ca.nonce == na && cb.nonce == nb && DialsTo(Start(ca, cb), w);
    DialsStep(Start(ca, cb), w, l);
  }

  lemma ConnectsNow(w: World)
    requires BothEstablished(w)
    ensures Connects(w)
  {
    assert Runs(w, []) && OneDialler([]) && After(w, []) == w;
  }

  lemma ConnectsLater(w: World, l: Label)
    requires CanStep(w, l) && l != Do(B, Action.Dial) && Connects(Next(w, l))
    ensures Connects(w)
  {
    hide CanStep, Next, BothEstablished;
    var ls :| Runs(Next(w, l), ls) && OneDialler(ls) && BothEstablished(After(Next(w, l), ls));
    var all := [l] + ls;
    assert all[1..] == ls && all[0] == l;
    assert Runs(w, all) && OneDialler(all) && After(w, all) == After(Next(w, l), ls);
  }

  /** Delivery of a packet at either end never panics. */
  lemma CanDeliverA(w: World, p: Packet, na: string, nb: string)
    requires Good(w, na, nb) && Conn.Live(w.a.conn) && p in w.toA
    ensures CanActA(w, Deliver(p)) && ActA(w, Deliver(p)) == w.(a := Arrive(w.a, p).e, toB := w.toB + Arrive(w.a, p).out)
  {
    hide Shake, Arrive, Link;
    GoodFacts(w, na, nb);
    PairFacts(w.a, w.b, w.toB, w.toA);
    ShakeSays(w, na, nb);
    DiallerActs(w, Deliver(p), na, nb, w.b.rcv.remote == na);
  }

  lemma CanDeliverB(w: World, p: Packet, na: string, nb: string)
    requires Good(w, na, nb) && Conn.Live(w.b.conn) && p in w.toB
    ensures CanActA(Flip(w), Deliver(p))
    ensures Flip(ActA(Flip(w), Deliver(p))) == w.(b := Arrive(w.b, p).e, toA := w.toA + Arrive(w.b, p).out)
  {
    hide Shake, Arrive, Link;
    GoodFacts(w, na, nb);
    PairFacts(w.b, w.a, w.toA, w.toB);
    ShakeSays(w, na, nb);
    PassiveActs(w, Deliver(p), na, nb, w.a.rcv.remote == nb);
  }

  // ----- what single arrivals do -----

  /** The events that move the handshake on, in the states that wait for them. */
  predicate Expected(c: Conn.Conn, p: Packet) {
    || (c.tcp == Listen && p.event == EventSyn)
    || (c.tcp == SynSent && p.event == EventSynAck)
    || (c.tcp == SynReceived && Confirms(p))
  }

  predicate HasEvent(ps: set<Packet>, event: TcpEvent) {
    exists p :: p in ps && p.event == event
  }

  lemma ExpectedHandled(r: Receiver, c: Conn.Conn, p: Packet)
    requires Expected(c, p) && Conn.HandleEvent(r, c, p.event, p).Does?
    ensures var o := Conn.HandleEvent(r, c, p.event, p);
            && o.c.halted == c.halted
            && (c.tcp == Listen ==> o.c.tcp == SynReceived && |o.acks| == 1 && o.acks[0].event == EventSynAck)
            && (c.tcp == SynSent ==> o.c.tcp == Established && |o.acks| == 1 && o.acks[0].event == EventEstabAck)
            && (c.tcp == SynReceived ==> o.c.tcp == Established)
  {
    OtherHandled(r, c, p);
    hide Conn.HandleEvent, Acked;
  }

  lemma OneSent(acks: seq<Packet>, event: TcpEvent)
    requires |acks| == 1 && acks[0].event == event
    ensures HasEvent(SetOf(acks), event)
  {
    assert acks[0] in SetOf(acks);
  }

  /** An expected packet moves the state on and triggers the next packet. */
  lemma ExpectedArrives(e: Endpoint, p: Packet)
    requires Sender.Ok(e.snd) && Arrive(e, p).Stepped? && Expected(e.conn, p)
    requires var (r0, c0) := Conn.LockedOn(e.rcv, e.conn, p); Conn.Accepts(r0, c0, p)
    ensures var s := Arrive(e, p);
            && s.e.conn.halted == e.conn.halted
            && (e.conn.tcp == Listen ==> s.e.conn.tcp == SynReceived && HasEvent(s.out, EventSynAck))
            && (e.conn.tcp == SynSent ==> s.e.conn.tcp == Established && HasEvent(s.out, EventEstabAck))
            && (e.conn.tcp == SynReceived ==> s.e.conn.tcp == Established)
  {
    hide Conn.HandleEvent, Arrived, DataReceived, Conn.Accepts, ArrivalPanics, Sender.GotPacket, LearnedAll, HasEvent, SetOf;
    var (r0, c0) := Conn.LockedOn(e.rcv, e.conn, p);
    assert c0.tcp == e.conn.tcp && c0.halted == e.conn.halted;
    ExpectedHandled(Arrived(r0, p), c0, p);
    hide Conn.LockedOn;
    var o := Conn.HandleEvent(Arrived(r0, p), c0, p.event, p);
    if |o.acks| == 1 {
      OneSent(o.acks, o.acks[0].event);
    }
  }

  lemma DiallerAccepts(e: Endpoint, p: Packet, na: string, nb: string)
    requires Named(e, na, e.rcv.remote) && DiallerState(e.conn, e.rcv.remote, nb)
    requires FromPassive(p, na, nb, true) && p.event == EventSynAck
    ensures var (r0, c0) := Conn.LockedOn(e.rcv, e.conn, p); Conn.Accepts(r0, c0, p)
  {
  }

  lemma PassiveAccepts(e: Endpoint, p: Packet, na: string, nb: string)
    requires na != "" && nb != "" && Named(e, nb, e.rcv.remote) && PassiveState(e.conn, e.rcv.remote, na)
    requires FromDialler(p, na, nb, true) && (Confirms(p) || (p.event == EventSyn && e.conn.tcp == Listen))
    ensures var (r0, c0) := Conn.LockedOn(e.rcv, e.conn, p); Conn.Accepts(r0, c0, p)
  {
  }

  // ----- completing the handshake, last step first -----

  lemma ConfirmArrives(w: World, na: string, nb: string)
    requires Good(w, na, nb) && Conn.Live(w.a.conn) && Conn.Live(w.b.conn)
    requires w.a.conn.tcp == Established && w.b.conn.tcp == SynReceived && ConfirmComing(w)
    ensures Connects(w)
  {
    GoodFacts(w, na, nb);
    var p :| p in w.toB && Confirms(p);
    var l := Do(B, Deliver(p));
    CanDeliverB(w, p, na, nb);
    PassiveAccepts(w.b, p, na, nb);
    ExpectedArrives(w.b, p);
    ConnectsNow(Next(w, l));
    ConnectsLater(w, l);
  }

  lemma CanKeepAlive(w: World, na: string, nb: string)
    requires Good(w, na, nb) && w.a.conn.tcp == Established
    ensures Sender.Ok(w.a.snd) && w.a.snd.remote != ""
  {
    hide Link, SenderInv, ReceiverInv, FromDialler, FromPassive;
    GoodFacts(w, na, nb);
    PairFacts(w.a, w.b, w.toB, w.toA);
  }

  lemma KeepAliveConfirms(w: World, na: string, nb: string)
    requires Good(w, na, nb) && Conn.Live(w.a.conn) && Conn.Live(w.b.conn)
    requires w.a.conn.tcp == Established && w.b.conn.tcp == SynReceived && w.a.hasDest
    ensures Connects(w)
  {
    hide Inv, Shake, Connects;
    GoodFacts(w, na, nb);
    var l := Do(A, KeepAlive);
    CanKeepAlive(w, na, nb);
    var v := Next(w, l);
    assert KeepAlivePacket(w.a) in v.toB && Confirms(KeepAlivePacket(w.a));
    GoodStays(w, l, na, nb);
    ConfirmArrives(v, na, nb);
    ConnectsLater(w, l);
  }

  lemma SynAckArrives(w: World, na: string, nb: string)
    requires Good(w, na, nb) && Conn.Live(w.a.conn) && Conn.Live(w.b.conn)
    requires w.a.conn.tcp == SynSent && w.b.conn.tcp == SynReceived && SynAckComing(w)
    ensures Connects(w)
  {
    GoodFacts(w, na, nb);
    var p :| p in w.toA && p.event == EventSynAck;
    var l := Do(A, Deliver(p));
    CanDeliverA(w, p, na, nb);
    DiallerAccepts(w.a, p, na, nb);
    ExpectedArrives(w.a, p);
    var v := Next(w, l);
    Confirming(w.toB, Arrive(w.a, p).out);
    GoodStays(w, l, na, nb);
    ConfirmArrives(v, na, nb);
    ConnectsLater(w, l);
  }

  lemma Confirming(ps: set<Packet>, out: set<Packet>)
    requires HasEvent(out, EventEstabAck)
    ensures exists p :: p in ps + out && Confirms(p)
  {
    var p :| p in out && p.event == EventEstabAck;
    assert p in ps + out && Confirms(p);
  }

  lemma SynAckRetried(w: World, na: string, nb: string)
    requires Good(w, na, nb) && Conn.Live(w.a.conn) && Conn.Live(w.b.conn)
    requires w.a.conn.tcp == SynSent && w.b.conn.tcp == SynReceived && w.b.conn.attempts < Conn.MAX_ATTEMPTS
    ensures Connects(w)
  {
    GoodFacts(w, na, nb);
    var l := Do(B, RetryTimer);
    PairFacts(w.b, w.a, w.toA, w.toB);
    RetrySends(w.b, w.toB, na, nb);
    var v := Next(w, l);
    assert v == w.(b := Act(w.b, RetryTimer, w.toB).e, toA := w.toA + Act(w.b, RetryTimer, w.toB).out);
    GoodStays(w, l, na, nb);
    SynAckArrives(v, na, nb);
    ConnectsLater(w, l);
  }

  lemma RetrySends(e: Endpoint, inbox: set<Packet>, na: string, nb: string)
    requires Sender.Ok(e.snd) && Conn.Live(e.conn) && na != ""
    requires Named(e, nb, e.rcv.remote) && PassiveState(e.conn, e.rcv.remote, na)
    requires e.conn.tcp == SynReceived && e.conn.attempts < Conn.MAX_ATTEMPTS
    ensures var s := Act(e, RetryTimer, inbox);
            s.Stepped? && s.e.conn.tcp == SynReceived && !s.e.conn.halted && HasEvent(s.out, EventSynAck)
  {
    var o := Conn.Retried(e.rcv, e.conn);
    assert o.Does? && |o.acks| == 1 && o.acks[0].event == EventSynAck;
    OneSent(o.acks, EventSynAck);
    hide LearnedAll, Conn.Retried, HasEvent, SetOf;
  }

  lemma SynArrives(w: World, na: string, nb: string)
    requires Good(w, na, nb) && Conn.Live(w.a.conn) && Conn.Live(w.b.conn)
    requires w.a.conn.tcp == SynSent && w.b.conn.tcp == Listen && HasEvent(w.toB, EventSyn)
    ensures Connects(w)
  {
    GoodFacts(w, na, nb);
    var p :| p in w.toB && p.event == EventSyn;
    var l := Do(B, Deliver(p));
    CanDeliverB(w, p, na, nb);
    PassiveAccepts(w.b, p, na, nb);
    ExpectedArrives(w.b, p);
    GoodStays(w, l, na, nb);
    SynAckArrives(Next(w, l), na, nb);
    ConnectsLater(w, l);
  }

  lemma DialConnects(w: World, na: string, nb: string)
    requires Good(w, na, nb) && Conn.Live(w.a.conn) && Conn.Live(w.b.conn) && AnswerPossible(w)
    ensures Connects(w)
  {
    hide Good, Link, Shake, Reached, Connects;
    GoodFacts(w, na, nb);
    var l := Do(A, Action.Dial);
    PairFacts(w.a, w.b, w.toB, w.toA);
    hide SenderInv, ReceiverInv;
    var v := Next(w, l);
    assert Conn.SynPacket(w.a.rcv) in v.toB;
    GoodStays(w, l, na, nb);
    if w.b.conn.tcp == Listen {
      SynArrives(v, na, nb);
    } else if SynAckComing(w) {
      assert v.toA == w.toA;
      SynAckArrives(v, na, nb);
    } else {
      SynAckRetried(v, na, nb);
    }
    ConnectsLater(w, l);
  }

  lemma OpenConnects(w: World, na: string, nb: string)
    requires Good(w, na, nb) && Open(w)
    ensures Connects(w)
  {
    hide Inv, Shake, Connects;
    GoodFacts(w, na, nb);
    if AnswerPossible(w) {
      DialConnects(w, na, nb);
    } else if w.b.conn.tcp == Established {
      ConnectsNow(w);
    } else if ConfirmComing(w) {
      ConfirmArrives(w, na, nb);
    } else {
      KeepAliveConfirms(w, na, nb);
    }
  }

  // ----- a handshake that is not open never completes -----

  /** b has given up on the dialler, which never heard from it. */
  predicate Unanswered(w: World) {
    w.a.rcv.remote == "" && w.b.conn.tcp == SynReceived && w.b.conn.attempts >= Conn.MAX_ATTEMPTS && !SynAckComing(w)
  }

  /** The dialler sent its only confirmation, and it was lost. */
  predicate Unconfirmed(w: World) {
    w.a.rcv.remote != "" && w.b.conn.tcp == SynReceived && !w.a.hasDest && !ConfirmComing(w)
  }

  predicate Stuck(w: World) {
    w.a.conn.tcp == Closed || w.b.conn.tcp == Closed || w.b.conn.halted || Unanswered(w) || Unconfirmed(w)
  }

  lemma StuckUnlessOpen(w: World, na: string, nb: string)
    requires Good(w, na, nb) && !Open(w)
    ensures Stuck(w)
  {
    hide Inv, FromDialler, FromPassive;
    GoodFacts(w, na, nb);
  }

  lemma StuckNotEstablished(w: World, na: string, nb: string)
    requires Good(w, na, nb) && Stuck(w)
    ensures !BothEstablished(w)
  {
    hide Inv, FromDialler, FromPassive;
    GoodFacts(w, na, nb);
  }

  lemma NoSynAck(w: World, na: string, nb: string)
    requires Shake(w, na, nb) && !SynAckComing(w)
    ensures forall p :: p in w.toA ==> FromPassive(p, na, nb, false)
  {
    hide Named, DiallerState, PassiveState, FromDialler;
  }

  lemma NoConfirm(w: World, na: string, nb: string)
    requires Shake(w, na, nb) && !ConfirmComing(w)
    ensures forall p :: p in w.toB ==> FromDialler(p, na, nb, false)
  {
    hide Named, DiallerState, PassiveState, FromPassive;
  }

  lemma DiallerStuck(w: World, a: Action, na: string, nb: string)
    requires Good(w, na, nb) && Stuck(w) && CanActA(w, a)
    ensures Stuck(ActA(w, a))
  {
    hide Inv, Shake, Act, Named, DiallerState, PassiveState, FromDialler, FromPassive;
    GoodFacts(w, na, nb);
    ShakeSays(w, na, nb);
    if Unanswered(w) {
      NoSynAck(w, na, nb);
      DiallerActs(w, a, na, nb, false);
    } else {
      DiallerActs(w, a, na, nb, w.b.rcv.remote == na);
      if Unconfirmed(w) {
        DiallerRemote(w, na, nb);
      }
    }
  }

  lemma DiallerRemote(w: World, na: string, nb: string)
    requires Shake(w, na, nb)
    ensures w.a.rcv.remote == "" || w.a.rcv.remote == nb
  {
    hide Named, PassiveState, FromDialler, FromPassive;
  }

  lemma PassiveStuck(w: World, a: Action, na: string, nb: string)
    requires Good(w, na, nb) && Stuck(w) && CanActA(Flip(w), a) && !a.Dial?
    ensures Stuck(Flip(ActA(Flip(w), a)))
  {
    hide Inv, Shake, Act, Named, DiallerState, FromDialler, FromPassive;
    GoodFacts(w, na, nb);
    ShakeSays(w, na, nb);
    if Unconfirmed(w) {
      NoConfirm(w, na, nb);
      PassiveActs(w, a, na, nb, false);
    } else {
      PassiveActs(w, a, na, nb, w.a.rcv.remote == nb);
    }
  }

  lemma StuckStays(w: World, l: Label, na: string, nb: string)
    requires Good(w, na, nb) && Stuck(w) && CanStep(w, l) && l != Do(B, Action.Dial)
    ensures Stuck(Next(w, l))
  {
    hide Inv, Shake, ActA, CanActA, Good;
    GoodFacts(w, na, nb);
    match l
    case Do(side, a) =>
      hide Stuck;
      if side.A? { DiallerStuck(w, a, na, nb); } else { PassiveStuck(w, a, na, nb); }
    case Lose(side, p) =>
  }

  lemma {:induction false} StuckForever(w: World, ls: seq<Label>, na: string, nb: string)
    requires Good(w, na, nb) && Stuck(w) && Runs(w, ls) && OneDialler(ls)
    ensures !BothEstablished(After(w, ls))
    decreases |ls|
  {
    hide Good, Stuck, CanStep, Next, BothEstablished;
    GoodFacts(w, na, nb);
    if ls == [] {
      StuckNotEstablished(w, na, nb);
    } else {
      GoodStays(w, ls[0], na, nb);
      StuckStays(w, ls[0], na, nb);
      StuckForever(Next(w, ls[0]), ls[1..], na, nb);
    }
  }

  /** After any run with a single dialler the handshake can still be completed if and
      only if it is open. */
  lemma HandshakeCompletes(ca: Config, cb: Config, ls: seq<Label>)
    requires GoodNonces(ca, cb) && Runs(Start(ca, cb), ls) && OneDialler(ls)
    ensures var w := After(Start(ca, cb), ls); Connects(w) <==> Open(w)
  {
    hide Inv, Start, Runs, After, Shake, Open, Stuck, BothEstablished, OneDialler;
    var w := After(Start(ca, cb), ls);
    assert DialsTo(Start(ca, cb), w);
    if Open(w) {
      OpenConnects(w, ca.nonce, cb.nonce);
    } else {
      StuckUnlessOpen(w, ca.nonce, cb.nonce);
      forall more | Runs(w, more) && OneDialler(more)
        ensures !BothEstablished(After(w, more))
      {
        StuckForever(w, more, ca.nonce, cb.nonce);
      }
    }
  }
}
