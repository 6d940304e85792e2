/** What a session does with a packet that carries no data: which packets it takes, what
    it answers, how its state changes, and when the application is told to close. */
module Reactions {
  import opened Tcp
  import opened Packets
  import opened Receiver
  import opened Protocol
  import opened Safety
  import opened Handshake
  import opened Liveness
  import Sender
  import Conn

  // ----- which packets a session takes -----

  /** e knows no remote yet, and p is the SYN that tells it one. */
  predicate LocksOn(e: Endpoint, p: Packet) {
    p.event == EventSyn && (e.conn.tcp == Fresh || e.conn.tcp == Listen) && !e.conn.locked
  }

  predicate BeforeEstablished(s: TcpState) {
    s == Fresh || s == Closed || s == Listen || s == SynReceived || s == SynSent
  }

  /** The packet comes from the remote session, if that is known, and is meant for this
      one; only a session that was never Established takes one for nobody in particular. */
  predicate Takes(e: Endpoint, p: Packet) {
    && (e.rcv.remote == "" || p.fromNonce == e.rcv.remote || LocksOn(e, p))
    && (p.destNonce == e.rcv.local || (p.destNonce == "" && BeforeEstablished(e.conn.tcp)))
  }

  lemma TakesExactly(e: Endpoint, p: Packet)
    ensures var (r, c) := Conn.LockedOn(e.rcv, e.conn, p);
            && (Conn.Accepts(r, c, p) <==> Takes(e, p))
            && r == e.rcv.(remote := if LocksOn(e, p) then p.fromNonce else e.rcv.remote)
            && c == e.conn.(locked := e.conn.locked || LocksOn(e, p))
  {
  }

  /** A packet that is not taken changes nothing, except that a SYN for another session
      may still have been locked on to. */
  lemma OthersIgnored(e: Endpoint, p: Packet)
    requires Sender.Ok(e.snd) && !Takes(e, p)
    ensures var s := Arrive(e, p);
            && s.Stepped? && s.out == {} && s.e == e.(rcv := s.e.rcv, conn := s.e.conn)
            && (!LocksOn(e, p) ==> s.e == e)
  {
    TakesExactly(e, p);
    hide Conn.Accepts, Conn.LockedOn, Takes;
  }

  // ----- the whole table -----

  predicate Answers(o: Conn.Outcome, event: TcpEvent) {
    o.Does? && |o.acks| == 1 && o.acks[0].event == event
  }

  /** The first packet of a peer, or the second one for a session that asked for it. */
  predicate Greets(c: Conn.Conn, p: Packet) {
    c.tcp == SynSent && (p.event == EventSynAck || p.event == EventSyn)
  }

  /** Which answer each event gets, for every state; all others get none. */
  predicate AnswersExactly(c: Conn.Conn, p: Packet, o: Conn.Outcome) {
    && o.Does? && |o.acks| <= 1
    && (Answers(o, EventSyn) <==> c.tcp == Fresh && p.event == EventStartConnect)
    && (Answers(o, EventSynAck) <==> c.tcp == Listen && p.event == EventSyn)
    && (Answers(o, EventEstabAck) <==> Greets(c, p))
    && (Answers(o, EventDataAck) <==> c.tcp == Established && p.event == EventKeepAlive)
    && (Answers(o, EventFin) <==> c.tcp == Established && p.event == EventStartClose)
    && (Answers(o, EventFinAck) <==> c.tcp == Closed || Closes(c, p))
    && (o.acks != [] ==> o.acks[0].event != EventNil && Answers(o, o.acks[0].event))
    && (o.acks != [] ==>
          o.acks[0].event in {EventSyn, EventSynAck, EventEstabAck, EventDataAck, EventFin, EventFinAck})
  }

  /** The state afterwards. */
  predicate MovesExactly(c: Conn.Conn, p: Packet, s: TcpState) {
    && (s == Established <==>
          || (c.tcp == Established && p.event != EventStartClose && p.event != EventFin)
          || (c.tcp == SynReceived && Confirms(p)) || (c.tcp == SynSent && p.event == EventSynAck))
    && (s == SynReceived <==>
          || (c.tcp == SynReceived && !Confirms(p) && p.event != EventFin)
          || ((c.tcp == Listen || c.tcp == SynSent) && p.event == EventSyn))
    && (s == CloseInitiatorHasSentFin <==>
          || (c.tcp == Established && p.event == EventStartClose)
          || (c.tcp == CloseInitiatorHasSentFin && p.event != EventFin && p.event != EventFinAck))
    && (s == Closed <==>
          || c.tcp == Closed || Closes(c, p)
          || (c.tcp == CloseInitiatorHasSentFin && (p.event == EventFin || p.event == EventFinAck))
          || (c.tcp == CloseResponderGotFin && p.event == EventApplicationClosed))
    && (s == CloseResponderGotFin <==> c.tcp == CloseResponderGotFin && p.event != EventApplicationClosed)
    && (s == SynSent <==>
          || (c.tcp == Fresh && p.event == EventStartConnect)
          || (c.tcp == SynSent && !Greets(c, p) && p.event != EventFin))
    && (s == Listen <==>
          || (c.tcp == Fresh && p.event == EventStartListen)
          || (c.tcp == Listen && p.event != EventSyn && p.event != EventFin))
  }

  /** The panics of doTcpAction: a second remote, and a confirmation nobody asked for. */
  predicate Refuses(r: Receiver, c: Conn.Conn, p: Packet) {
    || (c.tcp == Listen && p.event == EventSyn && r.remote != "" && r.remote != p.fromNonce)
    || (Greets(c, p) && (r.remote != "" || !c.pending))
  }

  /** What else changes: the remote is learned with the first answer to it, and the
      application is told exactly when the peer closes. */
  predicate ChangesExactly(r: Receiver, c: Conn.Conn, p: Packet, o: Conn.Outcome) {
    && o.Does?
    && o.r.remote == (if (c.tcp == Listen && p.event == EventSyn) || Greets(c, p) then p.fromNonce else r.remote)
    && o.c.told == c.told + (if Closes(c, p) && c.callback then 1 else 0)
    && o.c.callback == (c.callback && !Closes(c, p))
    && o.c.attempts == c.attempts && o.c.halted == c.halted && o.c.locked == c.locked
    && (o.c.pending <==> c.pending && !Greets(c, p))
  }

  /** An action that was done can be done again, with the same answer, as long as the
      two panics are out of the way. */
  predicate SameAgain(r: Receiver, c: Conn.Conn, act: TcpAction, p: Packet, acks: seq<Packet>)
    requires acks != []
  {
    var again := Conn.DoAction(r.(remote := ""), c.(pending := true), act, p);
    again.Does? && |again.acks| == 1 && again.acks[0].event == acks[0].event
  }

  /** After a change of state exactly the states that wait for an answer repeat theirs. */
  predicate RepeatsExactly(c: Conn.Conn, p: Packet, o: Conn.Outcome) {
    && o.Does?
    && (o.c.tcp == c.tcp ==>
          && o.c.retrying == c.retrying
          && (c.retrying ==> o.c.retryState == c.retryState && o.c.causal == c.causal && o.c.retryAction == c.retryAction))
    && (o.c.tcp != c.tcp ==>
          (o.c.retrying <==> o.c.tcp == SynSent || o.c.tcp == SynReceived || o.c.tcp == CloseInitiatorHasSentFin))
    && (o.c.tcp != c.tcp && o.c.retrying ==>
          && o.c.retryState == o.c.tcp && o.c.causal == p && o.acks != []
          && SameAgain(o.r, o.c, o.c.retryAction, p, o.acks))
  }

  lemma Moves(c: Conn.Conn, p: Packet)
    requires !Closes(c, p)
    ensures MovesExactly(c, p, Update(c.tcp, p.event, p.fromState).0)
  {
  }

  lemma HandledAnswers(r: Receiver, c: Conn.Conn, p: Packet)
    requires p.event != EventData && !Closes(c, p)
    ensures var o := Conn.Handled(r, c, p.event, p);
            (o.Panics? <==> Refuses(r, c, p)) && (o.Does? ==> AnswersExactly(c, p, o))
  {
    hide Control, Conn.SetUp;
    var (st, act) := Update(c.tcp, p.event, p.fromState);
    var c1 := Conn.SetUp(c.(tcp := st), c.tcp, p, act);
    assert c1.pending == c.pending by { SetUpKeeps(c.(tcp := st), c.tcp, p, act); }
  }

  lemma SetUpKeeps(c: Conn.Conn, pre: TcpState, p: Packet, act: TcpAction)
    ensures var c1 := Conn.SetUp(c, pre, p, act);
            c1 == c.(retrying := c1.retrying, retryState := c1.retryState, retryAction := c1.retryAction, causal := c1.causal)
  {
  }

  lemma HandledChanges(r: Receiver, c: Conn.Conn, p: Packet)
    requires p.event != EventData && !Closes(c, p)
    ensures var o := Conn.Handled(r, c, p.event, p); o.Does? ==> ChangesExactly(r, c, p, o)
  {
    hide Conn.SetUp;
    var (st, act) := Update(c.tcp, p.event, p.fromState);
    OtherActs(c, p);
    SetUpKeeps(c.(tcp := st), c.tcp, p, act);
  }

  lemma ActionAgain(r: Receiver, c: Conn.Conn, act: TcpAction, p: Packet)
    ensures var o := Conn.DoAction(r, c, act, p);
            && (o.Does? && o.acks != [] ==> SameAgain(o.r, o.c, act, p, o.acks))
            && (o.Does? ==> o.c.retrying == c.retrying && o.c.retryState == c.retryState && o.c.retryAction == c.retryAction
                            && o.c.causal == c.causal && (o.acks == [] <==> act == NoAction))
  {
    hide Control;
  }

  lemma EnteredWithAnswer(c: Conn.Conn, p: Packet)
    requires !Closes(c, p)
    ensures var (st, act) := Update(c.tcp, p.event, p.fromState); st != c.tcp && Conn.IsRetryState(st) ==> act != NoAction
  {
  }

  lemma HandledRepeats(r: Receiver, c: Conn.Conn, p: Packet)
    requires p.event != EventData && !Closes(c, p)
    ensures var o := Conn.Handled(r, c, p.event, p); o.Does? ==> RepeatsExactly(c, p, o)
  {
    var (st, act) := Update(c.tcp, p.event, p.fromState);
    ActionAgain(r, Conn.SetUp(c.(tcp := st), c.tcp, p, act), act, p);
    EnteredWithAnswer(c, p);
    hide Update, Conn.DoAction, SameAgain;
  }

  lemma OrdinaryReacts(r: Receiver, c: Conn.Conn, p: Packet)
    requires p.event != EventData && !Closes(c, p)
    ensures var o := Conn.HandleEvent(r, c, p.event, p);
            && (o.Panics? <==> Refuses(r, c, p))
            && (o.Does? ==> AnswersExactly(c, p, o) && MovesExactly(c, p, o.c.tcp)
                            && ChangesExactly(r, c, p, o) && RepeatsExactly(c, p, o))
  {
    OtherActs(c, p);
    OtherHandled(r, c, p);
    hide Conn.HandleEvent, Conn.Handled, Update, Refuses, AnswersExactly, MovesExactly, ChangesExactly, RepeatsExactly;
    Moves(c, p);
    HandledAnswers(r, c, p);
    HandledChanges(r, c, p);
    HandledRepeats(r, c, p);
  }

  lemma OtherActs(c: Conn.Conn, p: Packet)
    requires !Closes(c, p)
    ensures Update(c.tcp, p.event, p.fromState).1 != DoAppClose
  {
  }

  lemma CloseReacts(r: Receiver, c: Conn.Conn, p: Packet)
    requires p.event != EventData && Closes(c, p)
    ensures var o := Conn.HandleEvent(r, c, p.event, p);
            && o.Does? && !Refuses(r, c, p) && AnswersExactly(c, p, o) && MovesExactly(c, p, o.c.tcp)
            && ChangesExactly(r, c, p, o) && RepeatsExactly(c, p, o)
  {
    CloseHandled(r, c, p);
    AckedNames(r, EventFinAck);
    hide Conn.HandleEvent, Acked;
  }

  /** What every event does in every state, the loop over follow-up events included. */
  lemma Reacts(r: Receiver, c: Conn.Conn, p: Packet)
    requires p.event != EventData
    ensures var o := Conn.HandleEvent(r, c, p.event, p);
            && (o.Panics? <==> Refuses(r, c, p))
            && (o.Does? ==> AnswersExactly(c, p, o) && MovesExactly(c, p, o.c.tcp)
                            && ChangesExactly(r, c, p, o) && RepeatsExactly(c, p, o))
  {
    hide Conn.HandleEvent, AnswersExactly, MovesExactly, ChangesExactly, RepeatsExactly;
    if Closes(c, p) {
      CloseReacts(r, c, p);
    } else {
      OrdinaryReacts(r, c, p);
    }
  }

  // ----- requests and timers -----

  /** A connect request: the session is locked onto its remote, and the SYN, which offers
      no room, goes out as long as nothing was heard from there. */
  lemma DialExactly(e: Endpoint, inbox: set<Packet>)
    requires Sender.Ok(e.snd) && Conn.Live(e.conn)
    ensures var s := Act(e, Action.Dial, inbox);
            && s.Stepped?
            && if e.conn.tcp == Listen || e.conn.tcp == SynSent
               then s.e == e.(conn := e.conn.(locked := true, pending := true, tcp := SynSent))
                    && s.out == {Packet(e.rcv.local, "", EventSyn, Fresh, -98, 0, 0, 0, 0, [], 0)}
               else s.e == e.(conn := e.conn.(locked := true)) && s.out == {}
  {
    var syn := Conn.SynPacket(e.rcv);
    assert SetOf([syn]) == {syn} && SetOf([]) == {};
  }

  /** The event that a repeated action sends. */
  predicate Repeating(act: TcpAction, event: TcpEvent) {
    || (act == SendSyn && event == EventSyn) || (act == SendSynAck && event == EventSynAck)
    || (act == SendEstabAck && event == EventEstabAck) || (act == SendFin && event == EventFin)
  }

  /** The retry is still about the state the session is in. */
  predicate Waits(c: Conn.Conn) {
    c.retrying && c.retryState == c.tcp && c.attempts < 10
  }

  /** The retry timer: ten repetitions, then the session ends; a retry that is over is
      dropped; and without one nothing happens. */
  lemma TimerExactly(e: Endpoint, event: TcpEvent, inbox: set<Packet>)
    requires Sender.Ok(e.snd) && Conn.Live(e.conn) && (e.conn.retrying ==> Repeating(e.conn.retryAction, event))
    ensures var c, s := e.conn, Act(e, RetryTimer, inbox);
            && (s.Panicked? <==>
                  Waits(c) && ((c.retryAction == SendSynAck && e.rcv.remote != "" && e.rcv.remote != c.causal.fromNonce) ||
                               (c.retryAction == SendEstabAck && (e.rcv.remote != "" || !c.pending))))
            && (s.Stepped? && Waits(c) ==>
                  && s.e.conn.attempts == c.attempts + 1 && s.e.conn.tcp == c.tcp && !s.e.conn.halted && s.e.conn.retrying
                  && exists q :: s.out == {q} && q.event == event && q.fromNonce == e.rcv.local && q.ackNum == e.rcv.consumed)
            && (!Waits(c) ==>
                  && s.e == e.(conn := s.e.conn) && s.out == {} && !s.e.conn.retrying && s.e.conn.tcp == c.tcp
                  && (s.e.conn.halted <==> c.retrying && c.retryState == c.tcp))
  {
    var o := Conn.Retried(e.rcv, e.conn);
    if o.Does? {
      OneAnswer(o.acks);
      LearnedOnlyRemote(e.snd, o.acks);
    }
    hide SetOf, LearnedAll;
  }

  lemma OneAnswer(acks: seq<Packet>)
    ensures |acks| == 1 ==> SetOf(acks) == {acks[0]}
    ensures acks == [] ==> SetOf(acks) == {}
  {
    if |acks| == 1 { assert acks[0] in acks; }
  }

  // ----- the peer closes -----

  /** e is closed, its application was told if it asked to be, and e answered with the
      one FinAck q, which acknowledges what it consumed. */
  predicate ClosedBy(e: Endpoint, e': Endpoint, q: Packet) {
    && e'.conn.tcp == Closed && e'.app == e.app && e'.rcv.consumed == e.rcv.consumed && e'.rcv.ready == e.rcv.ready
    && e'.conn.told == e.conn.told + (if e.conn.callback then 1 else 0) && !e'.conn.callback
    && q.event == EventFinAck && q.fromNonce == e.rcv.local && q.destNonce == e.rcv.remote && q.ackNum == e.rcv.consumed
  }

  lemma ArrivedLeaves(r: Receiver, p: Packet, event: TcpEvent)
    ensures var r1 := Arrived(r, p);
            && r1.consumed == r.consumed && r1.ready == r.ready && SameNames(r, r1)
            && var (r2, ack) := Acked(r1, event);
               && r2.consumed == r.consumed && r2.ready == r.ready && SameNames(r, r2)
               && ack.event == event && ack.fromNonce == r.local && ack.destNonce == r.remote && ack.ackNum == r.consumed
  {
  }

  lemma FinArrives(e: Endpoint, p: Packet)
    requires Sender.Ok(e.snd) && Takes(e, p) && Closes(e.conn, p) && !ArrivalPanics(e.rcv, p)
    ensures var s := Arrive(e, p); s.Stepped? && exists q :: s.out == {q} && ClosedBy(e, s.e, q)
  {
    TakesExactly(e, p);
    hide Takes, ArrivalPanics, Arrived, Acked, Conn.HandleEvent, Conn.LockedOn, Conn.Accepts, Sender.GotPacket, LearnedAll;
    assert !LocksOn(e, p);
    CloseHandled(Arrived(e.rcv, p), e.conn, p);
    ArrivedLeaves(e.rcv, p, EventFinAck);
    var ack := Acked(Arrived(e.rcv, p), EventFinAck).1;
    assert SetOf([ack]) == {ack};
  }

  /** In every run: a FIN that a session takes, in any state before it is closing,
      closes it at once, and exactly one FinAck is on its way to the peer. */
  lemma FinCloses(w: World, p: Packet)
    requires Reached(w) && p in w.toA && Conn.Live(w.a.conn) && Takes(w.a, p) && Closes(w.a.conn, p)
    ensures var l := Do(A, Deliver(p));
            && CanStep(w, l)
            && exists q :: Next(w, l) == w.(a := Next(w, l).a, toB := w.toB + {q}) && ClosedBy(w.a, Next(w, l).a, q)
  {
    hide ArrivalPanics, Arrive, Takes, ClosedBy;
    ReachedInv(w);
    PairFacts(w.a, w.b, w.toB, w.toA);
    ArrivePanicFree(w.a, w.b, w.toB, w.toA, p);
    NotLocked(w.a, p);
    FinArrives(w.a, p);
  }

  lemma NotLocked(e: Endpoint, p: Packet)
    requires p.event == EventFin
    ensures Conn.LockedOn(e.rcv, e.conn, p) == (e.rcv, e.conn)
  {
  }

  /** Session.Close: the FIN of a session that knows its peer takes the peer to Closed,
      however far the handshake and the data stream have come. */
  lemma CloseReaches(w: World, na: string, nb: string)
    requires Up(w, na, nb)
    ensures exists v, q :: Reaches(w, v) && v.a == w.a && v.toA == w.toA + {q} && ClosedBy(w.b, v.b, q)
  {
    hide Reached, CanStep, Next, ClosedBy, Takes, Act, Allowed, Reaches;
    UpFacts(w, na, nb);
    CloseSent(w.a, w.toA, na, nb);
    StepA(w, Close, na, nb);
    var p, u := FinPacket(w.a), Next(w, Do(A, Close));
    ReachedFlip(u);
    FinTaken(w.b, p, na, nb);
    FinCloses(Flip(u), p);
    var l := Do(A, Deliver(p));
    var q :| Next(Flip(u), l) == Flip(u).(a := Next(Flip(u), l).a, toB := u.toA + {q}) && ClosedBy(u.b, Next(Flip(u), l).a, q);
    FlipStep(Flip(u), l);
    var v := Next(u, FlipLabel(l));
    ReachesSelf(w);
    ReachesStep(w, w, Do(A, Close));
    ReachesStep(w, u, FlipLabel(l));
    assert v.a == w.a && v.toA == w.toA + {q} && ClosedBy(w.b, v.b, q);
  }

  lemma CloseSent(e: Endpoint, inbox: set<Packet>, local: string, remote: string)
    requires Sender.Ok(e.snd) && UpEnd(e, local, remote)
    ensures Allowed(e, Close, inbox) && Act(e, Close, inbox) == Stepped(e, {FinPacket(e)})
    ensures FinPacket(e).event == EventFin && Addressed(FinPacket(e), local, remote)
  {
  }

  lemma FinTaken(e: Endpoint, p: Packet, from: string, local: string)
    requires UpEnd(e, local, from) && p.event == EventFin && Addressed(p, from, local)
    ensures Takes(e, p) && Closes(e.conn, p) && Conn.Live(e.conn)
  {
  }

  // ----- the application is told once -----

  /** The callback is cleared when it is called, and it is called only on closing. */
  predicate ToldOnce(c: Conn.Conn, callback: bool) {
    && c.told <= 1 && (c.callback <==> callback && c.told == 0)
    && (c.told == 1 ==> callback && c.tcp == Closed)
    && (c.retrying ==> c.retryAction != DoAppClose)
  }

  lemma HandledToldOnce(r: Receiver, c: Conn.Conn, p: Packet, callback: bool)
    requires ToldOnce(c, callback) && c.tcp != Closed && p.event != EventData
    ensures var o := Conn.HandleEvent(r, c, p.event, p); o.Does? ==> ToldOnce(o.c, callback)
  {
    if Closes(c, p) {
      CloseHandled(r, c, p);
      hide Conn.HandleEvent;
    } else {
      OtherActs(c, p);
      OtherHandled(r, c, p);
      HandledChanges(r, c, p);
      var (st, act) := Update(c.tcp, p.event, p.fromState);
      ActionAgain(r, Conn.SetUp(c.(tcp := st), c.tcp, p, act), act, p);
      hide Conn.HandleEvent, Conn.DoAction, Update, SameAgain;
    }
  }

  lemma ArriveToldOnce(e: Endpoint, p: Packet, callback: bool)
    requires Sender.Ok(e.snd) && ToldOnce(e.conn, callback) && e.conn.tcp != Closed && Arrive(e, p).Stepped?
    ensures ToldOnce(Arrive(e, p).e.conn, callback)
  {
    TakesExactly(e, p);
    var (r0, c0) := Conn.LockedOn(e.rcv, e.conn, p);
    if p.event != EventData { HandledToldOnce(Arrived(r0, p), c0, p, callback); }
    hide Conn.HandleEvent, Conn.LockedOn, Conn.Accepts, Arrived, DataReceived, Takes, LocksOn, ArrivalPanics, Sender.GotPacket, LearnedAll;
  }

  lemma ActToldOnce(e: Endpoint, a: Action, inbox: set<Packet>, callback: bool)
    requires Sender.Ok(e.snd) && Allowed(e, a, inbox) && Act(e, a, inbox).Stepped? && ToldOnce(e.conn, callback)
    ensures ToldOnce(Act(e, a, inbox).e.conn, callback)
  {
    hide Arrive, Delivered, ReadInto, LearnedAll, Unread;
    match a
    case Deliver(p) => ArriveToldOnce(e, p, callback);
    case _ =>
  }

  lemma StepToldOnce(w: World, l: Label, callback: bool)
    requires CanStep(w, l) && ToldOnce(w.a.conn, callback)
    ensures ToldOnce(Next(w, l).a.conn, callback)
  {
    hide Act, Allowed, ToldOnce;
    match l
    case Do(side, a) => if side.A? { ActToldOnce(w.a, a, w.toA, callback); }
    case Lose(_, _) =>
  }

  lemma {:induction false} RunToldOnce(w: World, ls: seq<Label>, callback: bool)
    requires Runs(w, ls) && ToldOnce(w.a.conn, callback)
    ensures ToldOnce(After(w, ls).a.conn, callback)
    decreases |ls|
  {
    hide CanStep, Next, ToldOnce;
    if ls != [] {
      StepToldOnce(w, ls[0], callback);
      RunToldOnce(Next(w, ls[0]), ls[1..], callback);
    }
  }

  /** In every run a session tells its application at most once that the peer closes,
      and only if it was asked to. */
  lemma CalledBackOnce(ca: Config, cb: Config, ls: seq<Label>)
    requires Runs(Start(ca, cb), ls)
    ensures ToldOnce(After(Start(ca, cb), ls).a.conn, ca.callback)
  {
    hide Runs, After;
    RunToldOnce(Start(ca, cb), ls, ca.callback);
  }
}
