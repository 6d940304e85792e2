/** Two endpoints and a network that may lose, duplicate and reorder packets.
    One step is one arm of a receive or send loop, taken atomically. */
module Protocol {
  import opened Tcp
  import opened Packets
  import opened Receiver
  import Sender
  import Conn

  /** One session: its sender, receiver and connection, whether it was given a
      destination inbox, and the bytes its application has been handed. */
  datatype Endpoint = Endpoint(
    snd: Sender.Sender, rcv: Receiver, conn: Conn.Conn, hasDest: bool, app: seq<byte>)

  datatype Config = Config(nonce: string, window: int, windowBytes: int, hasDest: bool, callback: bool)

  /** NewSWP: both directions get the same window. */
  function NewEndpoint(c: Config): Endpoint {
    Endpoint(Sender.Init(c.nonce, c.window), Init(c.nonce, c.window, c.windowBytes), Conn.Init(c.hasDest, c.callback), c.hasDest, [])
  }

  datatype Action =
    | Push(data: seq<byte>, account: Option<nat>, cliAcked: bool)  // BlockingSend, when the gate is open
    | Retry(frames: set<int>)   // the retry arm; these frames are due
    | Deliver(p: Packet)        // MsgRecv
    | Consume                   // ReadMessagesCh takes everything ready
    | Read(room: nat)           // AcceptReadRequest
    | KeepAlive                 // the keepalive timer, when it leads to a packet
    | Close                     // doSendClosing
    | Dial                      // ConnectCh
    | RetryTimer                // retryTimerCh, more than a second after the last attempt

  predicate Allowed(e: Endpoint, a: Action, inbox: set<Packet>)
    requires Sender.Ok(e.snd)
  {
    && Conn.Live(e.conn)
    && match a
       case Push(_, _, _) => Sender.GateOpen(e.snd)
       case Retry(frames) => forall n :: n in frames ==> e.snd.acked < n < |e.snd.history|
       case Deliver(p) => p in inbox
       case Consume => e.rcv.ready != []
       case KeepAlive => e.hasDest && e.snd.remote != ""
       case _ => true
  }

  /** Overrun is a push into a slot that is still indexed: the key of the slot changes
      inside both trees, and what they do from then on depends on their shape. */
  datatype Step = Panicked | Overrun | Stepped(e: Endpoint, out: set<Packet>)

  function LearnedAll(s: Sender.Sender, acks: seq<Packet>): Sender.Sender
    decreases |acks|
  {
    if acks == [] then s else LearnedAll(Sender.Learned(s, acks[0]), acks[1..])
  }

  function SetOf(ps: seq<Packet>): set<Packet> {
    set p | p in ps
  }

  /** The endpoint after its receiver produced acks, which the sender sends. */
  function Acking(e: Endpoint, r: Receiver, c: Conn.Conn, acks: seq<Packet>): Step {
    Stepped(e.(snd := LearnedAll(e.snd, acks), rcv := r, conn := c), SetOf(acks))
  }

  /** Packet arrival: lock on, filter, ledgers, sender side, then data or info. */
  function Arrive(e: Endpoint, p: Packet): (s: Step)
    requires Sender.Ok(e.snd)
    ensures !s.Overrun?
  {
    var (r0, c0) := Conn.LockedOn(e.rcv, e.conn, p);
    if !Conn.Accepts(r0, c0, p) then Stepped(e.(rcv := r0, conn := c0), {})
    else if ArrivalPanics(r0, p) then Panicked
    else
      var r1 := Arrived(r0, p);
      var e1 := e.(snd := Sender.GotPacket(e.snd, p));
      if p.event == EventData then
        var (r2, acks) := DataReceived(r1, p);
        Acking(e1, r2, c0, acks)
      else
        match Conn.HandleEvent(r1, c0, p.event, p)
        case Panics => Panicked
        case Does(r2, c2, acks) => Acking(e1, r2, c2, acks)
  }

  function KeepAlivePacket(e: Endpoint): Packet {
    Packet(e.snd.local, e.snd.remote, EventKeepAlive, e.conn.tcp, -777, e.rcv.published,
           e.rcv.flow.msgCap, e.rcv.flow.bytesCap, 0, [], 0)
  }

  function FinPacket(e: Endpoint): Packet {
    Packet(e.snd.local, e.snd.remote, EventFin, Fresh, -888, 0,
           e.rcv.flow.msgCap, e.rcv.flow.bytesCap, 0, [], 0)
  }

  function Act(e: Endpoint, a: Action, inbox: set<Packet>): Step
    requires Sender.Ok(e.snd) && Allowed(e, a, inbox)
  {
    match a
    case Push(data, account, cli) =>
      if !Sender.SlotFree(e.snd) then Overrun
      else
        var s := Sender.Sent(e.snd, data, account, cli);
        Stepped(e.(snd := s), {Sender.DataPacket(s, e.rcv.flow, s.history[|s.history| - 1])})
    case Retry(frames) =>
      Stepped(e, set n | n in frames :: Sender.DataPacket(e.snd, e.rcv.flow, e.snd.history[n]))
    case Deliver(p) => Arrive(e, p)
    case Consume =>
      var (r, ack) := Delivered(e.rcv);
      Acking(e.(app := e.app + Unread(e.rcv.ready)), r, e.conn, [ack])
    case Read(room) =>
      var (r, bytes, acks) := ReadInto(e.rcv, room);
      Acking(e.(app := e.app + bytes), r, e.conn, acks)
    case KeepAlive => Stepped(e, {KeepAlivePacket(e)})
    case Close => Stepped(e, {FinPacket(e)})
    case Dial =>
      var (c, syn) := Conn.Dialling(e.rcv, e.conn);
      Stepped(e.(conn := c), SetOf(syn))
    case RetryTimer =>
      match Conn.Retried(e.rcv, e.conn)
      case Panics => Panicked
      case Does(r, c, acks) => Acking(e, r, c, acks)
  }

  // ----- the two endpoints -----

  datatype World = World(a: Endpoint, b: Endpoint, toA: set<Packet>, toB: set<Packet>)

  datatype Side = A | B

  datatype Label = Do(side: Side, action: Action) | Lose(side: Side, p: Packet)

  function Flip(w: World): World {
    World(w.b, w.a, w.toB, w.toA)
  }

  function Start(ca: Config, cb: Config): World {
    World(NewEndpoint(ca), NewEndpoint(cb), {}, {})
  }

  ghost predicate CanActA(w: World, a: Action) {
    Sender.Ok(w.a.snd) && Allowed(w.a, a, w.toA) && Act(w.a, a, w.toA).Stepped?
  }

  /** Endpoint a acts. A delivered packet stays in the network, so that it may
      arrive again; losing it is a step of its own. */
  ghost function ActA(w: World, a: Action): World
    requires CanActA(w, a)
  {
    var s := Act(w.a, a, w.toA);
    w.(a := s.e, toB := w.toB + s.out)
  }

  ghost predicate CanStep(w: World, l: Label) {
    match l
    case Do(side, action) => if side.A? then CanActA(w, action) else CanActA(Flip(w), action)
    case Lose(side, p) => true
  }

  ghost function Next(w: World, l: Label): World
    requires CanStep(w, l)
  {
    match l
    case Do(side, action) => if side.A? then ActA(w, action) else Flip(ActA(Flip(w), action))
    case Lose(side, p) => if side.A? then w.(toA := w.toA - {p}) else w.(toB := w.toB - {p})
  }

  ghost predicate Runs(w: World, ls: seq<Label>)
    decreases |ls|
  {
    ls == [] || (CanStep(w, ls[0]) && Runs(Next(w, ls[0]), ls[1..]))
  }

  /** The world after a run. */
  ghost function After(w: World, ls: seq<Label>): World
    requires Runs(w, ls)
    decreases |ls|
  {
    if ls == [] then w else After(Next(w, ls[0]), ls[1..])
  }

  lemma {:induction false} RunsConcat(w: World, xs: seq<Label>, ys: seq<Label>)
    requires Runs(w, xs) && Runs(After(w, xs), ys)
    ensures Runs(w, xs + ys) && After(w, xs + ys) == After(After(w, xs), ys)
    decreases |xs|
  {
    if xs == [] {
      assert xs + ys == ys;
    } else {
      assert (xs + ys)[0] == xs[0] && (xs + ys)[1..] == xs[1..] + ys;
      RunsConcat(Next(w, xs[0]), xs[1..], ys);
    }
  }

  lemma RunOne(w: World, l: Label)
    requires CanStep(w, l)
    ensures Runs(w, [l]) && After(w, [l]) == Next(w, l)
  {
    assert [l][1..] == [];
    assert Runs(Next(w, l), []);
  }

  /** w' can be reached from w. */
  ghost predicate Reaches(w: World, w': World) {
    exists ls :: Runs(w, ls) && After(w, ls) == w'
  }

  lemma ReachesSelf(w: World)
    ensures Reaches(w, w)
  {
    assert Runs(w, []) && After(w, []) == w;
  }

  lemma ReachesStep(w: World, v: World, l: Label)
    requires Reaches(w, v) && CanStep(v, l)
    ensures Reaches(w, Next(v, l))
  {
    var ls :| Runs(w, ls) && After(w, ls) == v;
    RunOne(v, l);
    RunsConcat(w, ls, [l]);
    assert Runs(w, ls + [l]);
  }

  lemma ReachesTrans(u: World, v: World, w: World)
    requires Reaches(u, v) && Reaches(v, w)
    ensures Reaches(u, w)
  {
    var xs :| Runs(u, xs) && After(u, xs) == v;
    var ys :| Runs(v, ys) && After(v, ys) == w;
    RunsConcat(u, xs, ys);
    assert Runs(u, xs + ys);
  }

  // ----- the two sides are alike -----

  function FlipSide(side: Side): Side {
    if side.A? then B else A
  }

  function FlipLabel(l: Label): Label {
    l.(side := FlipSide(l.side))
  }

  function FlipAll(ls: seq<Label>): (fs: seq<Label>)
    ensures |fs| == |ls| && forall i :: 0 <= i < |ls| ==> fs[i] == FlipLabel(ls[i])
  {
    seq(|ls|, i requires 0 <= i < |ls| => FlipLabel(ls[i]))
  }

  lemma FlipStep(w: World, l: Label)
    requires CanStep(w, l)
    ensures CanStep(Flip(w), FlipLabel(l)) && Next(Flip(w), FlipLabel(l)) == Flip(Next(w, l))
  {
    hide CanActA, ActA;
    assert Flip(Flip(w)) == w;
  }

  /** A run with the sides exchanged leads to the world with the sides exchanged. */
  lemma {:induction false} FlipRun(w: World, ls: seq<Label>)
    requires Runs(w, ls)
    ensures Runs(Flip(w), FlipAll(ls)) && After(Flip(w), FlipAll(ls)) == Flip(After(w, ls))
    decreases |ls|
  {
    if ls != [] {
      hide CanStep, Next;
      FlipStep(w, ls[0]);
      FlipRun(Next(w, ls[0]), ls[1..]);
      assert FlipAll(ls)[1..] == FlipAll(ls[1..]) && FlipAll(ls)[0] == FlipLabel(ls[0]);
    }
  }

  lemma FlipReaches(v: World, w: World)
    requires Reaches(v, w)
    ensures Reaches(Flip(v), Flip(w))
  {
    var ls :| Runs(v, ls) && After(v, ls) == w;
    FlipRun(v, ls);
  }
}
