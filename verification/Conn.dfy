/** Connection set-up and tear-down at one endpoint as functions: the parts of
    recv.go and retry.go that read and write TcpState, the nonces and the
    pending connect request. */
module Conn {
  import opened Tcp
  import opened Packets
  import opened Receiver

  datatype Conn = Conn(
    tcp: TcpState,
    pending: bool,            // connReqPending is set
    locked: bool,             // RemoteInbox is known
    retrying: bool,           // retry.inUse
    retryState: TcpState,     // retry.curState
    retryAction: TcpAction,   // retry.firstStateAction
    causal: Packet,           // retry.causalPacket, meaningful while retrying
    attempts: nat,            // retry.attemptCount
    halted: bool,             // the loop has ended
    callback: bool,           // AppCloseCallback is set
    told: nat)                // how often it was called

  const MAX_ATTEMPTS := 10

  function NoPacket(): Packet {
    Packet("", "", EventNil, Fresh, 0, 0, 0, 0, 0, [], 0)
  }

  function Init(hasDest: bool, callback: bool): Conn {
    Conn(Listen, false, hasDest, false, Listen, NoAction, NoPacket(), 0, false, callback, 0)
  }

  predicate Live(c: Conn) {
    !c.halted && c.tcp != Closed
  }

  predicate IsRetryState(s: TcpState) {
    s == SynSent || s == SynReceived || s == CloseInitiatorHasSentFin
  }

  /** setupRetry, called after a change of state from pre. */
  function SetUp(c: Conn, pre: TcpState, p: Packet, act: TcpAction): Conn {
    if c.tcp == pre then c
    else if IsRetryState(c.tcp) then c.(retrying := true, retryState := c.tcp, retryAction := act, causal := p)
    else c.(retrying := false)
  }

  datatype Outcome = Panics | Does(r: Receiver, c: Conn, acks: seq<Packet>)

  function Reply(r: Receiver, c: Conn, event: TcpEvent): Outcome {
    var (r', ack) := Acked(r, event);
    Does(r', c, [ack])
  }

  /** The application is told that the peer is closing, once. */
  function Told(c: Conn): Conn {
    if c.callback then c.(callback := false, told := c.told + 1) else c
  }

  /** doTcpAction. */
  function DoAction(r: Receiver, c: Conn, act: TcpAction, p: Packet): (o: Outcome)
    ensures o.Does? ==> o.c.tcp == c.tcp && o.c.halted == c.halted
  {
    match act
    case NoAction => Does(r, c, [])
    case SendDataAck => Reply(r, c, EventDataAck)
    case SendSyn => Reply(r, c, EventSyn)
    case SendSynAck =>
      if r.remote != "" && r.remote != p.fromNonce then Panics
      else Reply(r.(remote := p.fromNonce), c, EventSynAck)
    case SendEstabAck =>
      if r.remote != "" || !c.pending then Panics
      else Reply(r.(remote := p.fromNonce), c.(pending := false), EventEstabAck)
    case SendFin => Reply(r, c, EventFin)
    case SendFinAck => Reply(r, c, EventFinAck)
    case DoAppClose => Reply(r, Told(c), EventFinAck)
  }

  /** One event: the state update, the retry set-up and the action. */
  function Handled(r: Receiver, c: Conn, event: TcpEvent, p: Packet): (o: Outcome)
    ensures o.Does? ==> o.c.tcp == Update(c.tcp, event, p.fromState).0 && o.c.halted == c.halted
  {
    var (st, act) := Update(c.tcp, event, p.fromState);
    DoAction(r, SetUp(c.(tcp := st), c.tcp, p, act), act, p)
  }

  /** The doNextEvent loop. It ends because the event that follows DoAppClose
      arrives in a state of higher rank. */
  function HandleEvent(r: Receiver, c: Conn, event: TcpEvent, p: Packet): Outcome
    decreases 6 - Rank(c.tcp)
  {
    match Handled(r, c, event, p)
    case Panics => Panics
    case Does(r2, c2, acks) =>
      if Update(c.tcp, event, p.fromState).1 != DoAppClose then Does(r2, c2, acks)
      else
        match HandleEvent(r2, c2, EventApplicationClosed, p)
        case Panics => Panics
        case Does(r3, c3, more) => Does(r3, c3, acks + more)
  }

  /** The SYN packet of an active open. */
  function SynPacket(r: Receiver): Packet {
    Packet(r.local, "", EventSyn, Fresh, -98, 0, 0, 0, 0, [], 0)
  }

  /** The ConnectCh arm: the new state and the SYN, if one is sent. */
  function Dialling(r: Receiver, c: Conn): (Conn, seq<Packet>) {
    var c1 := c.(locked := true);
    if c.tcp == Listen || c.tcp == SynSent then (c1.(pending := true, tcp := SynSent), [SynPacket(r)])
    else (c1, [])
  }

  /** retryCheck, when more than a second has passed since the last attempt. */
  function Retried(r: Receiver, c: Conn): Outcome {
    if !c.retrying then Does(r, c, [])
    else if c.retryState != c.tcp then Does(r, c.(retrying := false), [])
    else
      var c1 := c.(attempts := c.attempts + 1);
      if c1.attempts > MAX_ATTEMPTS then Does(r, c1.(retrying := false, halted := true), [])
      else DoAction(r, c1, c.retryAction, c.causal)
  }

  /** A receiver that knows no remote locks onto the first one that sends a SYN. */
  function LockedOn(r: Receiver, c: Conn, p: Packet): (Receiver, Conn) {
    if p.event == EventSyn && (c.tcp == Fresh || c.tcp == Listen) && !c.locked
    then (r.(remote := p.fromNonce), c.(locked := true))
    else (r, c)
  }

  /** Packets of other sessions are dropped. */
  predicate Accepts(r: Receiver, c: Conn, p: Packet) {
    && (p.destNonce != "" || AtLeastEstablished(c.tcp) ==> p.destNonce == r.local)
    && (r.remote != "" ==> p.fromNonce == r.remote)
  }

  /** A step of the connection only raises the rank of its state. */
  lemma {:induction false} EventRaisesRank(r: Receiver, c: Conn, event: TcpEvent, p: Packet)
    requires HandleEvent(r, c, event, p).Does?
    ensures var c' := HandleEvent(r, c, event, p).c;
            c'.tcp == c.tcp || Rank(c'.tcp) > Rank(c.tcp)
    decreases 6 - Rank(c.tcp)
  {
    var o := Handled(r, c, event, p);
    if Update(c.tcp, event, p.fromState).1 == DoAppClose {
      EventRaisesRank(o.r, o.c, EventApplicationClosed, p);
    }
  }
}
