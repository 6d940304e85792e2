/** The connection state machine of tcp.go: a small relative of the one in
    section 3.3.2 of RFC 9293. */
module Tcp {

  datatype TcpState =
    | Fresh | Closed | Listen | SynReceived | SynSent | Established
    | CloseInitiatorHasSentFin | CloseResponderGotFin

  datatype TcpEvent =
    | EventNil | EventStartListen | EventStartConnect | EventSyn | EventSynAck | EventEstabAck
    | EventStartClose | EventApplicationClosed | EventFin | EventFinAck
    | EventDataAck | EventData | EventKeepAlive

  datatype TcpAction =
    | NoAction | SendSyn | SendSynAck | SendEstabAck | SendFin | SendFinAck | DoAppClose | SendDataAck

  /** The receive loop compares states by their number: from Established on,
      every packet must carry the local nonce. */
  predicate AtLeastEstablished(s: TcpState) {
    s.Established? || s.CloseInitiatorHasSentFin? || s.CloseResponderGotFin?
  }

  /** What UpdateTcp does: the new state and the action to take. */
  function Update(s: TcpState, e: TcpEvent, fromState: TcpState): (TcpState, TcpAction) {
    match s
    case Closed => (Closed, SendFinAck)
    case Fresh =>
      (match e
       case EventStartListen => (Listen, NoAction)
       case EventStartConnect => (SynSent, SendSyn)
       case _ => (s, NoAction))
    case Listen =>
      (match e
       case EventSyn => (SynReceived, SendSynAck)
       case EventFin => (CloseResponderGotFin, DoAppClose)
       case _ => (s, NoAction))
    case SynReceived =>
      (match e
       case EventEstabAck => (Established, NoAction)
       case EventKeepAlive => (if fromState == Established then Established else s, NoAction)
       case EventFin => (CloseResponderGotFin, DoAppClose)
       case _ => (s, NoAction))
    case SynSent =>
      (match e
       case EventSynAck => (Established, SendEstabAck)
       case EventSyn => (SynReceived, SendEstabAck)
       case EventFin => (CloseResponderGotFin, DoAppClose)
       case _ => (s, NoAction))
    case Established =>
      (match e
       case EventKeepAlive => (s, SendDataAck)
       case EventStartClose => (CloseInitiatorHasSentFin, SendFin)
       case EventFin => (CloseResponderGotFin, DoAppClose)
       case _ => (s, NoAction))
    case CloseInitiatorHasSentFin =>
      (match e
       case EventFinAck => (Closed, NoAction)
       case EventFin => (Closed, NoAction)
       case _ => (s, NoAction))
    case CloseResponderGotFin =>
      (match e
       case EventApplicationClosed => (Closed, NoAction)
       case _ => (s, NoAction))
  }

  /** What a Connect request does to the state. */
  function Dialled(s: TcpState): TcpState {
    if s == Listen || s == SynSent then SynSent else s
  }

  /** The progress measure of a connection. */
  function Rank(s: TcpState): nat {
    match s
    case Fresh => 0
    case Listen => 1
    case SynSent => 2
    case SynReceived => 3
    case Established => 4
    case CloseInitiatorHasSentFin => 5
    case CloseResponderGotFin => 5
    case Closed => 6
  }

  /** The event that follows DoAppClose arrives in a state of higher rank. */
  lemma CloseRank(s: TcpState, e: TcpEvent, fromState: TcpState)
    ensures Rank(s) <= 6
    ensures var (st, act) := Update(s, e, fromState); act == DoAppClose ==> Rank(s) < Rank(st) <= 6
  {
  }

  datatype Input = Event(event: TcpEvent, fromState: TcpState) | Dial

  function Fed(s: TcpState, i: Input): TcpState {
    match i
    case Event(e, from) => Update(s, e, from).0
    case Dial => Dialled(s)
  }

  /** The state after a whole sequence of events and Connect requests. */
  function FedAll(s: TcpState, inputs: seq<Input>): TcpState
    decreases |inputs|
  {
    if inputs == [] then s else FedAll(Fed(s, inputs[0]), inputs[1..])
  }

  /** How many of those inputs changed the state. */
  function Changes(s: TcpState, inputs: seq<Input>): nat
    decreases |inputs|
  {
    if inputs == [] then 0
    else (if Fed(s, inputs[0]) != s then 1 else 0) + Changes(Fed(s, inputs[0]), inputs[1..])
  }

  /** Every change of state raises the rank, so changes are bounded by the rank gained. */
  lemma {:induction false} ChangesRaiseRank(s: TcpState, inputs: seq<Input>)
    ensures Changes(s, inputs) + Rank(s) <= Rank(FedAll(s, inputs)) <= 6
    decreases |inputs|
  {
    if inputs == [] {
    } else {
      ChangesRaiseRank(Fed(s, inputs[0]), inputs[1..]);
    }
  }

  /** A session starts in Listen: whatever arrives, in whatever order, its state
      changes at most five times, and five is attained. */
  lemma AtMostFiveChanges(inputs: seq<Input>)
    ensures Changes(Listen, inputs) <= 5
    ensures exists five :: Changes(Listen, five) == 5
  {
    ChangesRaiseRank(Listen, inputs);
    var i0, i1, i2 := Dial, Event(EventSyn, Fresh), Event(EventEstabAck, Fresh);
    var i3, i4 := Event(EventFin, Fresh), Event(EventApplicationClosed, Fresh);
    assert [i4][1..] == [] && [i3, i4][1..] == [i4] && [i2, i3, i4][1..] == [i3, i4];
    assert [i1, i2, i3, i4][1..] == [i2, i3, i4] && [i0, i1, i2, i3, i4][1..] == [i1, i2, i3, i4];
    assert Changes(CloseResponderGotFin, [i4]) == 1;
    assert Changes(Established, [i3, i4]) == 2;
    assert Changes(SynReceived, [i2, i3, i4]) == 3;
    assert Changes(SynSent, [i1, i2, i3, i4]) == 4;
    assert Changes(Listen, [i0, i1, i2, i3, i4]) == 5;
  }

  /** Closed is final, and rank 6 is reached only there. */
  lemma {:induction false} ClosedIsFinal(inputs: seq<Input>)
    ensures FedAll(Closed, inputs) == Closed
  {
    if inputs == [] {
    } else {
      ClosedIsFinal(inputs[1..]);
    }
  }
}
