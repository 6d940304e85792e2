/** The connection fields of RecvState as they are updated in place: UpdateTcp of
    tcp.go, setupRetry and retryCheck of retry.go, doTcpAction and the info arm
    of the receive loop in recv.go. */
module ConnectionLoop {
  import opened Tcp
  import opened Packets
  import opened RecvLoop
  import Conn

  /** In nanoseconds. */
  const SECOND: int := 1_000_000_000

  datatype ConnectError = NoError | LockedElsewhere | WhenNotListen

  class Connection {
    const recv: RecvState
    var TcpState: TcpState
    var connReqPending: bool
    var RemoteInbox: string
    var retryInUse: bool
    var retryCurState: TcpState
    var retryFirstStateAction: TcpAction
    var retryCausalPacket: Packet
    var retryAttemptCount: nat
    var halted: bool
    var AppCloseCallback: bool  // it is not nil
    var told: nat

    function View(): Conn.Conn
      reads this
    {
      Conn.Conn(TcpState, connReqPending, RemoteInbox != "", retryInUse, retryCurState, retryFirstStateAction,
                retryCausalPacket, retryAttemptCount, halted, AppCloseCallback, told)
    }

    constructor (recv: RecvState, destInbox: string, callback: bool)
      ensures View() == Conn.Init(destInbox != "", callback) && this.recv == recv
    {
      this.recv := recv;
      TcpState, connReqPending, RemoteInbox, halted := Listen, false, destInbox, false;
      retryInUse, retryCurState, retryFirstStateAction := false, Listen, NoAction;
      retryCausalPacket, retryAttemptCount := Conn.NoPacket(), 0;
      AppCloseCallback, told := callback, 0;
    }

    /** React to event e of a peer that was in state fromState. */
    method UpdateTcp(e: TcpEvent, fromState: TcpState) returns (act: TcpAction)
      modifies this`TcpState
      ensures (TcpState, act) == Update(old(TcpState), e, fromState)
    {
      act := NoAction;
      match TcpState
      case Closed =>
        act := SendFinAck;
      case Fresh =>
        if e == EventStartListen {
          TcpState := Listen;
        } else if e == EventStartConnect {
          TcpState, act := SynSent, SendSyn;
        }
      case Listen =>
        if e == EventSyn {
          TcpState, act := SynReceived, SendSynAck;
        } else if e == EventFin {
          TcpState, act := CloseResponderGotFin, DoAppClose;
        }
      case SynReceived =>
        if e == EventEstabAck {
          TcpState := Established;
        } else if e == EventKeepAlive {
          if fromState == Established {
            TcpState := Established;
          }
        } else if e == EventFin {
          TcpState, act := CloseResponderGotFin, DoAppClose;
        }
      case SynSent =>
        if e == EventSynAck {
          TcpState, act := Established, SendEstabAck;
        } else if e == EventSyn {
          TcpState, act := SynReceived, SendEstabAck;
        } else if e == EventFin {
          TcpState, act := CloseResponderGotFin, DoAppClose;
        }
      case Established =>
        if e == EventKeepAlive {
          act := SendDataAck;
        } else if e == EventStartClose {
          TcpState, act := CloseInitiatorHasSentFin, SendFin;
        } else if e == EventFin {
          TcpState, act := CloseResponderGotFin, DoAppClose;
        }
      case CloseInitiatorHasSentFin =>
        if e == EventFinAck || e == EventFin {
          TcpState := Closed;
        }
      case CloseResponderGotFin =>
        if e == EventApplicationClosed {
          TcpState := Closed;
        }
    }

    method SetupRetry(pre: TcpState, post: TcpState, pack: Packet, act: TcpAction)
      requires post == TcpState
      modifies this`retryInUse, this`retryCurState, this`retryFirstStateAction, this`retryCausalPacket
      ensures View() == Conn.SetUp(old(View()), pre, pack, act)
    {
      if post == pre {
        return;
      }
      if Conn.IsRetryState(TcpState) {
        retryInUse := true;
        retryCurState := post;
        retryFirstStateAction := act;
        retryCausalPacket := pack;
      } else {
        retryInUse := false;
      }
    }

    /** The application is told once: the callback is cleared. */
    method CallBack()
      modifies this`AppCloseCallback, this`told
      ensures View() == Conn.Told(old(View()))
    {
      if AppCloseCallback {
        told := told + 1;
        AppCloseCallback := false;
      }
    }

    method Ack(event: TcpEvent) returns (acks: seq<Packet>)
      requires recv.Valid()
      modifies recv`LastAvailReaderMsgCap, recv`LastAvailReaderBytesCap, recv.FlowCt
      ensures recv.Valid() && Conn.Reply(old(recv.View()), View(), event) == Conn.Does(recv.View(), View(), acks)
    {
      var ack := recv.Ack(recv.LastFrameClientConsumed, event);
      acks := [ack];
    }

    /** panicked is true where the code panics; next is the event to handle next. */
    method DoTcpAction(act: TcpAction, pack: Packet)
      returns (panicked: bool, next: TcpEvent, acks: seq<Packet>)
      requires recv.Valid()
      modifies this`connReqPending, this`AppCloseCallback, this`told, recv`RemoteSessNonce,
               recv`LastAvailReaderMsgCap, recv`LastAvailReaderBytesCap, recv.FlowCt
      ensures recv.Valid() && next == if act == DoAppClose then EventApplicationClosed else EventNil
      ensures Conn.DoAction(old(recv.View()), old(View()), act, pack) ==
              if panicked then Conn.Panics else Conn.Does(recv.View(), View(), acks)
    {
      hide Ring, RingOk;
      panicked, next, acks := false, EventNil, [];
      match act
      case NoAction =>
      case SendDataAck =>
        acks := Ack(EventDataAck);
      case SendSyn =>
        acks := Ack(EventSyn);
      case SendSynAck =>
        if recv.RemoteSessNonce != "" && recv.RemoteSessNonce != pack.fromNonce {
          panicked := true;
          return;
        }
        recv.RemoteSessNonce := pack.fromNonce;
        acks := Ack(EventSynAck);
      case SendEstabAck =>
        if recv.RemoteSessNonce != "" {
          panicked := true;
          return;
        }
        if !connReqPending {
          panicked := true;
          return;
        }
        recv.RemoteSessNonce := pack.fromNonce;
        connReqPending := false;
        acks := Ack(EventEstabAck);
      case SendFin =>
        acks := Ack(EventFin);
      case SendFinAck =>
        acks := Ack(EventFinAck);
      case DoAppClose =>
        CallBack();
        acks := Ack(EventFinAck);
        next := EventApplicationClosed;
    }

    /** The doNextEvent loop. */
    method HandleInfo(pack: Packet) returns (panicked: bool, acks: seq<Packet>)
      requires recv.Valid()
      modifies this, recv`RemoteSessNonce, recv`LastAvailReaderMsgCap, recv`LastAvailReaderBytesCap, recv.FlowCt
      ensures recv.Valid()
      ensures Conn.HandleEvent(old(recv.View()), old(View()), pack.event, pack) ==
              if panicked then Conn.Panics else Conn.Does(recv.View(), View(), acks)
    {
      var event, again := pack.event, true;
      panicked, acks := false, [];
      hide Ring, RingOk, Conn.Handled, Update, Rank;
      ghost var o := Conn.HandleEvent(recv.View(), View(), pack.event, pack);
      while again
        invariant recv.Valid()
        invariant again ==> o == Prepended(acks, Conn.HandleEvent(recv.View(), View(), event, pack))
        invariant !again ==> o == Conn.Does(recv.View(), View(), acks)
        decreases again, 6 - Rank(TcpState)
      {
        var more;
        ghost var c, e := TcpState, event;
        panicked, event, more := OneEvent(event, pack);
        if panicked {
          return;
        }
        CloseRank(c, e, pack.fromState);
        acks := acks + more;
        again := event != EventNil;
      }
    }

    /** The state update of one event, with its retry set-up. */
    method Transition(event: TcpEvent, pack: Packet) returns (act: TcpAction)
      modifies this
      ensures var (st, a) := Update(old(TcpState), event, pack.fromState);
              act == a && View() == Conn.SetUp(old(View()).(tcp := st), old(TcpState), pack, act)
    {
      var preUpdate := TcpState;
      act := UpdateTcp(event, pack.fromState);
      if preUpdate != TcpState {
        SetupRetry(preUpdate, TcpState, pack, act);
      }
    }

    /** One turn of that loop. */
    method OneEvent(event: TcpEvent, pack: Packet) returns (panicked: bool, next: TcpEvent, acks: seq<Packet>)
      requires recv.Valid()
      modifies this, recv`RemoteSessNonce, recv`LastAvailReaderMsgCap, recv`LastAvailReaderBytesCap, recv.FlowCt
      ensures recv.Valid()
      ensures next == if Update(old(TcpState), event, pack.fromState).1 == DoAppClose then EventApplicationClosed else EventNil
      ensures Conn.Handled(old(recv.View()), old(View()), event, pack) ==
              if panicked then Conn.Panics else Conn.Does(recv.View(), View(), acks)
    {
      hide Update, Conn.DoAction, Conn.SetUp, Ring, RingOk;
      var act := Transition(event, pack);
      panicked, next, acks := DoTcpAction(act, pack);
    }

    /** The ConnectCh arm. A session stays with its first remote; apart from that a
        request is one Dialling step, which sends a SYN or finds it too late for one. */
    method Connect(destInbox: string) returns (err: ConnectError, syn: seq<Packet>)
      requires recv.Valid()
      modifies this
      ensures err == LockedElsewhere <==> old(RemoteInbox) != "" && old(RemoteInbox) != destInbox
      ensures err == LockedElsewhere ==> View() == old(View()) && syn == []
      ensures err != LockedElsewhere ==>
                && RemoteInbox == destInbox
                && (View().(locked := true), syn) == Conn.Dialling(recv.View(), old(View()))
                && (err == WhenNotListen <==> old(TcpState) !in {Listen, SynSent, Established, SynReceived})
    {
      err, syn := NoError, [];
      if RemoteInbox == "" {
        RemoteInbox := destInbox;
      } else if RemoteInbox != destInbox {
        return LockedElsewhere, [];
      }
      if TcpState != Listen && TcpState != SynSent {
        if TcpState != Established && TcpState != SynReceived {
          err := WhenNotListen;
        }
        return;
      }
      connReqPending := true;
      syn := [Packet(recv.LocalSessNonce, "", EventSyn, Fresh, -98, 0, 0, 0, 0, [], 0)];
      TcpState := SynSent;
    }

    /** retryCheck: resend once more than a second has passed since the last attempt. */
    method RetryCheck(elapsed: int) returns (panicked: bool, acks: seq<Packet>)
      requires recv.Valid()
      modifies this, recv`RemoteSessNonce, recv`LastAvailReaderMsgCap, recv`LastAvailReaderBytesCap, recv.FlowCt
      ensures recv.Valid()
      ensures var waits := old(View()).retrying && old(View()).retryState == old(View()).tcp && elapsed <= SECOND;
              (if waits then Conn.Does(old(recv.View()), old(View()), []) else Conn.Retried(old(recv.View()), old(View()))) ==
              if panicked then Conn.Panics else Conn.Does(recv.View(), View(), acks)
    {
      hide Ring, RingOk;
      panicked, acks := false, [];
      if !retryInUse {
        return;
      }
      if retryCurState != TcpState {
        retryInUse := false;
        return;
      }
      if elapsed <= SECOND {
        return;
      }
      retryAttemptCount := retryAttemptCount + 1;
      if retryAttemptCount > Conn.MAX_ATTEMPTS {
        retryInUse := false;
        halted := true;
        return;
      }
      var next;
      panicked, next, acks := DoTcpAction(retryFirstStateAction, retryCausalPacket);
    }
  }

  ghost function Prepended(acks: seq<Packet>, o: Conn.Outcome): Conn.Outcome {
    if o.Panics? then o else o.(acks := acks + o.acks)
  }
}
