/** Connections of running endpoints only move forward. */
module Progress {
  import opened Tcp
  import opened Packets
  import opened Receiver
  import opened Protocol
  import Sender
  import Conn

  /** The state is the same, or of higher rank. */
  predicate Forward(s: TcpState, s': TcpState) {
    s' == s || Rank(s') > Rank(s)
  }

  lemma ArriveForward(x: Endpoint, p: Packet)
    requires Sender.Ok(x.snd) && Arrive(x, p).Stepped?
    ensures Forward(x.conn.tcp, Arrive(x, p).e.conn.tcp)
  {
    var (r0, c0) := Conn.LockedOn(x.rcv, x.conn, p);
    assert c0.tcp == x.conn.tcp;
    hide Conn.HandleEvent, DataReceived, Arrived, Conn.Accepts, Conn.LockedOn, Sender.GotPacket, ArrivalPanics, Rank, LearnedAll;
    var r1 := Arrived(r0, p);
    if p.event != EventData && Conn.HandleEvent(r1, c0, p.event, p).Does? {
      Conn.EventRaisesRank(r1, c0, p.event, p);
    }
  }

  lemma ActForward(x: Endpoint, a: Action, inbox: set<Packet>)
    requires Sender.Ok(x.snd) && Allowed(x, a, inbox) && Act(x, a, inbox).Stepped?
    ensures Forward(x.conn.tcp, Act(x, a, inbox).e.conn.tcp)
  {
    hide Arrive, Delivered, ReadInto, LearnedAll, Unread;
    match a
    case Deliver(p) => ArriveForward(x, p);
    case RetryTimer => hide Conn.DoAction;
    case _ =>
  }

  lemma StepForward(w: World, l: Label)
    requires CanStep(w, l)
    ensures Forward(w.a.conn.tcp, Next(w, l).a.conn.tcp)
  {
    hide Act, Allowed, Forward;
    Stays(w.a.conn.tcp);
    match l
    case Do(side, a) =>
      if side.A? { ActForward(w.a, a, w.toA); }
    case Lose(_, _) =>
  }

  lemma Stays(s: TcpState)
    ensures Forward(s, s)
  {
  }

  /** How many steps of a run change the state of endpoint a. */
  ghost function StateChanges(w: World, ls: seq<Label>): nat
    requires Runs(w, ls)
    decreases |ls|
  {
    if ls == [] then 0
    else
      var v := Next(w, ls[0]);
      (if v.a.conn.tcp != w.a.conn.tcp then 1 else 0) + StateChanges(v, ls[1..])
  }

  lemma {:induction false} ChangesBounded(w: World, ls: seq<Label>)
    requires Runs(w, ls)
    ensures StateChanges(w, ls) + Rank(w.a.conn.tcp) <= Rank(After(w, ls).a.conn.tcp)
    decreases |ls|
  {
    hide CanStep, Next, Rank;
    if ls != [] {
      StepForward(w, ls[0]);
      ChangesBounded(Next(w, ls[0]), ls[1..]);
    }
  }

  /** Whatever a session is sent, and whenever it is asked to connect, its connection
      changes state in at most five steps of any run. */
  lemma AtMostFiveSteps(ca: Config, cb: Config, ls: seq<Label>)
    requires Runs(Start(ca, cb), ls)
    ensures StateChanges(Start(ca, cb), ls) <= 5
  {
    ChangesBounded(Start(ca, cb), ls);
    RankBounds(After(Start(ca, cb), ls).a.conn.tcp);
    hide Runs, After, StateChanges;
  }

  lemma RankBounds(s: TcpState)
    ensures Rank(s) <= 6 && Rank(Listen) == 1
  {
  }
}
