/** From Write at one end to Read at the other, over whole runs. */
module EndToEnd {
  import opened Tcp
  import opened Packets
  import opened Receiver
  import opened Protocol
  import opened Safety
  import opened Theorems
  import opened Sessions
  import Sender
  import Conn

  // ----- what was pushed is the sender's history -----

  /** The pushes of one side in a run, in order. */
  function Pushes(ls: seq<Label>, side: Side): seq<Action> {
    if ls == [] then []
    else (if ls[0].Do? && ls[0].side == side && ls[0].action.Push? then [ls[0].action] else [])
         + Pushes(ls[1..], side)
  }

  function AsPush(f: Frame): Action {
    Push(f.data, f.account, f.cliAcked)
  }

  function AsPushes(frames: seq<Frame>): (as': seq<Action>)
    ensures |as'| == |frames| && forall i :: 0 <= i < |frames| ==> as'[i] == AsPush(frames[i])
  {
    seq(|frames|, i requires 0 <= i < |frames| => AsPush(frames[i]))
  }

  lemma AckingHistory(e: Endpoint, r: Receiver, c: Conn.Conn, acks: seq<Packet>)
    ensures var s := Acking(e, r, c, acks); s.Stepped? && s.e.snd.history == e.snd.history
  {
    LearnedOnlyRemote(e.snd, acks);
  }

  lemma ArriveHistory(x: Endpoint, p: Packet)
    requires Sender.Ok(x.snd) && Arrive(x, p).Stepped?
    ensures Arrive(x, p).e.snd.history == x.snd.history
  {
    hide Conn.HandleEvent, DataReceived, Arrived, Conn.Accepts, Conn.LockedOn, Sender.CreditAll, Acking, ArrivalPanics;
    var (r0, c0) := Conn.LockedOn(x.rcv, x.conn, p);
    var x1 := x.(snd := Sender.GotPacket(x.snd, p));
    if p.event == EventData {
      var (r2, acks) := DataReceived(Arrived(r0, p), p);
      AckingHistory(x1, r2, c0, acks);
    } else {
      var o := Conn.HandleEvent(Arrived(r0, p), c0, p.event, p);
      if o.Does? { AckingHistory(x1, o.r, o.c, o.acks); }
    }
  }

  /** Only a push adds to the history, and exactly its own frame. */
  lemma ActHistory(x: Endpoint, a: Action, inbox: set<Packet>)
    requires Sender.Ok(x.snd) && Allowed(x, a, inbox) && Act(x, a, inbox).Stepped?
    ensures AsPushes(Act(x, a, inbox).e.snd.history) == AsPushes(x.snd.history) + if a.Push? then [a] else []
  {
    hide Conn.Retried, Delivered, ReadInto, Arrive, Conn.Dialling, Acking, Unread;
    match a
    case Consume =>
      var (r, ack) := Delivered(x.rcv);
      AckingHistory(x.(app := x.app + Unread(x.rcv.ready)), r, x.conn, [ack]);
    case Read(room) =>
      var (r, bytes, acks) := ReadInto(x.rcv, room);
      AckingHistory(x.(app := x.app + bytes), r, x.conn, acks);
    case RetryTimer =>
      var o := Conn.Retried(x.rcv, x.conn);
      AckingHistory(x, o.r, o.c, o.acks);
    case Deliver(p) =>
      ArriveHistory(x, p);
    case _ =>
  }

  lemma StepHistory(w: World, l: Label)
    requires CanStep(w, l)
    ensures AsPushes(Next(w, l).a.snd.history) == AsPushes(w.a.snd.history) + Pushes([l], A)
  {
    hide Act, Allowed, AsPushes;
    assert Pushes([], A) == [];
    match l
    case Do(side, a) =>
      if side.A? { ActHistory(w.a, a, w.toA); }
    case Lose(_, _) =>
  }

  lemma {:induction false} HistoryIsPushes(w: World, ls: seq<Label>)
    requires Runs(w, ls)
    ensures AsPushes(After(w, ls).a.snd.history) == AsPushes(w.a.snd.history) + Pushes(ls, A)
    decreases |ls|
  {
    hide CanStep, Next, AsPushes;
    if ls == [] {
      assert AsPushes(w.a.snd.history) + [] == AsPushes(w.a.snd.history);
    } else {
      StepHistory(w, ls[0]);
      HistoryIsPushes(Next(w, ls[0]), ls[1..]);
      PushesCons(ls);
      assert AsPushes(w.a.snd.history) + (Pushes([ls[0]], A) + Pushes(ls[1..], A))
          == (AsPushes(w.a.snd.history) + Pushes([ls[0]], A)) + Pushes(ls[1..], A);
    }
  }

  lemma PushesCons(ls: seq<Label>)
    requires ls != []
    ensures Pushes(ls, A) == Pushes([ls[0]], A) + Pushes(ls[1..], A)
  {
    assert [ls[0]][1..] == [];
    assert Pushes([], A) == [];
  }

  // ----- bytes written and bytes read -----

  /** A piece that Write handed over, as the push of the send loop that took it. */
  function PieceActions(ps: seq<Piece>): (as': seq<Action>)
    ensures |as'| == |ps|
    ensures forall i :: 0 <= i < |ps| ==> as'[i] == Push(ps[i].data, Some(ps[i].account), ps[i].cliAcked)
  {
    seq(|ps|, i requires 0 <= i < |ps| => Push(ps[i].data, Some(ps[i].account), ps[i].cliAcked))
  }

  lemma {:induction false} StreamJoins(frames: seq<Frame>, ps: seq<Piece>)
    requires |frames| == |ps| && forall i :: 0 <= i < |ps| ==> frames[i].data == ps[i].data
    ensures Stream(frames) == Join(Datas(ps))
  {
    if frames != [] {
      var n := |frames| - 1;
      StreamJoins(frames[..n], ps[..n]);
      assert Datas(ps) == Datas(ps[..n]) + [ps[n].data];
      JoinConcat(Datas(ps[..n]), [ps[n].data]);
      JoinOne(ps[n].data);
    }
  }

  lemma JoinOne(d: seq<byte>)
    ensures Join([d]) == d
  {
    assert [d][1..] == [];
  }

  lemma JoinPrefix(a: seq<seq<byte>>, b: seq<seq<byte>>)
    requires a <= b
    ensures Join(a) <= Join(b)
  {
    assert b == a + b[|a|..];
    JoinConcat(a, b[|a|..]);
  }

  /** Whatever the network does and whatever the sizes of the read buffers, what the
      application at b has read is a prefix of what was written at a. */
  lemma ByteStream(ca: Config, cb: Config, ls: seq<Label>, handed: seq<Piece>, payloads: seq<seq<byte>>, sz: nat)
    requires GoodConfig(ca) && GoodConfig(cb) && Runs(Start(ca, cb), ls) && sz >= 1
    requires WroteAll(handed, payloads, sz) && Pushes(ls, A) <= PieceActions(handed)
    ensures After(Start(ca, cb), ls).b.app <= Join(payloads)
  {
    InOrderDelivery(ca, cb, ls);
    HistoryIsPushes(Start(ca, cb), ls);
    StartHistory(ca, cb);
    var w := After(Start(ca, cb), ls);
    TakenPieces(w.a.snd.history, Pushes(ls, A), handed);
    hide Runs, After, Start, Pushes, AllChunks, DeliveredInOrder, AsPushes;
    AllChunksJoin(payloads, sz);
    PrefixTrans(w.b.app, Stream(w.a.snd.history), Join(payloads));
  }

  lemma StartHistory(ca: Config, cb: Config)
    ensures AsPushes(Start(ca, cb).a.snd.history) == []
  {
  }

  lemma PrefixTrans(a: seq<byte>, b: seq<byte>, c: seq<byte>)
    requires a <= b <= c
    ensures a <= c
  {
  }

  lemma TakenPieces(frames: seq<Frame>, pushes: seq<Action>, handed: seq<Piece>)
    requires AsPushes(frames) == [] + pushes && pushes <= PieceActions(handed)
    ensures Stream(frames) <= Join(Datas(handed))
  {
    var n := |frames|;
    forall i | 0 <= i < n ensures frames[i].data == handed[..n][i].data {
      assert AsPushes(frames)[i] == PieceActions(handed)[i];
    }
    StreamJoins(frames, handed[..n]);
    assert Datas(handed[..n]) <= Datas(handed);
    JoinPrefix(Datas(handed[..n]), Datas(handed));
  }

  // ----- the acknowledged byte count of a Write -----

  /** The frames of account a, in order. */
  function Mine(a: nat, frames: seq<Frame>): seq<Frame> {
    if frames == [] then []
    else
      var f := frames[|frames| - 1];
      Mine(a, frames[..|frames| - 1]) + (if f.account == Some(a) then [f] else [])
  }

  lemma {:induction false} MineConcat(a: nat, xs: seq<Frame>, ys: seq<Frame>)
    ensures Mine(a, xs + ys) == Mine(a, xs) + Mine(a, ys)
  {
    if ys == [] {
      assert xs + ys == xs;
    } else {
      assert (xs + ys)[..|xs + ys| - 1] == xs + ys[..|ys| - 1];
      MineConcat(a, xs, ys[..|ys| - 1]);
    }
  }

  lemma {:induction false} MineBytes(a: nat, frames: seq<Frame>)
    ensures Sender.BytesFor(a, frames) == |Stream(Mine(a, frames))|
  {
    if frames != [] {
      var f, front := frames[|frames| - 1], frames[..|frames| - 1];
      MineBytes(a, front);
      if f.account == Some(a) {
        StreamConcat(Mine(a, front), [f]);
        StreamOne(f);
      } else {
        assert Mine(a, front) + [] == Mine(a, front);
      }
    }
  }

  lemma {:induction false} MineHas(a: nat, frames: seq<Frame>, j: nat)
    requires j < |frames| && frames[j].account == Some(a)
    ensures frames[j] in Mine(a, frames)
  {
    var front, f := frames[..|frames| - 1], frames[|frames| - 1];
    if j < |frames| - 1 {
      MineHas(a, front, j);
      assert Mine(a, frames) == Mine(a, front) + if f.account == Some(a) then [f] else [];
    } else {
      assert Mine(a, frames) == Mine(a, front) + [f];
    }
  }

  /** Every frame of account a is one of the frames. */
  lemma {:induction false} MineFrom(a: nat, frames: seq<Frame>, f: Frame)
    requires f in Mine(a, frames)
    ensures f.account == Some(a) && exists j :: 0 <= j < |frames| && frames[j] == f
  {
    if frames != [] {
      var front, last := frames[..|frames| - 1], frames[|frames| - 1];
      if f in Mine(a, front) {
        MineFrom(a, front, f);
        var j :| 0 <= j < |front| && front[j] == f;
        assert frames[j] == f;
      } else {
        assert f == last && frames[|frames| - 1] == f;
      }
    }
  }

  /** These frames carry the first pieces of one Write. */
  ghost predicate CarryPieces(frames: seq<Frame>, ps: seq<Piece>) {
    && |frames| <= |ps|
    && forall i :: 0 <= i < |frames| ==> frames[i].data == ps[i].data && frames[i].cliAcked == ps[i].cliAcked
  }

  /** Fewer pieces carry fewer bytes than the payload. */
  lemma FirstPieces(ps: seq<Piece>, i: nat, payload: seq<byte>, sz: nat, a: nat)
    requires sz >= 1 && PiecesOf(ps, payload, sz, a) && i <= |ps|
    ensures |Join(Datas(ps[..i]))| <= |payload|
    ensures |Join(Datas(ps[..i]))| == |payload| <==> i == |ps|
  {
    ChunksJoin(payload, sz);
    assert Datas(ps) == Datas(ps[..i]) + Datas(ps[i..]);
    JoinConcat(Datas(ps[..i]), Datas(ps[i..]));
    if i < |ps| {
      assert |Chunks(payload, sz)[i]| >= 1;
      assert Datas(ps[i..])[0] == Chunks(payload, sz)[i];
    } else {
      assert ps[i..] == [];
    }
  }

  lemma CarriedBytes(frames: seq<Frame>, ps: seq<Piece>)
    requires CarryPieces(frames, ps)
    ensures Stream(frames) == Join(Datas(ps[..|frames|]))
  {
    StreamJoins(frames, ps[..|frames|]);
  }

  /** The marked frame of account a is among the first k of the history. */
  ghost predicate MarkedBelow(a: nat, h: seq<Frame>, k: int) {
    exists j :: 0 <= j < k && j < |h| && h[j].account == Some(a) && h[j].cliAcked
  }

  lemma MarkedExactly(a: nat, h: seq<Frame>, k: nat, ps: seq<Piece>, payload: seq<byte>, sz: nat)
    requires sz >= 1 && PiecesOf(ps, payload, sz, a) && ps != [] && k <= |h| && CarryPieces(Mine(a, h[..k]), ps)
    ensures MarkedBelow(a, h, k) <==> |Mine(a, h[..k])| == |ps|
  {
    hide Mine, Datas, Chunks;
    var xs := Mine(a, h[..k]);
    if |xs| == |ps| {
      var f := xs[|ps| - 1];
      MineFrom(a, h[..k], f);
      var j :| 0 <= j < |h[..k]| && h[..k][j] == f;
      assert h[j] == f;
    }
    if j :| 0 <= j < k && j < |h| && h[j].account == Some(a) && h[j].cliAcked {
      assert h[..k][j] == h[j];
      MineHas(a, h[..k], j);
      var i :| 0 <= i < |xs| && xs[i] == h[j];
    }
  }

  /** The byte count of a Write of which some pieces are in the history, when the frames
      below k have been removed by acknowledgements: it never exceeds the payload, and
      is the whole payload exactly when the marked frame is among the removed ones. */
  lemma WriteBytes(h: seq<Frame>, k: nat, ps: seq<Piece>, payload: seq<byte>, sz: nat, a: nat)
    requires sz >= 1 && PiecesOf(ps, payload, sz, a) && ps != [] && CarryPieces(Mine(a, h), ps) && k <= |h|
    ensures Sender.BytesFor(a, h[..k]) <= |payload|
    ensures Sender.BytesFor(a, h[..k]) == |payload| <==> MarkedBelow(a, h, k)
  {
    hide PiecesOf, Mine, Stream, Sender.BytesFor, Join, Datas, MarkedBelow;
    MineSplit(a, h, k);
    MineBytes(a, h[..k]);
    CarriedBytes(Mine(a, h[..k]), ps);
    FirstPieces(ps, |Mine(a, h[..k])|, payload, sz, a);
    MarkedExactly(a, h, k, ps, payload, sz);
  }

  lemma MineSplit(a: nat, h: seq<Frame>, k: nat)
    requires k <= |h|
    ensures Mine(a, h) == Mine(a, h[..k]) + Mine(a, h[k..])
  {
    assert h == h[..k] + h[k..];
    MineConcat(a, h[..k], h[k..]);
  }

  lemma SomePieces(ps: seq<Piece>, payload: seq<byte>, sz: nat, a: nat)
    requires sz >= 1 && PiecesOf(ps, payload, sz, a) && payload != []
    ensures ps != []
  {
    ChunksJoin(payload, sz);
  }

  /** The frames of account a carry the first pieces of that account. */
  lemma {:induction false} MinePieces(a: nat, frames: seq<Frame>, ps: seq<Piece>)
    requires AsPushes(frames) == PieceActions(ps)
    ensures |Mine(a, frames)| == |Of(a, ps)| && CarryPieces(Mine(a, frames), Of(a, ps))
  {
    if frames != [] {
      var n := |frames| - 1;
      assert AsPushes(frames)[n] == PieceActions(ps)[n];
      assert AsPushes(frames[..n]) == AsPushes(frames)[..n] && PieceActions(ps[..n]) == PieceActions(ps)[..n];
      MinePieces(a, frames[..n], ps[..n]);
    }
  }

  lemma FirstOf(a: nat, handed: seq<Piece>, n: nat)
    requires n <= |handed|
    ensures Of(a, handed[..n]) <= Of(a, handed)
  {
    assert handed == handed[..n] + handed[n..];
    OfConcat(a, handed[..n], handed[n..]);
  }

  /** What the send loop took so far of a Write is in the history. */
  lemma TakenOfWrite(frames: seq<Frame>, pushes: seq<Action>, handed: seq<Piece>, a: nat)
    requires AsPushes(frames) == [] + pushes && pushes <= PieceActions(handed)
    ensures CarryPieces(Mine(a, frames), Of(a, handed))
  {
    var n := |frames|;
    assert PieceActions(handed[..n]) == PieceActions(handed)[..n];
    MinePieces(a, frames, handed[..n]);
    FirstOf(a, handed, n);
  }

  /** In every run, and however many pieces of a Write were sent by then: its
      NumBytesAcked is at most the payload, and is all of it exactly when its last chunk
      was sent and acknowledged, each chunk counted once despite retries. handed is
      what was handed to the send loop, by this Write and by others. */
  lemma WriteAcknowledged(ca: Config, cb: Config, ls: seq<Label>, handed: seq<Piece>, payload: seq<byte>, sz: nat, a: nat)
    requires GoodConfig(ca) && GoodConfig(cb) && Runs(Start(ca, cb), ls) && Pushes(ls, A) <= PieceActions(handed)
    requires sz >= 1 && payload != [] && PiecesOf(Of(a, handed), payload, sz, a)
    ensures var s := After(Start(ca, cb), ls).a.snd;
            && Sender.Balance(s.credited, a) <= |payload|
            && (Sender.Balance(s.credited, a) == |payload| <==> MarkedBelow(a, s.history, s.acked + 1))
  {
    AckAccounting(ca, cb, ls);
    HistoryIsPushes(Start(ca, cb), ls);
    StartHistory(ca, cb);
    var s := After(Start(ca, cb), ls).a.snd;
    TakenOfWrite(s.history, Pushes(ls, A), handed, a);
    hide Runs, After, Start, PiecesOf, CarryPieces, Mine, Sender.Balance, Sender.BytesFor, MarkedBelow, Of, Pushes, AsPushes;
    SomePieces(Of(a, handed), payload, sz, a);
    WriteBytes(s.history, s.acked + 1, Of(a, handed), payload, sz, a);
  }
}
