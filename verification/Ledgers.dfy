/** The steps of the data receiver: each keeps the invariant of the link. */
module Ledgers {
  import opened Integers
  import opened Tcp
  import opened Packets
  import opened Receiver
  import opened Links

  /** Everything but the capacities last computed. */
  ghost predicate CoreInv(r: Receiver, history: seq<Frame>, app: seq<byte>) {
    && WindowInv(r, history) && ReadyInv(r, history, app) && HeldInv(r) && LedgerInv(r, history)
    && 0 <= r.flow.msgCap <= r.window && 0 <= r.flow.bytesCap <= r.windowBytes + 1
  }

  lemma TakenBound(r: Receiver, history: seq<Frame>, app: seq<byte>)
    requires ReadyInv(r, history, app)
    ensures |app| <= |Stream(history[..r.nextExpected])|
  {
    var lo := r.lastMsg + 1;
    if r.ready == [] {
      assert app == Stream(history[..lo]);
    } else {
      assert Carries(r.ready[0], history[lo]);
      StreamStep(history, lo);
      StreamMonotone(history, lo + 1, r.nextExpected);
    }
  }

  /** The application never holds more bytes than the receiver's ledger knows of. */
  lemma AppWithinLedger(r: Receiver, history: seq<Frame>, app: seq<byte>)
    requires ReadyInv(r, history, app) && LedgerInv(r, history)
    ensures |app| <= r.maxCumul && r.lastByte <= r.maxCumul
  {
    TakenBound(r, history, app);
    StreamMonotone(history, r.nextExpected, r.largest + 1);
  }

  lemma ControlKeeps(r: Receiver, history: seq<Frame>, app: seq<byte>)
    requires CoreInv(r, history, app)
    ensures ReceiverInv(Control(r), history, app)
  {
    AppWithinLedger(r, history, app);
    hide Stream;
  }

  /** An acknowledgement is an honest packet of this end, in both roles. */
  lemma AckedKeeps(r: Receiver, history: seq<Frame>, app: seq<byte>, event: TcpEvent)
    requires CoreInv(r, history, app) && event != EventData
    ensures var (r', ack) := Acked(r, event);
            ReceiverInv(r', history, app) && AckOk(ack, r') && forall h :: DataOk(ack, h)
  {
    ControlKeeps(r, history, app);
    hide WindowInv, ReadyInv, HeldInv, LedgerInv;
    ConsumedNonNegative(r, history, app);
  }

  lemma ConsumedNonNegative(r: Receiver, history: seq<Frame>, app: seq<byte>)
    requires ReadyInv(r, history, app)
    ensures r.consumed >= 0
  {
  }

  /** The cumulative byte counts of a session never panic. */
  lemma NoCumulPanic(r: Receiver, history: seq<Frame>, p: Packet)
    requires LedgerInv(r, history) && WellNumbered(history) && DataOk(p, history)
    ensures !CumulPanics(r, p)
  {
    if p.event == EventData {
      assert CumulAt(history, p.seqNum);
      if p.seqNum > r.largest {
        StreamMonotone(history, r.largest + 1, p.seqNum + 1);
      } else {
        StreamMonotone(history, p.seqNum + 1, r.largest + 1);
      }
    }
  }

  lemma LargerKeeps(r: Receiver, r1: Receiver, history: seq<Frame>, app: seq<byte>)
    requires ReceiverInv(r, history, app)
    requires r1 == r.(largest := r1.largest, maxCumul := r1.maxCumul)
    requires r.largest <= r1.largest && LedgerInv(r1, history)
    ensures CoreInv(r1, history, app)
  {
    hide Stream, Carries, ReadyOk, TakenOf, LedgerInv;
    assert WindowInv(r1, history);
    assert HeldInv(r1);
    hide WindowInv, HeldInv;
    assert ReadyInv(r1, history, app);
  }

  lemma LargerLedger(r: Receiver, history: seq<Frame>, p: Packet)
    requires LedgerInv(r, history) && WellNumbered(history) && DataOk(p, history)
    ensures LedgerInv(if p.seqNum > r.largest then r.(largest := p.seqNum, maxCumul := p.cumul) else r, history)
  {
    if p.seqNum > r.largest {
      assert p.event == EventData;
      assert CumulAt(history, p.seqNum);
    }
  }

  lemma ArrivedKeeps(r: Receiver, history: seq<Frame>, app: seq<byte>, p: Packet)
    requires ReceiverInv(r, history, app) && WellNumbered(history) && DataOk(p, history)
    ensures ReceiverInv(Arrived(r, p), history, app) && p.seqNum <= Arrived(r, p).largest
  {
    hide Stream, WellNumbered, WindowInv, HeldInv, ReadyInv, CapsInv, DataOk, LedgerInv;
    var r1 := if p.seqNum > r.largest then r.(largest := p.seqNum, maxCumul := p.cumul) else r;
    LargerLedger(r, history, p);
    LargerKeeps(r, r1, history, app);
    ControlKeeps(r1, history, app);
  }

  lemma HoldKeeps(r: Receiver, history: seq<Frame>, app: seq<byte>, p: Packet)
    requires ReceiverInv(r, history, app) && p.seqNum <= r.largest
    ensures var r1 := Held(r, p);
            && ReceiverInv(r1, history, app)
            && r1 == r.(held := r1.held) && (p.seqNum >= r.nextExpected ==> p.seqNum in r1.held)
  {
    hide Stream, WellNumbered;
  }

  lemma StoreKeeps(r: Receiver, history: seq<Frame>, app: seq<byte>, p: Packet)
    requires ReceiverInv(r, history, app) && p.event == EventData && DataOk(p, history)
    requires r.nextExpected < p.seqNum < r.nextExpected + r.window && p.seqNum <= r.largest && p.seqNum in r.held
    ensures ReceiverInv(Stored(r, p), history, app)
  {
    hide Stream, WellNumbered;
  }

  /** The frames drained are the next ones of the sender's history. */
  lemma RunCarries(r: Receiver, history: seq<Frame>, p: Packet)
    requires WindowInv(r, history) && p.event == EventData && DataOk(p, history) && p.seqNum == r.nextExpected
    ensures var w := r.waiting[p.seqNum := p];
            var run, after := Run(w, r.nextExpected), AfterRun(w, r.nextExpected);
            && 1 <= |run| <= r.window && r.nextExpected + |run| <= |history|
            && (forall i :: 0 <= i < |run| ==> Carries(run[i], history[r.nextExpected + i]) && run[i].dataOffset == 0)
            && (forall k :: k in after ==> k in r.waiting && after[k] == r.waiting[k] && k > r.nextExpected + |run|)
  {
    var n, w := r.nextExpected, r.waiting[p.seqNum := p];
    var run := Run(w, n);
    RunIsMaximal(w, n);
    RunFitsWindow(w, n, r.window);
    assert run != [] by {
      assert n in w;
    }
    forall i | 0 <= i < |run|
      ensures n + i < |history| && Carries(run[i], history[n + i]) && run[i].dataOffset == 0
    {
      assert n + i in w && run[n + i - n] == w[n + i];
    }
    assert n + (|run| - 1) < |history| by {
      var last := |run| - 1;
      assert Carries(run[last], history[n + last]);
    }
  }

  /** What the drain leaves. */
  ghost predicate DrainedTo(r: Receiver, r': Receiver, run: seq<Packet>) {
    && r'.nextExpected == r.nextExpected + |run| && r'.ready == r.ready + run && r'.history == r.history + run
    && r'.published == r.consumed
    && r' == r.(waiting := r'.waiting, nextExpected := r'.nextExpected, ready := r'.ready,
                history := r'.history, published := r'.published)
    && (forall k :: k in r'.waiting ==>
          k in r.waiting && r'.waiting[k] == r.waiting[k] && k > r'.nextExpected)
  }

  lemma ReadyGrows(ready: seq<Packet>, run: seq<Packet>, lo: int, history: seq<Frame>)
    requires ReadyOk(ready, lo, history) && lo + |ready| + |run| <= |history|
    requires forall i :: 0 <= i < |run| ==> Carries(run[i], history[lo + |ready| + i]) && run[i].dataOffset == 0
    ensures ReadyOk(ready + run, lo, history) && TakenOf(ready + run) == TakenOf(ready)
  {
    var all := ready + run;
    forall i | 0 <= i < |all|
      ensures Carries(all[i], history[lo + i]) && (i > 0 ==> all[i].dataOffset == 0)
    {
      if i >= |ready| {
        assert all[i] == run[i - |ready|];
        assert lo + |ready| + (i - |ready|) == lo + i;
      }
    }
  }

  lemma DrainWindow(r: Receiver, history: seq<Frame>, r': Receiver, run: seq<Packet>)
    requires WindowInv(r, history) && DrainedTo(r, r', run) && r.nextExpected + |run| <= |history|
    requires forall i :: 0 <= i < |run| ==> Carries(run[i], history[r.nextExpected + i])
    ensures WindowInv(r', history)
  {
    forall i | 0 <= i < |r'.history|
      ensures Carries(r'.history[i], history[i])
    {
      if i >= r.nextExpected {
        assert r'.history[i] == run[i - r.nextExpected];
      }
    }
  }

  lemma DrainReady(r: Receiver, history: seq<Frame>, app: seq<byte>, r': Receiver, run: seq<Packet>)
    requires ReadyInv(r, history, app) && DrainedTo(r, r', run) && r.nextExpected + |run| <= |history|
    requires forall i :: 0 <= i < |run| ==> Carries(run[i], history[r.nextExpected + i]) && run[i].dataOffset == 0
    ensures ReadyInv(r', history, app)
  {
    ReadyGrows(r.ready, run, r.lastMsg + 1, history);
    hide Stream, ReadyOk, Carries, TakenOf;
  }

  lemma DrainHeld(r: Receiver, r': Receiver, run: seq<Packet>)
    requires HeldInv(r) && DrainedTo(r, r', run)
    requires forall k :: r.nextExpected <= k < r.nextExpected + |run| ==> k in r.held
    ensures HeldInv(r')
  {
  }

  lemma DrainKeeps(r: Receiver, history: seq<Frame>, app: seq<byte>, r': Receiver, run: seq<Packet>)
    requires ReceiverInv(r, history, app) && DrainedTo(r, r', run)
    requires r.nextExpected + |run| <= |history| && r.nextExpected + |run| - 1 <= r.largest
    requires forall i :: 0 <= i < |run| ==> Carries(run[i], history[r.nextExpected + i]) && run[i].dataOffset == 0
    requires forall k :: r.nextExpected <= k < r.nextExpected + |run| ==> k in r.held
    ensures ReceiverInv(r', history, app)
  {
    hide WindowInv, ReadyInv, HeldInv, Carries, Stream;
    DrainReady(r, history, app, r', run);
    DrainWindow(r, history, r', run);
    DrainHeld(r, r', run);
  }

  lemma ReceivedNextKeeps(r: Receiver, history: seq<Frame>, app: seq<byte>, p: Packet)
    requires ReceiverInv(r, history, app) && p.event == EventData && DataOk(p, history)
    requires p.seqNum == r.nextExpected <= r.largest && p.seqNum in r.held
    ensures ReceiverInv(Drained(Stored(r, p)), history, app)
  {
    var w := r.waiting[p.seqNum := p];
    var run := Run(w, r.nextExpected);
    RunCarries(r, history, p);
    RunIsMaximal(w, r.nextExpected);
    forall k | r.nextExpected <= k < r.nextExpected + |run|
      ensures k in r.held && k <= r.largest
    {
      assert k in w;
    }
    var r' := Drained(Stored(r, p));
    assert r.nextExpected + |run| - 1 <= r.largest by {
      var last := r.nextExpected + |run| - 1;
      assert last in r.held;
    }
    assert DrainedTo(r, r', run);
    hide Run, AfterRun, IsMaximalRun, IsWithout, ReceiverInv, DrainedTo;
    DrainKeeps(r, history, app, r', run);
  }

  /** A data packet that passed the ledgers keeps the invariant, and so does the
      ack of a discarded one. */
  lemma DataReceivedKeeps(r: Receiver, history: seq<Frame>, app: seq<byte>, p: Packet)
    requires ReceiverInv(r, history, app) && p.event == EventData && DataOk(p, history) && p.seqNum <= r.largest
    ensures var (r', acks) := DataReceived(r, p);
            && ReceiverInv(r', history, app)
            && (forall ack :: ack in acks ==> AckOk(ack, r') && forall h :: DataOk(ack, h))
  {
    hide ReceiverInv, Held, Discarded, Stored, Drained, DataOk, AckOk;
    var r1 := Held(r, p);
    HoldKeeps(r, history, app, p);
    if !InWindow(p.seqNum, r.nextExpected, r.nextExpected + r.window - 1) {
      DiscardKeeps(r1, history, app);
    } else if p.seqNum == r.nextExpected {
      ReceivedNextKeeps(r1, history, app, p);
    } else {
      StoreKeeps(r1, history, app, p);
    }
  }

  lemma DiscardKeeps(r: Receiver, history: seq<Frame>, app: seq<byte>)
    requires ReceiverInv(r, history, app)
    ensures var (r', ack) := Discarded(r);
            ReceiverInv(r', history, app) && AckOk(ack, r') && forall h :: DataOk(ack, h)
  {
    var d := r.(discards := r.discards + 1);
    hide Stream, Carries, ReadyOk, TakenOf;
    assert CoreInv(d, history, app);
    AckedKeeps(d, history, app, EventDataAck);
  }

  // ----- consumption -----

  /** What was taken and what is unread of the ready packets is what their frames carry. */
  lemma {:induction false} ReadyBytes(ready: seq<Packet>, lo: int, hi: int, history: seq<Frame>)
    requires ReadyOk(ready, lo, history) && hi == lo + |ready|
    ensures TakenOf(ready) + Unread(ready) == Stream(history[lo..hi])
    decreases |ready|
  {
    hide Stream, TakenOf, ReadyOk, Unread, Rest;
    ReadyBounds(ready, lo, history);
    if ready == [] {
      ReadyEmpty(history, lo);
    } else {
      var tail := ready[1..];
      ReadyTail(ready, lo, history);
      ReadyHead(ready, lo, history);
      ReadyBytes(tail, lo + 1, hi, history);
      StreamCons(history, lo, hi);
      TakenAndRest(ready, Unread(tail));
      NoPrefix(TakenOf(tail), Unread(tail));
    }
  }

  lemma ReadyBounds(ready: seq<Packet>, lo: int, history: seq<Frame>)
    requires ReadyOk(ready, lo, history)
    ensures 0 <= lo && lo + |ready| <= |history|
  {
  }

  lemma ReadyEmpty(history: seq<Frame>, lo: int)
    requires 0 <= lo <= |history|
    ensures TakenOf([]) + Unread([]) == Stream(history[lo..lo])
  {
    assert history[lo..lo] == [];
  }

  lemma ReadyHead(ready: seq<Packet>, lo: int, history: seq<Frame>)
    requires ReadyOk(ready, lo, history) && ready != []
    ensures lo + |ready| <= |history| && 0 <= lo && ready[0].data == history[lo].data
    ensures ready[0].dataOffset <= |ready[0].data|
    ensures Unread(ready) == Rest(ready[0]) + Unread(ready[1..])
  {
    assert Carries(ready[0], history[lo]);
  }

  lemma NoPrefix(a: seq<byte>, b: seq<byte>)
    requires a == []
    ensures a + b == b
  {
  }

  lemma ReadyTail(ready: seq<Packet>, lo: int, history: seq<Frame>)
    requires ReadyOk(ready, lo, history) && ready != []
    ensures ReadyOk(ready[1..], lo + 1, history) && TakenOf(ready[1..]) == []
  {
    var tail := ready[1..];
    forall i | 0 <= i < |tail|
      ensures Carries(tail[i], history[lo + 1 + i]) && tail[i].dataOffset == 0
    {
      assert Carries(ready[i + 1], history[lo + (i + 1)]);
    }
  }

  lemma TakenAndRest(ready: seq<Packet>, tail: seq<byte>)
    requires ready != [] && ready[0].dataOffset <= |ready[0].data|
    ensures TakenOf(ready) + (Rest(ready[0]) + tail) == ready[0].data + tail
  {
    assert TakenOf(ready) + Rest(ready[0]) == ready[0].data;
  }

  /** Everything handed over and everything unread make up the frames received in order. */
  lemma HandedAndUnread(r: Receiver, history: seq<Frame>, app: seq<byte>)
    requires ReadyInv(r, history, app)
    ensures app + Unread(r.ready) == Stream(history[..r.nextExpected])
  {
    hide Stream, Unread, TakenOf;
    var lo := r.lastMsg + 1;
    ReadyBytes(r.ready, lo, r.nextExpected, history);
    StreamCut(history, lo, r.nextExpected);
    Reassociate(Stream(history[..lo]), TakenOf(r.ready), Unread(r.ready));
  }

  lemma CancelSuffix(a: seq<byte>, b: seq<byte>, c: seq<byte>)
    requires a + c == b + c
    ensures a == b
  {
    assert |a| == |b|;
    assert a == (a + c)[..|a|];
    assert b == (b + c)[..|b|];
  }

  /** The first n ready packets have the numbers from lo on. */
  lemma NumbersOf(ready: seq<Packet>, lo: int, history: seq<Frame>, n: nat)
    requires ReadyOk(ready, lo, history) && WellNumbered(history) && n <= |ready|
    ensures forall k :: k in Numbers(ready[..n]) <==> lo <= k < lo + n
  {
    forall k
      ensures k in Numbers(ready[..n]) <==> lo <= k < lo + n
    {
      if lo <= k < lo + n {
        assert Carries(ready[k - lo], history[lo + (k - lo)]);
        assert ready[..n][k - lo].seqNum == k;
      }
      if k in Numbers(ready[..n]) {
        var i :| 0 <= i < n && ready[..n][i].seqNum == k;
        assert Carries(ready[i], history[lo + i]);
      }
    }
  }

  /** The receiver after n ready packets were completed and left remains. */
  ghost predicate ConsumedTo(r: Receiver, r': Receiver, n: nat) {
    && n <= |r.ready| && r'.lastMsg == r.lastMsg + n && r'.consumed == Max(r'.lastMsg, 0)
    && |r'.ready| == |r.ready| - n
    && r'.held == r.held - (if n == 0 then {} else Numbers(r.ready[..n]))
    && r' == r.(held := r'.held, lastMsg := r'.lastMsg, consumed := r'.consumed, lastByte := r'.lastByte, ready := r'.ready)
  }

  lemma ConsumedHeld(r: Receiver, r': Receiver, history: seq<Frame>, app: seq<byte>, n: nat)
    requires ReceiverInv(r, history, app) && WellNumbered(history) && ConsumedTo(r, r', n)
    ensures HeldInv(r') && WindowInv(r', history) && LedgerInv(r', history) && CapsInv(r')
  {
    hide Numbers, Stream, Carries, WellNumbered, TakenOf, ReadyOk, HeldInv;
    NumbersOf(r.ready, r.lastMsg + 1, history, n);
    HeldAfter(r, r', n);
  }

  lemma HeldAfter(r: Receiver, r': Receiver, n: nat)
    requires HeldInv(r) && ConsumedTo(r, r', n) && |r.ready| == r.nextExpected - 1 - r.lastMsg
    requires forall k :: k in r.waiting ==> r.nextExpected < k
    requires forall k :: k in Numbers(r.ready[..n]) <==> r.lastMsg + 1 <= k < r.lastMsg + 1 + n
    ensures HeldInv(r')
  {
    hide Numbers;
  }

  /** What the application has after a consumption that left the remainder ready'. */
  lemma ConsumedBytes(r: Receiver, history: seq<Frame>, app: seq<byte>, app': seq<byte>, ready': seq<Packet>, lo: nat)
    requires ReadyInv(r, history, app) && ReadyOk(ready', lo, history) && lo + |ready'| == r.nextExpected
    requires app' + Unread(ready') == app + Unread(r.ready)
    ensures app' == Stream(history[..lo]) + TakenOf(ready')
  {
    hide Stream, TakenOf, Unread, ReadyOk;
    var n := r.nextExpected;
    HandedAndUnread(r, history, app);
    ReadyBytes(ready', lo, r.nextExpected, history);
    assert 0 <= lo <= n <= |history|;
    hide ReadyInv;
    StreamCut(history, lo, n);
    assert history[lo..lo + |ready'|] == history[lo..n];
    SameHandedOver(app', Unread(ready'), Stream(history[..lo]), TakenOf(ready'), Stream(history[lo..n]), Stream(history[..n]));
  }

  /** Consumption keeps the invariant if the new remainder fits what was handed over. */
  lemma ConsumedKeeps(r: Receiver, r': Receiver, history: seq<Frame>, app: seq<byte>, app': seq<byte>, n: nat)
    requires ReceiverInv(r, history, app) && WellNumbered(history) && ConsumedTo(r, r', n)
    requires ReadyOk(r'.ready, r'.lastMsg + 1, history)
    requires app' + Unread(r'.ready) == app + Unread(r.ready)
    requires r'.lastByte == |Stream(history[..r'.lastMsg + 1])| + |TakenOf(r'.ready)|
    requires r'.lastMsg >= 0 || TakenOf(r'.ready) != []
    ensures CoreInv(r', history, app')
  {
    hide Stream, TakenOf, Unread, ReadyOk, WellNumbered, Numbers;
    ConsumedHeld(r, r', history, app, n);
    ConsumedBytes(r, history, app, app', r'.ready, r'.lastMsg + 1);
    hide WindowInv, HeldInv, LedgerInv;
    assert ReadyInv(r', history, app');
  }

  lemma StreamCut(history: seq<Frame>, i: nat, j: nat)
    requires i <= j <= |history|
    ensures Stream(history[..j]) == Stream(history[..i]) + Stream(history[i..j])
  {
    assert history[..j] == history[..i] + history[i..j];
    StreamConcat(history[..i], history[i..j]);
  }

  lemma SameHandedOver(app: seq<byte>, unread: seq<byte>, done: seq<byte>, taken: seq<byte>, rest: seq<byte>, all: seq<byte>)
    requires app + unread == all && all == done + rest && taken + unread == rest
    ensures app == done + taken
  {
    Reassociate(done, taken, unread);
    CancelSuffix(app, done + taken, unread);
  }

  lemma ReadyDrop(ready: seq<Packet>, lo: int, history: seq<Frame>, n: nat)
    requires ReadyOk(ready, lo, history) && n <= |ready|
    ensures ReadyOk(ready[n..], lo + n, history) && (n > 0 ==> TakenOf(ready[n..]) == [])
  {
    var tail := ready[n..];
    forall i | 0 <= i < |tail|
      ensures Carries(tail[i], history[lo + n + i]) && (n > 0 || i > 0 ==> tail[i].dataOffset == 0)
    {
      assert Carries(ready[n + i], history[lo + (n + i)]);
    }
  }

  /** Number and byte count of a ready packet. */
  lemma ReadyAt(ready: seq<Packet>, lo: int, history: seq<Frame>, i: nat)
    requires ReadyOk(ready, lo, history) && WellNumbered(history) && i < |ready|
    ensures ready[i].seqNum == lo + i && ready[i].cumul == |Stream(history[..lo + i + 1])|
    ensures |Stream(history[..lo + i + 1])| == |Stream(history[..lo + i])| + |ready[i].data|
  {
    assert Carries(ready[i], history[lo + i]) && CumulAt(history, lo + i);
    StreamStep(history, lo + i);
  }

  /** The receiver of Delivered before its ack is made. */
  function HandedAll(r: Receiver): Receiver
    requires r.ready != []
  {
    var last := r.ready[|r.ready| - 1];
    r.(held := r.held - Numbers(r.ready), lastMsg := last.seqNum, lastByte := last.cumul,
       ready := [], consumed := last.seqNum)
  }

  lemma HandedAllConsumes(r: Receiver, history: seq<Frame>, app: seq<byte>)
    requires ReceiverInv(r, history, app) && WellNumbered(history) && r.ready != []
    ensures ConsumedTo(r, HandedAll(r), |r.ready|)
  {
    hide WindowInv, HeldInv, LedgerInv, CapsInv, Stream, Unread, Numbers, ReadyOk, WellNumbered, TakenOf;
    ReadyAt(r.ready, r.lastMsg + 1, history, |r.ready| - 1);
    assert r.ready[..|r.ready|] == r.ready;
  }

  lemma HandedAllKeeps(r: Receiver, history: seq<Frame>, app: seq<byte>)
    requires ReceiverInv(r, history, app) && WellNumbered(history) && r.ready != []
    ensures CoreInv(HandedAll(r), history, app + Unread(r.ready)) && HandedAll(r).consumed >= r.consumed
  {
    hide WindowInv, HeldInv, LedgerInv, CapsInv, Stream, Unread, Numbers, ReadyOk, WellNumbered, TakenOf;
    var n := |r.ready|;
    var r' := HandedAll(r);
    ReadyAt(r.ready, r.lastMsg + 1, history, n - 1);
    ReadyNone(r.lastMsg + 1 + n, history);
    HandedAllConsumes(r, history, app);
    NothingUnread(app + Unread(r.ready));
    hide ConsumedTo, ReadyInv, ReceiverInv;
    ConsumedKeeps(r, r', history, app, app + Unread(r.ready), n);
  }

  lemma ReadyNone(lo: int, history: seq<Frame>)
    requires 0 <= lo <= |history|
    ensures ReadyOk([], lo, history) && TakenOf([]) == []
  {
  }

  lemma NothingUnread(app: seq<byte>)
    ensures app + Unread([]) == app
  {
  }

  /** Handing everything ready to the consumer keeps the invariant. */
  lemma DeliveredKeeps(r: Receiver, history: seq<Frame>, app: seq<byte>)
    requires ReceiverInv(r, history, app) && WellNumbered(history) && r.ready != []
    ensures var (r', ack) := Delivered(r);
            && ReceiverInv(r', history, app + Unread(r.ready)) && r'.consumed >= r.consumed
            && AckOk(ack, r') && forall h :: DataOk(ack, h)
  {
    HandedAllKeeps(r, history, app);
    hide CoreInv, ReceiverInv, AckOk, DataOk, Unread, Numbers;
    AckedKeeps(HandedAll(r), history, app + Unread(r.ready), EventDataAck);
  }

  /** A read that stops inside a packet leaves it advanced by what was taken. */
  lemma LeftoverOk(ready: seq<Packet>, lo: int, history: seq<Frame>, f: Fill)
    requires ReadyOk(ready, lo, history) && f.completed <= |ready|
    requires f.partial > 0 ==> f.completed < |ready| && f.partial < |Rest(ready[f.completed])|
    ensures ReadyOk(Leftover(ready, f), lo + f.completed, history)
    ensures |Leftover(ready, f)| == |ready| - f.completed
    ensures f.partial > 0 ==>
              |TakenOf(Leftover(ready, f))| == |ready[f.completed].data| - |Rest(ready[f.completed])| + f.partial > 0
    ensures f.partial == 0 ==> Leftover(ready, f) == ready[f.completed..]
  {
    ReadyDrop(ready, lo, history, f.completed);
    var tail := ready[f.completed..];
    var left := Leftover(ready, f);
    if tail != [] {
      assert Carries(tail[0], history[lo + f.completed]);
      assert tail[0] == ready[f.completed];
      assert left[0].dataOffset == tail[0].dataOffset + f.partial;
      forall i | 0 <= i < |left|
        ensures Carries(left[i], history[lo + f.completed + i]) && (i > 0 ==> left[i].dataOffset == 0)
      {
        assert Carries(tail[i], history[lo + f.completed + i]);
      }
    }
  }

  lemma NoProgressNoBytes(ready: seq<Packet>, room: nat)
    ensures var f := Filled(ready, room); f.completed == 0 && f.partial == 0 ==> f.bytes == []
  {
  }

  /** The byte ledger after a read. */
  lemma ProgressedLedger(r: Receiver, history: seq<Frame>, app: seq<byte>, f: Fill)
    requires ReceiverInv(r, history, app) && WellNumbered(history) && f.completed <= |r.ready|
    requires f.partial > 0 ==> f.completed < |r.ready| && f.partial < |Rest(r.ready[f.completed])|
    requires f.completed > 0 || f.partial > 0
    ensures var r' := Progressed(r, f);
            && r'.lastMsg == r.lastMsg + f.completed && (r'.lastMsg >= 0 || TakenOf(r'.ready) != [])
            && r'.lastByte == |Stream(history[..r'.lastMsg + 1])| + |TakenOf(r'.ready)|
  {
    hide WindowInv, HeldInv, LedgerInv, CapsInv, Stream, TakenOf, Leftover, Rest, ReadyOk, WellNumbered, Numbers;
    var lo, n := r.lastMsg + 1, f.completed;
    LeftoverOk(r.ready, lo, history, f);
    ReadyDrop(r.ready, lo, history, n);
    if n > 0 {
      ReadyAt(r.ready, lo, history, n - 1);
    }
    if f.partial > 0 {
      ReadyAt(r.ready, lo, history, n);
    }
  }

  lemma ProgressedTo(r: Receiver, history: seq<Frame>, app: seq<byte>, f: Fill)
    requires ReceiverInv(r, history, app) && WellNumbered(history) && f.completed <= |r.ready|
    requires f.partial > 0 ==> f.completed < |r.ready| && f.partial < |Rest(r.ready[f.completed])|
    ensures ConsumedTo(r, Progressed(r, f), f.completed)
    ensures ReadyOk(Progressed(r, f).ready, r.lastMsg + f.completed + 1, history)
  {
    hide WindowInv, HeldInv, LedgerInv, CapsInv, Stream, TakenOf, Leftover, Rest, ReadyOk, WellNumbered, Numbers;
    LeftoverOk(r.ready, r.lastMsg + 1, history, f);
    if f.completed > 0 {
      ReadyAt(r.ready, r.lastMsg + 1, history, f.completed - 1);
    }
  }

  lemma ProgressedKeeps(r: Receiver, history: seq<Frame>, app: seq<byte>, room: nat)
    requires ReceiverInv(r, history, app) && WellNumbered(history)
    ensures var f := Filled(r.ready, room);
            CoreInv(Progressed(r, f), history, app + f.bytes) && Progressed(r, f).consumed >= r.consumed
  {
    var f := Filled(r.ready, room);
    NoProgressNoBytes(r.ready, room);
    ReadBytes(r, app, f, room);
    hide ReceiverInv, CoreInv, Filled, Progressed, Rest;
    if f.completed > 0 || f.partial > 0 {
      SomeProgress(r, history, app, f);
    } else {
      NoProgress(r, history, app, f);
    }
  }

  lemma SomeProgress(r: Receiver, history: seq<Frame>, app: seq<byte>, f: Fill)
    requires ReceiverInv(r, history, app) && WellNumbered(history) && f.completed <= |r.ready|
    requires f.partial > 0 ==> f.completed < |r.ready| && f.partial < |Rest(r.ready[f.completed])|
    requires f.completed > 0 || f.partial > 0
    requires (app + f.bytes) + Unread(Progressed(r, f).ready) == app + Unread(r.ready)
    ensures CoreInv(Progressed(r, f), history, app + f.bytes) && Progressed(r, f).consumed >= r.consumed
  {
    hide WindowInv, HeldInv, LedgerInv, CapsInv, Stream, TakenOf, Unread, Rest, ReadyOk, WellNumbered, Numbers, Progressed;
    ProgressedTo(r, history, app, f);
    ProgressedLedger(r, history, app, f);
    assert Progressed(r, f).consumed >= r.consumed;
    hide ReadyInv, ReceiverInv, CoreInv, ConsumedTo;
    ConsumedKeeps(r, Progressed(r, f), history, app, app + f.bytes, f.completed);
  }

  lemma NoProgress(r: Receiver, history: seq<Frame>, app: seq<byte>, f: Fill)
    requires ReceiverInv(r, history, app) && f.completed == 0 && f.partial == 0 && f.bytes == []
    ensures CoreInv(Progressed(r, f), history, app + f.bytes) && Progressed(r, f).consumed >= r.consumed
  {
    CoreOf(r, history, app);
    hide ReceiverInv, CoreInv;
    assert app + f.bytes == app;
    assert r.ready[0..] == r.ready;
    assert Leftover(r.ready, f) == r.ready;
    assert Progressed(r, f) == r;
  }

  lemma ReadBytes(r: Receiver, app: seq<byte>, f: Fill, room: nat)
    requires f == Filled(r.ready, room)
    ensures (app + f.bytes) + Unread(Progressed(r, f).ready) == app + Unread(r.ready)
  {
    FillTakesNextBytes(r.ready, room);
    Reassociate(app, f.bytes, Unread(Leftover(r.ready, f)));
  }

  lemma CoreOf(r: Receiver, history: seq<Frame>, app: seq<byte>)
    requires ReceiverInv(r, history, app)
    ensures CoreInv(r, history, app) && CapsInv(r)
  {
  }

  lemma ProgressedCaps(r: Receiver, history: seq<Frame>, app: seq<byte>, f: Fill)
    requires ReceiverInv(r, history, app) && f.completed <= |r.ready|
    requires f.partial > 0 ==> f.completed < |r.ready|
    ensures CapsInv(Progressed(r, f))
  {
    hide WindowInv, ReadyInv, HeldInv, LedgerInv, Leftover, Numbers;
  }

  /** A read keeps the invariant: what the application has is still an exact account. */
  lemma ReadKeeps(r: Receiver, history: seq<Frame>, app: seq<byte>, room: nat)
    requires ReceiverInv(r, history, app) && WellNumbered(history)
    ensures var (r', bytes, acks) := ReadInto(r, room);
            && CoreInv(r', history, app + bytes) && CapsInv(r') && r'.consumed >= r.consumed
            && (forall ack :: ack in acks ==> AckOk(ack, r') && forall h :: DataOk(ack, h))
  {
    hide Filled, Progressed, CoreInv, AckOk, DataOk, CapsInv, ReceiverInv, WellNumbered, Unread;
    var f := Filled(r.ready, room);
    ProgressedKeeps(r, history, app, room);
    ProgressedCaps(r, history, app, f);
    if f.completed > 0 {
      AckedKeeps(Progressed(r, f), history, app + f.bytes, EventDataAck);
      CoreOf(Acked(Progressed(r, f), EventDataAck).0, history, app + f.bytes);
    }
  }
}
