/** The send loop of sender.go as it runs: a ring of TxqSlots and two retry
    indices over them, all updated in place. Every method refines the function
    of module Sender that its contract names. */
module SendLoop {
  import opened Packets
  import opened FlowControl
  import opened Slots
  import opened RetryTree
  import Sender

  /** The slots of frames lo, lo + 1, ..., lo + n - 1. */
  function Positions(lo: nat, n: nat, w: nat): (ps: seq<int>)
    requires w > 0
    ensures |ps| == n && forall i :: 0 <= i < n ==> ps[i] == Slot(lo + i, w)
  {
    if n == 0 then [] else Positions(lo, n - 1, w) + [Slot(lo + (n - 1), w)]
  }

  /** Frame n of the history, for lo <= n, sits in slot n modulo w. */
  ghost predicate Placed(slots: seq<TxqSlot>, history: seq<Frame>, lo: nat) {
    && slots != []
    && (forall n :: 0 <= n < |history| ==> history[n].seqNum == n)
    && (forall n :: lo <= n < |history| ==> slots[Slot(n, |slots|)].frame == history[n])
  }

  lemma PositionsSorted(slots: seq<TxqSlot>, history: seq<Frame>, lo: nat, n: nat)
    requires Placed(slots, history, lo) && lo + n <= |history| && n <= |slots|
    ensures Sorted(BySeqNum, slots, Positions(lo, n, |slots|))
  {
    var ps := Positions(lo, n, |slots|);
    forall i | 0 <= i < n
      ensures 0 <= ps[i] < |slots| && slots[ps[i]].frame.seqNum == lo + i
    {
      assert slots[Slot(lo + i, |slots|)].frame == history[lo + i];
    }
  }

  lemma PositionsSplit(lo: nat, n: nat, w: nat, k: nat)
    requires w > 0 && k <= n
    ensures Positions(lo, n, w) == Positions(lo, k, w) + Positions(lo + k, n - k, w)
  {
  }

  lemma PositionsLast(lo: nat, n: nat, w: nat)
    requires w > 0
    ensures Positions(lo, n + 1, w) == Positions(lo, n, w) + [Slot(lo + n, w)]
  {
  }

  /** The slot that the next frame will take is not indexed. */
  lemma NextSlotFree(lo: nat, n: nat, w: nat)
    requires n < w
    ensures Slot(lo + n, w) !in Positions(lo, n, w)
  {
    forall i | 0 <= i < n
      ensures Positions(lo, n, w)[i] != Slot(lo + n, w)
    {
      SlotDistinct(lo + i, lo + n, w);
    }
  }

  /** Appending the highest key at the end is what Insert does. */
  lemma {:induction false} InsertedLast(slots: seq<TxqSlot>, items: seq<int>, j: int)
    requires InRange(slots, items) && 0 <= j < |slots|
    requires forall i :: 0 <= i < |items| ==> slots[items[i]].frame.seqNum < slots[j].frame.seqNum
    ensures Inserted(BySeqNum, slots, items, j) == items + [j]
  {
    if items == [] {
    } else {
      InsertedLast(slots, items[1..], j);
      assert [items[0]] + (items[1..] + [j]) == items + [j];
    }
  }

  function SumBytes(slots: seq<TxqSlot>, items: seq<int>): nat
    requires forall i :: 0 <= i < |items| ==> 0 <= items[i] < |slots|
  {
    if items == [] then 0 else |slots[items[0]].frame.data| + SumBytes(slots, items[1..])
  }

  lemma SumStep(slots: seq<TxqSlot>, items: seq<int>, i: nat)
    requires InRange(slots, items) && i < |items|
    ensures SumBytes(slots, items[i..]) == |slots[items[i]].frame.data| + SumBytes(slots, items[i + 1..])
  {
    assert items[i..][1..] == items[i + 1..];
  }

  lemma SumEnds(slots: seq<TxqSlot>, items: seq<int>)
    requires InRange(slots, items)
    ensures SumBytes(slots, items[0..]) == SumBytes(slots, items) && SumBytes(slots, items[|items|..]) == 0
  {
    assert items[0..] == items;
  }

  lemma {:induction false} SumRemove(slots: seq<TxqSlot>, items: seq<int>, k: nat)
    requires InRange(slots, items) && k < |items|
    ensures InRange(slots, items[..k] + items[k + 1..])
    ensures SumBytes(slots, items) == |slots[items[k]].frame.data| + SumBytes(slots, items[..k] + items[k + 1..])
  {
    var rest := items[..k] + items[k + 1..];
    if k == 0 {
      assert rest == items[1..];
    } else {
      SumRemove(slots, items[1..], k - 1);
      assert rest[1..] == items[1..][..k - 1] + items[1..][k..];
    }
  }

  lemma RemoveMultiset(items: seq<int>, k: nat)
    requires k < |items|
    ensures multiset(items[..k] + items[k + 1..]) == multiset(items) - multiset{items[k]}
  {
    assert items == items[..k] + [items[k]] + items[k + 1..];
  }

  /** The bytes in flight do not depend on the order of iteration. */
  lemma {:induction false} SumPermutation(slots: seq<TxqSlot>, a: seq<int>, b: seq<int>)
    requires InRange(slots, a) && InRange(slots, b) && multiset(a) == multiset(b)
    ensures SumBytes(slots, a) == SumBytes(slots, b)
    decreases |a|
  {
    if a == [] {
      assert |multiset(b)| == 0;
    } else {
      assert a[0] in multiset(b);
      var k :| 0 <= k < |b| && b[k] == a[0];
      SumRemove(slots, b, k);
      RemoveMultiset(b, k);
      SplitHead(a);
      SumPermutation(slots, a[1..], b[..k] + b[k + 1..]);
    }
  }

  lemma SumPositionsStep(slots: seq<TxqSlot>, lo: nat, n: nat)
    requires slots != [] && n > 0
    ensures SumBytes(slots, Positions(lo, n, |slots|)) ==
            |slots[Slot(lo, |slots|)].frame.data| + SumBytes(slots, Positions(lo + 1, n - 1, |slots|))
  {
    PositionsSplit(lo, n, |slots|, 1);
    assert Positions(lo, n, |slots|)[1..] == Positions(lo + 1, n - 1, |slots|);
  }

  /** The frames in flight carry what the history says they carry. */
  lemma {:induction false} SumPositions(slots: seq<TxqSlot>, history: seq<Frame>, lo: nat, hi: nat, n: nat)
    requires Placed(slots, history, lo) && hi == lo + n <= |history|
    ensures SumBytes(slots, Positions(lo, n, |slots|)) == |Stream(history[lo..hi])|
    decreases n
  {
    if n == 0 {
      assert history[lo..hi] == [];
    } else {
      hide SumBytes, Stream, Positions, Placed;
      FirstPlaced(slots, history, lo);
      SumPositionsStep(slots, lo, n);
      PlacedLater(slots, history, lo, lo + 1);
      SumPositions(slots, history, lo + 1, hi, n - 1);
      StreamCons(history, lo, hi);
    }
  }

  lemma FirstPlaced(slots: seq<TxqSlot>, history: seq<Frame>, lo: nat)
    requires Placed(slots, history, lo) && lo < |history|
    ensures slots != [] && slots[Slot(lo, |slots|)].frame == history[lo]
  {
  }

  /** The two indices hold the same slots: in sequence order exactly those of the
      frames lo, lo + 1, ... up to the last one sent. */
  ghost predicate Indexed(slots: seq<TxqSlot>, history: seq<Frame>, bySeq: seq<int>, byDeadline: seq<int>) {
    && slots != [] && |bySeq| <= |slots| && |bySeq| <= |history|
    && var lo := |history| - |bySeq|;
       && Placed(slots, history, lo)
       && bySeq == Positions(lo, |bySeq|, |slots|)
       && SameItems(byDeadline, bySeq)
  }

  lemma IndexedInRange(slots: seq<TxqSlot>, history: seq<Frame>, bySeq: seq<int>, byDeadline: seq<int>)
    requires Indexed(slots, history, bySeq, byDeadline)
    ensures InRange(slots, bySeq) && InRange(slots, byDeadline) && |byDeadline| == |bySeq| <= |history|
    ensures Sorted(BySeqNum, slots, bySeq)
  {
    PositionsSorted(slots, history, |history| - |bySeq|, |bySeq|);
    forall i | 0 <= i < |byDeadline|
      ensures 0 <= byDeadline[i] < |slots|
    {
      assert byDeadline[i] in multiset(byDeadline);
      assert byDeadline[i] in multiset(bySeq);
    }
    assert |multiset(byDeadline)| == |multiset(bySeq)|;
  }

  /** The deadline index counts the frames in flight and their bytes. */
  lemma InflightFacts(slots: seq<TxqSlot>, history: seq<Frame>, bySeq: seq<int>, byDeadline: seq<int>)
    requires Indexed(slots, history, bySeq, byDeadline)
    ensures InRange(slots, byDeadline) && |byDeadline| == |bySeq| <= |history|
    ensures SumBytes(slots, byDeadline) == |Stream(history[|history| - |bySeq|..])|
  {
    hide Placed, Positions, Slot, Stream, SumBytes, Sorted;
    var lo := |history| - |bySeq|;
    IndexedInRange(slots, history, bySeq, byDeadline);
    SumPermutation(slots, byDeadline, bySeq);
    SumPositions(slots, history, lo, |history|, |bySeq|);
    assert history[lo..lo + |bySeq|] == history[lo..];
  }

  lemma MultisetIn(a: seq<int>, b: seq<int>, j: int)
    requires multiset(a) == multiset(b)
    ensures j in a <==> j in b
  {
    assert j in a <==> j in multiset(a);
    assert j in b <==> j in multiset(b);
  }

  /** A slot outside the index can be given to a new frame with a new number. */
  lemma FreshSlot(o: Order, slots: seq<TxqSlot>, items: seq<int>, j: int, f: Frame, deadline: int)
    requires Sorted(o, slots, items) && 0 <= j < |slots| && j !in items
    requires forall i :: 0 <= i < |items| ==> slots[items[i]].frame.seqNum != f.seqNum
    ensures var s := slots[j := TxqSlot(f, deadline)];
            Sorted(o, s, items) && FreshKey(o, s, items, j)
  {
    SortedFrame(o, slots, items, j, TxqSlot(f, deadline));
  }

  lemma IndexedBelow(slots: seq<TxqSlot>, history: seq<Frame>, bySeq: seq<int>, byDeadline: seq<int>)
    requires Indexed(slots, history, bySeq, byDeadline)
    ensures forall i :: 0 <= i < |bySeq| ==> 0 <= bySeq[i] < |slots| && slots[bySeq[i]].frame.seqNum < |history|
    ensures forall i :: 0 <= i < |byDeadline| ==>
              0 <= byDeadline[i] < |slots| && slots[byDeadline[i]].frame.seqNum < |history|
  {
    IndexedInRange(slots, history, bySeq, byDeadline);
    var lo := |history| - |bySeq|;
    forall i | 0 <= i < |bySeq|
      ensures slots[bySeq[i]].frame.seqNum < |history|
    {
      assert slots[Slot(lo + i, |slots|)].frame == history[lo + i];
    }
    forall i | 0 <= i < |byDeadline|
      ensures slots[byDeadline[i]].frame.seqNum < |history|
    {
      MultisetIn(byDeadline, bySeq, byDeadline[i]);
      assert byDeadline[i] in bySeq;
    }
  }

  lemma PlacedNext(slots: seq<TxqSlot>, history: seq<Frame>, lo: nat, f: Frame, deadline: int)
    requires Placed(slots, history, lo) && lo <= |history| < lo + |slots| && f.seqNum == |history|
    ensures Placed(slots[Slot(|history|, |slots|) := TxqSlot(f, deadline)], history + [f], lo)
  {
    var w, h := |slots|, history + [f];
    var s := slots[Slot(|history|, w) := TxqSlot(f, deadline)];
    forall n | lo <= n < |h|
      ensures s[Slot(n, w)].frame == h[n]
    {
      if n < |history| { SlotDistinct(n, |history|, w); }
    }
  }

  /** What doOrigDataSend needs of both indices, on values. */
  lemma SendKeeps(slots: seq<TxqSlot>, history: seq<Frame>, bySeq: seq<int>, byDl: seq<int>, f: Frame, deadline: int)
    requires Indexed(slots, history, bySeq, byDl) && Sorted(ByDeadline, slots, byDl)
    requires |bySeq| < |slots| && f.seqNum == |history|
    ensures var j := Slot(|history|, |slots|);
            var s := slots[j := TxqSlot(f, deadline)];
            && Sorted(ByDeadline, s, byDl) && FreshKey(ByDeadline, s, byDl, j)
            && Sorted(BySeqNum, s, bySeq) && FreshKey(BySeqNum, s, bySeq, j)
            && Inserted(BySeqNum, s, bySeq, j) == bySeq + [j]
  {
    var lo, n, w := |history| - |bySeq|, |bySeq|, |slots|;
    var j := Slot(|history|, w);
    var s := slots[j := TxqSlot(f, deadline)];
    IndexedInRange(slots, history, bySeq, byDl);
    IndexedBelow(slots, history, bySeq, byDl);
    NextSlotFree(lo, n, w);
    MultisetIn(byDl, bySeq, j);
    hide Indexed, Positions, Inserted, Sorted, FreshKey;
    FreshSlot(ByDeadline, slots, byDl, j, f, deadline);
    FreshSlot(BySeqNum, slots, bySeq, j, f, deadline);
    assert forall i :: 0 <= i < |bySeq| ==> s[bySeq[i]] == slots[bySeq[i]];
    InsertedLast(s, bySeq, j);
  }

  /** When the ring is full of indexed frames, a new frame overwrites the oldest of
      them: its number, lo, is in no slot any more. */
  lemma OldestOverwritten(slots: seq<TxqSlot>, history: seq<Frame>, bySeq: seq<int>, byDl: seq<int>, f: Frame, deadline: int)
    requires Indexed(slots, history, bySeq, byDl) && |bySeq| == |slots| && f.seqNum == |history|
    ensures var s := slots[Slot(|history|, |slots|) := TxqSlot(f, deadline)];
            forall i :: 0 <= i < |s| ==> s[i].frame.seqNum != |history| - |slots|
  {
    var w, lo := |slots|, |history| - |slots|;
    var j := Slot(|history|, w);
    var s := slots[j := TxqSlot(f, deadline)];
    SlotAgain(lo, w);
    forall i | 0 <= i < |s|
      ensures s[i].frame.seqNum != lo
    {
      if i != j {
        SlotReached(lo, i, w);
        var n: nat :| lo <= n < lo + w && Slot(n, w) == i;
        assert slots[Slot(n, w)].frame == history[n];
      }
    }
  }

  lemma SameItemsAdd(a: seq<int>, b: seq<int>, a': seq<int>, j: int)
    requires SameItems(a, b) && multiset(a') == multiset(a) + multiset{j}
    ensures SameItems(a', b + [j])
  {
  }

  /** What doOrigDataSend achieves, on values. */
  lemma SendIndexes(slots: seq<TxqSlot>, history: seq<Frame>, bySeq: seq<int>, byDl: seq<int>, byDl': seq<int>,
                    f: Frame, deadline: int)
    requires Indexed(slots, history, bySeq, byDl) && |bySeq| < |slots| && f.seqNum == |history|
    requires multiset(byDl') == multiset(byDl) + multiset{Slot(|history|, |slots|)}
    ensures var j := Slot(|history|, |slots|);
            Indexed(slots[j := TxqSlot(f, deadline)], history + [f], bySeq + [j], byDl')
  {
    hide Placed, Positions, SameItems, Slot;
    var lo, n, w := |history| - |bySeq|, |bySeq|, |slots|;
    var j := Slot(|history|, w);
    PlacedNext(slots, history, lo, f, deadline);
    PositionsLast(lo, n, w);
    SameItemsAdd(byDl, bySeq, byDl', j);
  }

  lemma PositionsCut(lo: nat, n: nat, w: nat, k: nat)
    requires w > 0 && k <= n
    ensures Positions(lo, n, w)[..k] == Positions(lo, k, w)
    ensures Positions(lo, n, w)[k..] == Positions(lo + k, n - k, w)
  {
  }

  /** The items are the slots of frames at, at + 1, ... */
  ghost predicate HoldFrames(slots: seq<TxqSlot>, history: seq<Frame>, items: seq<int>, at: int) {
    && InRange(slots, items) && 0 <= at && at + |items| <= |history|
    && forall i :: 0 <= i < |items| ==>
         slots[items[i]].frame == history[at + i] && slots[items[i]].frame.seqNum == at + i
  }

  lemma PositionsHold(slots: seq<TxqSlot>, history: seq<Frame>, lo: nat, at: nat, n: nat)
    requires Placed(slots, history, lo) && lo <= at && at + n <= |history|
    ensures HoldFrames(slots, history, Positions(at, n, |slots|), at)
  {
    var ps := Positions(at, n, |slots|);
    forall i | 0 <= i < n
      ensures slots[ps[i]].frame == history[at + i]
    {
      assert slots[Slot(at + i, |slots|)].frame == history[at + i];
    }
  }

  lemma PlacedLater(slots: seq<TxqSlot>, history: seq<Frame>, lo: nat, lo': nat)
    requires Placed(slots, history, lo) && lo <= lo'
    ensures Placed(slots, history, lo')
  {
  }

  /** Splitting the index in two keeps what both parts hold. */
  lemma AckParts(slots: seq<TxqSlot>, history: seq<Frame>, all: seq<int>, gone: seq<int>, left: seq<int>,
                 byDl: seq<int>, byDl': seq<int>)
    requires Indexed(slots, history, all, byDl) && CutOff(all, gone, left) && SameItems(byDl', left)
    ensures |all| == |gone| + |left| <= |history|
    ensures var lo := |history| - |all|;
            && Indexed(slots, history, left, byDl')
            && HoldFrames(slots, history, gone, lo) && HoldFrames(slots, history, left, lo + |gone|)
  {
    var lo := |history| - |all|;
    hide Positions, Slot, SameItems, Placed, HoldFrames;
    PositionsCut(lo, |all|, |slots|, |gone|);
    PlacedLater(slots, history, lo, lo + |gone|);
    PositionsHold(slots, history, lo, lo, |gone|);
    PositionsHold(slots, history, lo, lo + |gone|, |left|);
  }

  lemma IndexedSame(slots: seq<TxqSlot>, history: seq<Frame>, bySeq: seq<int>, byDl: seq<int>)
    requires Indexed(slots, history, bySeq, byDl)
    ensures SameItems(bySeq, byDl)
  {
  }

  /** What the removal of everything through ack removes. */
  lemma AckBound(slots: seq<TxqSlot>, history: seq<Frame>, gone: seq<int>, left: seq<int>, ack: int)
    requires |gone| + |left| <= |history|
    requires HoldFrames(slots, history, gone, |history| - |gone| - |left|)
    requires HoldFrames(slots, history, left, |history| - |left|)
    requires CutAt(slots, gone, left, ack)
    ensures var acked, lfs := |history| - |gone| - |left| - 1, |history| - 1;
            acked + |gone| == (if ack <= acked then acked else if ack <= lfs then ack else lfs)
  {
    var k := |gone| - 1;
    if gone != [] {
      assert slots[gone[k]].frame.seqNum == |history| - |left| - 1;
    }
    if left != [] {
      assert slots[left[0]].frame.seqNum == |history| - |left|;
    }
  }

  /** Back to the indices: slots0 and all are the slots and the sequence index
      before the sweep, todo the slots not yet inserted again. */
  ghost predicate Sweeping(slots0: seq<TxqSlot>, slots: seq<TxqSlot>, all: seq<int>, todo: seq<int>,
                           bySeq: seq<int>, byDl: seq<int>) {
    && Sorted(BySeqNum, slots0, all) && |slots| == |slots0|
    && (forall j :: 0 <= j < |slots| ==> slots[j].frame == slots0[j].frame)
    && Sorted(ByDeadline, slots, byDl) && Sorted(BySeqNum, slots, bySeq) && SameItems(byDl, bySeq)
    && multiset(bySeq) + multiset(todo) == multiset(all)
  }

  lemma {:induction false} AtMostOnce(all: seq<int>, j: int)
    requires forall i, k :: 0 <= i < k < |all| ==> all[i] != all[k]
    ensures multiset(all)[j] <= 1
    decreases |all|
  {
    if all != [] {
      AtMostOnce(all[1..], j);
      SplitHead(all);
      assert all[0] !in all[1..];
    }
  }

  lemma SeqNumsDiffer(slots: seq<TxqSlot>, all: seq<int>, a: int, b: int)
    requires Sorted(BySeqNum, slots, all) && a in all && b in all && a != b
    ensures 0 <= a < |slots| && 0 <= b < |slots| && slots[a].frame.seqNum != slots[b].frame.seqNum
  {
    var i :| 0 <= i < |all| && all[i] == a;
    var k :| 0 <= k < |all| && all[k] == b;
    assert i < k || k < i;
  }

  /** A slot still to be inserted is in neither index. */
  lemma TodoAbsent(all: seq<int>, todo: seq<int>, bySeq: seq<int>, byDl: seq<int>)
    requires forall i, k :: 0 <= i < k < |all| ==> all[i] != all[k]
    requires multiset(bySeq) + multiset(todo) == multiset(all) && SameItems(byDl, bySeq) && todo != []
    ensures todo[0] in all && todo[0] !in bySeq && todo[0] !in byDl
    ensures forall x :: x in bySeq || x in byDl ==> x in all
  {
    var cur := todo[0];
    AtMostOnce(all, cur);
    assert cur in multiset(todo);
    assert multiset(bySeq)[cur] + multiset(todo)[cur] == multiset(all)[cur];
    forall x
      ensures x in bySeq ==> x in all
    {
      assert multiset(bySeq)[x] <= multiset(all)[x];
    }
    forall x
      ensures x in byDl <==> x in bySeq
    {
      MultisetIn(byDl, bySeq, x);
    }
    assert cur in multiset(all);
  }

  lemma SweepKeeps(slots0: seq<TxqSlot>, slots: seq<TxqSlot>, all: seq<int>, todo: seq<int>,
                   bySeq: seq<int>, byDl: seq<int>, deadline: int)
    requires Sweeping(slots0, slots, all, todo, bySeq, byDl) && todo != []
    ensures 0 <= todo[0] < |slots|
    ensures var cur := todo[0];
            var s := slots[cur := slots[cur].(retryDeadline := deadline)];
            && Sorted(ByDeadline, s, byDl) && FreshKey(ByDeadline, s, byDl, cur)
            && Sorted(BySeqNum, s, bySeq) && FreshKey(BySeqNum, s, bySeq, cur)
  {
    var cur := todo[0];
    TodoAbsent(all, todo, bySeq, byDl);
    forall x | x in bySeq || x in byDl
      ensures 0 <= cur < |slots| && 0 <= x < |slots| && slots[x].frame.seqNum != slots[cur].frame.seqNum
    {
      SeqNumsDiffer(slots0, all, x, cur);
    }
    var k :| 0 <= k < |all| && all[k] == cur;
    FreshSlot(ByDeadline, slots, byDl, cur, slots[cur].frame, deadline);
    FreshSlot(BySeqNum, slots, bySeq, cur, slots[cur].frame, deadline);
  }

  lemma SweepStep(slots0: seq<TxqSlot>, slots: seq<TxqSlot>, all: seq<int>, todo: seq<int>,
                  bySeq: seq<int>, byDl: seq<int>, deadline: int, bySeq': seq<int>, byDl': seq<int>)
    requires Sweeping(slots0, slots, all, todo, bySeq, byDl) && todo != [] && 0 <= todo[0] < |slots|
    requires var cur := todo[0];
             var s := slots[cur := slots[cur].(retryDeadline := deadline)];
             && Sorted(ByDeadline, s, byDl') && Sorted(BySeqNum, s, bySeq')
             && multiset(bySeq') == multiset(bySeq) + multiset{cur}
             && multiset(byDl') == multiset(byDl) + multiset{cur}
    ensures Sweeping(slots0, slots[todo[0] := slots[todo[0]].(retryDeadline := deadline)], all, todo[1..], bySeq', byDl')
  {
    HeadGone(todo);
  }

  /** The slots after the sweep: only deadlines of due slots change. */
  function Rescheduled(slots: seq<TxqSlot>, due: seq<int>, newDeadline: int -> int): seq<TxqSlot> {
    seq(|slots|, i requires 0 <= i < |slots| =>
      if i in due then slots[i].(retryDeadline := newDeadline(slots[i].frame.seqNum)) else slots[i])
  }

  /** The packets of the due slots, in order. */
  function Resent(s: Sender.Sender, flow: Flow, slots: seq<TxqSlot>, due: seq<int>): seq<Packet>
    requires forall i :: 0 <= i < |due| ==> 0 <= due[i] < |slots|
  {
    seq(|due|, i requires 0 <= i < |due| => Sender.DataPacket(s, flow, slots[due[i]].frame))
  }

  lemma SweepSent(s: Sender.Sender, flow: Flow, slots: seq<TxqSlot>, due: seq<int>, newDeadline: int -> int)
    ensures Rescheduled(slots, due[..0], newDeadline) == slots && Resent(s, flow, slots, due[..0]) == []
  {
  }

  /** The next due slot still has its old contents. */
  lemma SweepTurn(s: Sender.Sender, flow: Flow, slots: seq<TxqSlot>, due: seq<int>, i: nat, newDeadline: int -> int)
    requires i < |due| && due[i] !in due[..i]
    requires forall k :: 0 <= k < |due| ==> 0 <= due[k] < |slots|
    ensures var cur := due[i];
            var now := Rescheduled(slots, due[..i], newDeadline);
            && now[cur] == slots[cur]
            && now[cur := slots[cur].(retryDeadline := newDeadline(slots[cur].frame.seqNum))]
               == Rescheduled(slots, due[..i + 1], newDeadline)
            && Resent(s, flow, slots, due[..i]) + [Sender.DataPacket(s, flow, slots[cur].frame)]
               == Resent(s, flow, slots, due[..i + 1])
  {
    assert due[..i + 1] == due[..i] + [due[i]];
  }

  lemma SortedDistinct(o: Order, slots: seq<TxqSlot>, items: seq<int>)
    requires Sorted(o, slots, items)
    ensures forall i, k :: 0 <= i < k < |items| ==> items[i] != items[k]
  {
  }

  /** The due slots are a front of the deadline index, so each is due once. */
  lemma DueOnce(slots: seq<TxqSlot>, all: seq<int>, byDl: seq<int>, due: seq<int>, now: int)
    requires Sorted(ByDeadline, slots, byDl) && due == DuePrefix(slots, byDl, now)
    ensures forall i :: 0 <= i < |due| ==> 0 <= due[i] < |slots|
    ensures forall i :: 0 <= i < |due| ==> due[i] !in due[..i]
  {
    DueFront(slots, byDl, now);
    SortedDistinct(ByDeadline, slots, byDl);
  }

  lemma {:induction false} DueFront(slots: seq<TxqSlot>, items: seq<int>, x: int)
    requires InRange(slots, items)
    ensures |DuePrefix(slots, items, x)| <= |items|
    ensures DuePrefix(slots, items, x) == items[..|DuePrefix(slots, items, x)|]
    decreases |items|
  {
    if items == [] || slots[items[0]].retryDeadline > x {
    } else {
      DueFront(slots, items[1..], x);
    }
  }

  /** A sweep at time now: exactly the indexed slots whose deadline has passed get a new
      one, their contents stay, and each is sent once, in order of deadline and number. */
  lemma SweepExactly(s: Sender.Sender, flow: Flow, slots: seq<TxqSlot>, byDl: seq<int>, now: int, newDeadline: int -> int)
    requires Sorted(ByDeadline, slots, byDl)
    ensures var due := DuePrefix(slots, byDl, now);
            var sent, after := Resent(s, flow, slots, due), Rescheduled(slots, due, newDeadline);
            && |sent| == |due| && |after| == |slots|
            && (forall i :: 0 <= i < |due| ==>
                  sent[i].seqNum == slots[due[i]].frame.seqNum && sent[i].data == slots[due[i]].frame.data)
            && (forall i, j :: 0 <= i < j < |due| ==>
                  var a, b := slots[due[i]], slots[due[j]];
                  a.retryDeadline < b.retryDeadline || (a.retryDeadline == b.retryDeadline && a.frame.seqNum < b.frame.seqNum))
            && (forall i :: 0 <= i < |slots| ==>
                  && after[i].frame == slots[i].frame
                  && after[i].retryDeadline == if i in byDl && slots[i].retryDeadline <= now
                                               then newDeadline(slots[i].frame.seqNum) else slots[i].retryDeadline)
  {
    DueIsAll(slots, byDl, now);
    DueFront(slots, byDl, now);
    hide DuePrefix;
  }

  /** When the sweep starts, the due slots are out of both indices. */
  lemma SweepStart(slots: seq<TxqSlot>, all: seq<int>, byDl: seq<int>, due: seq<int>, bySeq': seq<int>, byDl': seq<int>)
    requires Sorted(BySeqNum, slots, all) && SameItems(byDl, all) && CutOff(byDl, due, byDl')
    requires Sorted(ByDeadline, slots, byDl') && Sorted(BySeqNum, slots, bySeq') && SameItems(byDl', bySeq')
    ensures Sweeping(slots, slots, all, due, bySeq', byDl')
  {
    assert byDl == due + byDl';
  }

  /** When it ends, the sequence index is what it was. */
  lemma SweepEnd(slots0: seq<TxqSlot>, slots: seq<TxqSlot>, history: seq<Frame>, all: seq<int>, byDl: seq<int>,
                 bySeq': seq<int>, byDl': seq<int>)
    requires Indexed(slots0, history, all, byDl) && Sweeping(slots0, slots, all, [], bySeq', byDl')
    ensures bySeq' == all && Indexed(slots, history, bySeq', byDl') && Sorted(ByDeadline, slots, byDl')
  {
    assert Sorted(BySeqNum, slots, all);
    assert multiset(bySeq') == multiset(all);
    SortedUnique(BySeqNum, slots, bySeq', all);
  }

  predicate AtMost(items: seq<int>, pos: int) {
    items == [] || items == [pos]
  }

  class SenderState {
    const SenderWindowSize: int
    const LocalSessNonce: string
    const FlowCt: FlowCtrl
    const Txq: array<TxqSlot>
    const SentButNotAckedByDeadline: Retree
    const SentButNotAckedBySeqNum: Retree
    var RemoteSessNonce: string
    var LastFrameSent: int
    var SendHistory: seq<Frame>
    var LastSeenAvailReaderMsgCap: int
    var LastSeenAvailReaderBytesCap: int
    var TotalBytesSent: int
    var NumBytesAcked: map<nat, int>  // one ByteAccount per Write

    ghost predicate Valid()
      reads this, Txq, SentButNotAckedByDeadline, SentButNotAckedBySeqNum
    {
      LastFrameSent == |SendHistory| - 1 && IndicesOk(SendHistory)
    }

    /** Both retry indices are sorted and hold the unacknowledged tail of history. */
    ghost predicate IndicesOk(history: seq<Frame>)
      reads this, Txq, SentButNotAckedByDeadline, SentButNotAckedBySeqNum
    {
      && SenderWindowSize == Txq.Length && SenderWindowSize >= 1
      && SentButNotAckedByDeadline != SentButNotAckedBySeqNum
      && SentButNotAckedByDeadline.slots == Txq && SentButNotAckedByDeadline.order == ByDeadline
      && SentButNotAckedBySeqNum.slots == Txq && SentButNotAckedBySeqNum.order == BySeqNum
      && SentButNotAckedByDeadline.Valid()
      && Indexed(Txq[..], history, SentButNotAckedBySeqNum.items, SentButNotAckedByDeadline.items)
    }

    ghost function View(): Sender.Sender
      reads this, SentButNotAckedBySeqNum
    {
      Sender.Sender(LocalSessNonce, RemoteSessNonce, SenderWindowSize, SendHistory,
                    LastFrameSent - |SentButNotAckedBySeqNum.items|, LastSeenAvailReaderMsgCap,
                    LastSeenAvailReaderBytesCap, TotalBytesSent, NumBytesAcked)
    }

    constructor (sendSz: int, nonce: string, flowCt: FlowCtrl)
      requires sendSz >= 1
      ensures Valid() && View() == Sender.Init(nonce, sendSz)
      ensures fresh(Txq) && fresh(SentButNotAckedByDeadline) && fresh(SentButNotAckedBySeqNum) && FlowCt == flowCt
    {
      SenderWindowSize, LocalSessNonce, RemoteSessNonce, FlowCt := sendSz, nonce, "", flowCt;
      var txq := new TxqSlot[sendSz](_ => TxqSlot(Frame(-1, [], 0, None, false), 0));
      Txq := txq;
      SentButNotAckedByDeadline := new Retree(ByDeadline, txq);
      SentButNotAckedBySeqNum := new Retree(BySeqNum, txq);
      LastFrameSent, SendHistory, TotalBytesSent, NumBytesAcked := -1, [], 0, map[];
      LastSeenAvailReaderMsgCap, LastSeenAvailReaderBytesCap := sendSz, Sender.INITIAL_BYTES_CAP;
    }

    /** The two indices belong to the ring, whatever they hold. */
    ghost predicate Shaped()
      reads this, Txq, SentButNotAckedByDeadline, SentButNotAckedBySeqNum
    {
      && SenderWindowSize == Txq.Length && SenderWindowSize >= 1 && LastFrameSent == |SendHistory| - 1
      && SentButNotAckedByDeadline != SentButNotAckedBySeqNum
      && SentButNotAckedByDeadline.slots == Txq && SentButNotAckedBySeqNum.slots == Txq
      && InRange(Txq[..], SentButNotAckedByDeadline.items) && InRange(Txq[..], SentButNotAckedBySeqNum.items)
    }

    lemma ValidShaped()
      requires Valid()
      ensures Shaped()
    {
      IndexedInRange(Txq[..], SendHistory, SentButNotAckedBySeqNum.items, SentButNotAckedByDeadline.items);
    }

    /** Both capacities that the peer gave last exceed what the deadline index holds. */
    ghost predicate HasRoom()
      reads this, Txq, SentButNotAckedByDeadline
    {
      && InRange(Txq[..], SentButNotAckedByDeadline.items)
      && |SentButNotAckedByDeadline.items| < LastSeenAvailReaderMsgCap
      && SumBytes(Txq[..], SentButNotAckedByDeadline.items) < LastSeenAvailReaderBytesCap
    }

    /** ComputeInflight: iterate over the deadline index. */
    method ComputeInflight() returns (bytesInflight: int, msgInflight: int)
      requires Shaped()
      ensures InRange(Txq[..], SentButNotAckedByDeadline.items)
      ensures msgInflight == |SentButNotAckedByDeadline.items|
      ensures bytesInflight == SumBytes(Txq[..], SentButNotAckedByDeadline.items)
      ensures Valid() ==>
                && Sender.Ok(View()) && bytesInflight == Sender.InflightBytes(View())
                && msgInflight == Sender.InflightMsgs(View())
    {
      var items := SentButNotAckedByDeadline.items;
      if Valid() {
        InflightFacts(Txq[..], SendHistory, SentButNotAckedBySeqNum.items, items);
      }
      hide Sorted, Indexed, Stream, SumBytes;
      bytesInflight, msgInflight := 0, 0;
      var i := 0;
      SumEnds(Txq[..], items);
      while i < |items|
        invariant 0 <= i <= |items| && msgInflight == i
        invariant bytesInflight + SumBytes(Txq[..], items[i..]) == SumBytes(Txq[..], items)
      {
        SumStep(Txq[..], items, i);
        bytesInflight := bytesInflight + |Txq[items[i]].frame.data|;
        msgInflight := msgInflight + 1;
        i := i + 1;
      }
    }

    /** Write the frame into slot pos and insert the slot in both indices. */
    method IndexFrame(pos: int, frame: Frame, deadline: int, ghost history: seq<Frame>)
      requires SenderWindowSize == Txq.Length && SentButNotAckedByDeadline != SentButNotAckedBySeqNum
      requires SentButNotAckedByDeadline.slots == Txq && SentButNotAckedBySeqNum.slots == Txq
      requires InRange(Txq[..], SentButNotAckedByDeadline.items) && InRange(Txq[..], SentButNotAckedBySeqNum.items)
      requires SenderWindowSize >= 1 && frame.seqNum == |history| && pos == Slot(|history|, SenderWindowSize)
      modifies Txq, SentButNotAckedByDeadline, SentButNotAckedBySeqNum
      ensures Txq[..] == old(Txq[..])[pos := TxqSlot(frame, deadline)]
      ensures InRange(Txq[..], SentButNotAckedByDeadline.items) && InRange(Txq[..], SentButNotAckedBySeqNum.items)
      ensures old(IndicesOk(history) && |SentButNotAckedBySeqNum.items| < SenderWindowSize) ==>
                IndicesOk(history + [frame]) && |SentButNotAckedBySeqNum.items| == old(|SentButNotAckedBySeqNum.items|) + 1
      ensures old(AtMost(SentButNotAckedByDeadline.items, pos)) ==> SentButNotAckedByDeadline.items == [pos]
      ensures old(AtMost(SentButNotAckedBySeqNum.items, pos)) ==> SentButNotAckedBySeqNum.items == [pos]
    {
      ghost var slots := Txq[..];
      ghost var bySeq, byDl := SentButNotAckedBySeqNum.items, SentButNotAckedByDeadline.items;
      ghost var free := IndicesOk(history) && |bySeq| < SenderWindowSize;
      if free {
        SendKeeps(slots, history, bySeq, byDl, frame, deadline);
      }
      hide Sorted, FreshKey, Indexed, Inserted, Slot, SameItems;
      Txq[pos] := TxqSlot(frame, deadline);
      assert Txq[..] == slots[pos := TxqSlot(frame, deadline)];
      SentButNotAckedByDeadline.Insert(pos);
      SentButNotAckedBySeqNum.Insert(pos);
      if free {
        SendIndexes(slots, history, bySeq, byDl, SentButNotAckedByDeadline.items, frame, deadline);
      }
    }

    /** doOrigDataSend: number the frame, take its slot, index the slot twice. While the
        slot has left the indices this is exactly the step Sent. */
    method DoOrigDataSend(data: seq<byte>, account: Option<nat>, cliAcked: bool, deadline: int) returns (p: Packet)
      requires Shaped()
      modifies this`LastFrameSent, this`TotalBytesSent, this`SendHistory, Txq,
               SentButNotAckedByDeadline, SentButNotAckedBySeqNum
      ensures Shaped()
      ensures var frame := Frame(|old(SendHistory)|, data, TotalBytesSent, account, cliAcked);
              && SendHistory == old(SendHistory) + [frame] && TotalBytesSent == old(TotalBytesSent) + |data|
              && Txq[..] == old(Txq[..])[Slot(frame.seqNum, SenderWindowSize) := TxqSlot(frame, deadline)]
              && p == Sender.DataPacket(Stamps(), FlowCt.View(), frame)
      ensures old(Valid() && Sender.SlotFree(View())) ==>
                Valid() && View() == Sender.Sent(old(View()), data, account, cliAcked)
      ensures var pos := Slot(|old(SendHistory)|, SenderWindowSize);
              && (old(AtMost(SentButNotAckedByDeadline.items, pos)) ==> SentButNotAckedByDeadline.items == [pos])
              && (old(AtMost(SentButNotAckedBySeqNum.items, pos)) ==> SentButNotAckedBySeqNum.items == [pos])
    {
      hide Sorted, Indexed, Slot;
      LastFrameSent := LastFrameSent + 1;
      TotalBytesSent := TotalBytesSent + |data|;
      var lfs := LastFrameSent;
      var pos := lfs % SenderWindowSize;
      SlotIsMod(lfs, SenderWindowSize);
      var frame := Frame(lfs, data, TotalBytesSent, account, cliAcked);
      IndexFrame(pos, frame, deadline, SendHistory);
      SendHistory := SendHistory + [frame];
      p := Sender.DataPacket(Stamps(), FlowCt.View(), frame);
    }

    /** The stamps of an outgoing packet depend on the nonces only. */
    function Stamps(): Sender.Sender
      reads this
    {
      Sender.Sender(LocalSessNonce, RemoteSessNonce, SenderWindowSize, [], -1, 0, 0, 0, map[])
    }

    /** Remove everything through ackNum from both indices. */
    method RemoveThrough(ackNum: int) returns (gone: seq<int>)
      requires Valid()
      modifies SentButNotAckedByDeadline, SentButNotAckedBySeqNum
      ensures Valid() && |old(SentButNotAckedBySeqNum.items)| == |gone| + |SentButNotAckedBySeqNum.items|
      ensures HoldFrames(Txq[..], SendHistory, gone, old(View()).acked + 1)
      ensures Sender.Ok(old(View())) && Sender.Through(old(View()), ackNum) == View().acked
    {
      hide Sorted, HoldFrames, Indexed, CutOff, CutAt, Stream;
      ghost var all, byDl := SentButNotAckedBySeqNum.items, SentButNotAckedByDeadline.items;
      IndexedInRange(Txq[..], SendHistory, all, byDl);
      IndexedSame(Txq[..], SendHistory, all, byDl);
      gone := SentButNotAckedBySeqNum.DeleteThroughSeqNum(ackNum, SentButNotAckedByDeadline);
      AckParts(Txq[..], SendHistory, all, gone, SentButNotAckedBySeqNum.items, byDl, SentButNotAckedByDeadline.items);
      AckBound(Txq[..], SendHistory, gone, SentButNotAckedBySeqNum.items, ackNum);
    }

    /** The GotPack arm: capacities, then the indices and the byte accounts.
        panicked is the check that both indices have the same size. */
    method GotPack(a: Packet) returns (panicked: bool)
      requires Valid()
      modifies this`LastSeenAvailReaderMsgCap, this`LastSeenAvailReaderBytesCap, this`NumBytesAcked,
               SentButNotAckedByDeadline, SentButNotAckedBySeqNum
      ensures Sender.Ok(old(View()))
      ensures !panicked && Valid() && View() == Sender.GotPacket(old(View()), a)
    {
      hide Sorted, Indexed, Sender.CreditAll;
      LastSeenAvailReaderBytesCap := a.bytesCap;
      LastSeenAvailReaderMsgCap := a.msgCap;
      var gone := RemoveThrough(a.ackNum);
      Credit(gone, LastFrameSent - |gone| - |SentButNotAckedBySeqNum.items| + 1);
      IndexedInRange(Txq[..], SendHistory, SentButNotAckedBySeqNum.items, SentButNotAckedByDeadline.items);
      panicked := |SentButNotAckedBySeqNum.items| != |SentButNotAckedByDeadline.items|;
    }

    /** The accounting part of the callback, for the slots in removal order. */
    method Credit(gone: seq<int>, ghost lo: nat)
      requires HoldFrames(Txq[..], SendHistory, gone, lo)
      modifies this`NumBytesAcked
      ensures NumBytesAcked == Sender.CreditAll(old(NumBytesAcked), SendHistory[lo..lo + |gone|])
    {
      var i := 0;
      while i < |gone|
        invariant 0 <= i <= |gone|
        invariant NumBytesAcked == Sender.CreditAll(old(NumBytesAcked), SendHistory[lo..lo + i])
      {
        assert SendHistory[lo..lo + i + 1][..i] == SendHistory[lo..lo + i];
        NumBytesAcked := Sender.Credited(NumBytesAcked, Txq[gone[i]].frame);
        i := i + 1;
      }
    }

    /** One slot of the retry list: a new deadline, then back into both indices. */
    method Reinsert(cur: int, deadline: int, ghost slots0: seq<TxqSlot>, ghost all: seq<int>, ghost todo: seq<int>)
      requires TreesOk() && todo != [] && cur == todo[0]
      requires Sweeping(slots0, Txq[..], all, todo, SentButNotAckedBySeqNum.items, SentButNotAckedByDeadline.items)
      modifies Txq, SentButNotAckedByDeadline, SentButNotAckedBySeqNum
      ensures TreesOk() && 0 <= cur < Txq.Length
      ensures Txq[..] == old(Txq[..])[cur := old(Txq[cur]).(retryDeadline := deadline)]
      ensures Sweeping(slots0, Txq[..], all, todo[1..], SentButNotAckedBySeqNum.items, SentButNotAckedByDeadline.items)
    {
      ghost var slots := Txq[..];
      ghost var bySeq, byDl := SentButNotAckedBySeqNum.items, SentButNotAckedByDeadline.items;
      SweepKeeps(slots0, slots, all, todo, bySeq, byDl, deadline);
      hide Sorted, FreshKey, Inserted, Sweeping;
      Txq[cur] := Txq[cur].(retryDeadline := deadline);
      assert Txq[..] == slots[cur := slots[cur].(retryDeadline := deadline)];
      SentButNotAckedByDeadline.Insert(cur);
      SentButNotAckedBySeqNum.Insert(cur);
      SweepStep(slots0, slots, all, todo, bySeq, byDl, deadline,
                SentButNotAckedBySeqNum.items, SentButNotAckedByDeadline.items);
    }

    ghost predicate TreesOk()
      reads this
    {
      && SentButNotAckedByDeadline != SentButNotAckedBySeqNum
      && SentButNotAckedByDeadline.slots == Txq && SentButNotAckedByDeadline.order == ByDeadline
      && SentButNotAckedBySeqNum.slots == Txq && SentButNotAckedBySeqNum.order == BySeqNum
    }

    /** The loop over the retry list. */
    method ResendAll(retry: seq<int>, newDeadline: int -> int, ghost all: seq<int>) returns (sent: seq<Packet>)
      requires TreesOk() && forall i :: 0 <= i < |retry| ==> 0 <= retry[i] < Txq.Length && retry[i] !in retry[..i]
      requires Sweeping(Txq[..], Txq[..], all, retry, SentButNotAckedBySeqNum.items, SentButNotAckedByDeadline.items)
      modifies Txq, SentButNotAckedByDeadline, SentButNotAckedBySeqNum
      ensures TreesOk()
      ensures Sweeping(old(Txq[..]), Txq[..], all, [], SentButNotAckedBySeqNum.items, SentButNotAckedByDeadline.items)
      ensures Txq[..] == Rescheduled(old(Txq[..]), retry, newDeadline)
      ensures sent == Resent(Stamps(), FlowCt.View(), old(Txq[..]), retry)
    {
      ghost var slots0 := Txq[..];
      SweepSent(Stamps(), FlowCt.View(), slots0, retry, newDeadline);
      hide Sweeping, Rescheduled, Resent;
      sent := [];
      var i := 0;
      assert retry[0..] == retry;
      while i < |retry|
        invariant 0 <= i <= |retry| && TreesOk()
        invariant Sweeping(slots0, Txq[..], all, retry[i..], SentButNotAckedBySeqNum.items, SentButNotAckedByDeadline.items)
        invariant Txq[..] == Rescheduled(slots0, retry[..i], newDeadline)
        invariant sent == Resent(Stamps(), FlowCt.View(), slots0, retry[..i])
      {
        var slot := retry[i];
        SweepTurn(Stamps(), FlowCt.View(), slots0, retry, i, newDeadline);
        assert retry[i..][1..] == retry[i + 1..];
        Reinsert(slot, newDeadline(Txq[slot].frame.seqNum), slots0, all, retry[i..]);
        sent := sent + [Sender.DataPacket(Stamps(), FlowCt.View(), Txq[slot].frame)];
        i := i + 1;
      }
      assert retry[i..] == [] && retry[..i] == retry;
    }

    /** The retry arm: every slot whose deadline has passed gets a new deadline and
        is sent again; nothing else about the sender changes. */
    method RetrySweep(now: int, newDeadline: int -> int) returns (sent: seq<Packet>)
      requires Valid()
      modifies Txq, SentButNotAckedByDeadline, SentButNotAckedBySeqNum
      ensures Valid() && View() == old(View())
      ensures InRange(old(Txq[..]), old(SentButNotAckedByDeadline.items))
      ensures var due := DuePrefix(old(Txq[..]), old(SentButNotAckedByDeadline.items), now);
              && Txq[..] == Rescheduled(old(Txq[..]), due, newDeadline)
              && sent == Resent(Stamps(), FlowCt.View(), old(Txq[..]), due)
    {
      ghost var slots0, all, byDl := Txq[..], SentButNotAckedBySeqNum.items, SentButNotAckedByDeadline.items;
      IndexedInRange(slots0, SendHistory, all, byDl);
      DueOnce(slots0, all, byDl, DuePrefix(slots0, byDl, now), now);
      hide Sorted, SameItems, Placed, Positions, DuePrefix, Sweeping, Rescheduled, Resent;
      var retry := SentButNotAckedByDeadline.DeleteThroughDeadline(now, SentButNotAckedBySeqNum);
      SweepStart(slots0, all, byDl, retry, SentButNotAckedBySeqNum.items, SentButNotAckedByDeadline.items);
      sent := ResendAll(retry, newDeadline, all);
      SweepEnd(slots0, Txq[..], SendHistory, all, byDl, SentButNotAckedBySeqNum.items, SentButNotAckedByDeadline.items);
    }
  }
}
