/** retree.go: the two retry indices over the slots of the Txq. An index refers
    to slots by position, as the code refers to them by pointer, and compares
    the keys that the slots have at the time. */
module RetryTree {
  import opened Packets

  datatype TxqSlot = TxqSlot(frame: Frame, retryDeadline: int)

  datatype Order = ByDeadline | BySeqNum

  /** compareRetryDeadline and compareSeqNum; only the sign matters. */
  function Compare(o: Order, a: TxqSlot, b: TxqSlot): int {
    if o.ByDeadline? && a.retryDeadline != b.retryDeadline then a.retryDeadline - b.retryDeadline
    else a.frame.seqNum - b.frame.seqNum
  }

  /** The deadline index is ordered by deadline, and by number among equal deadlines. */
  lemma CompareIsLexicographic(a: TxqSlot, b: TxqSlot)
    ensures Compare(ByDeadline, a, b) < 0 <==>
            a.retryDeadline < b.retryDeadline || (a.retryDeadline == b.retryDeadline && a.frame.seqNum < b.frame.seqNum)
    ensures Compare(BySeqNum, a, b) < 0 <==> a.frame.seqNum < b.frame.seqNum
    ensures Compare(ByDeadline, a, b) == 0 <==> a.retryDeadline == b.retryDeadline && a.frame.seqNum == b.frame.seqNum
    ensures Compare(BySeqNum, a, b) == 0 <==> a.frame.seqNum == b.frame.seqNum
  {
  }

  ghost predicate InRange(slots: seq<TxqSlot>, items: seq<int>) {
    forall i :: 0 <= i < |items| ==> 0 <= items[i] < |slots|
  }

  /** In-order iteration yields strictly increasing keys. */
  ghost predicate Sorted(o: Order, slots: seq<TxqSlot>, items: seq<int>) {
    && InRange(slots, items)
    && forall i, j :: 0 <= i < j < |items| ==> Compare(o, slots[items[i]], slots[items[j]]) < 0
  }

  /** The ordered container's Insert: an item with an equal key is left alone. */
  function Inserted(o: Order, slots: seq<TxqSlot>, items: seq<int>, j: int): seq<int>
    requires 0 <= j < |slots| && forall i :: 0 <= i < |items| ==> 0 <= items[i] < |slots|
  {
    if items == [] then [j]
    else
      var c := Compare(o, slots[items[0]], slots[j]);
      if c < 0 then [items[0]] + Inserted(o, slots, items[1..], j)
      else if c == 0 then items
      else [j] + items
  }

  /** DeleteWithKey: remove the item whose key equals that of j. */
  function Removed(o: Order, slots: seq<TxqSlot>, items: seq<int>, j: int): seq<int>
    requires 0 <= j < |slots| && forall i :: 0 <= i < |items| ==> 0 <= items[i] < |slots|
  {
    if items == [] then []
    else if Compare(o, slots[items[0]], slots[j]) == 0 then items[1..]
    else [items[0]] + Removed(o, slots, items[1..], j)
  }

  /** The two sequences hold the same items. */
  ghost predicate SameItems(a: seq<int>, b: seq<int>) {
    multiset(a) == multiset(b)
  }

  lemma SplitHead(items: seq<int>)
    requires items != []
    ensures multiset(items) == multiset{items[0]} + multiset(items[1..])
  {
    assert items == [items[0]] + items[1..];
  }

  lemma SortedTail(o: Order, slots: seq<TxqSlot>, items: seq<int>)
    requires Sorted(o, slots, items) && items != []
    ensures Sorted(o, slots, items[1..])
    ensures items[0] !in items[1..]
  {
  }

  /** k is below every item. */
  ghost predicate Below(o: Order, slots: seq<TxqSlot>, k: int, items: seq<int>) {
    && 0 <= k < |slots| && InRange(slots, items)
    && forall i :: 0 <= i < |items| ==> Compare(o, slots[k], slots[items[i]]) < 0
  }

  lemma SortedCons(o: Order, slots: seq<TxqSlot>, k: int, items: seq<int>)
    requires Sorted(o, slots, items) && Below(o, slots, k, items)
    ensures Sorted(o, slots, [k] + items)
  {
  }

  lemma BelowHead(o: Order, slots: seq<TxqSlot>, items: seq<int>)
    requires Sorted(o, slots, items) && items != []
    ensures Below(o, slots, items[0], items[1..])
  {
  }

  lemma BelowAll(o: Order, slots: seq<TxqSlot>, k: int, items: seq<int>)
    requires Sorted(o, slots, items) && items != [] && 0 <= k < |slots|
    requires Compare(o, slots[k], slots[items[0]]) < 0
    ensures Below(o, slots, k, items)
  {
  }

  /** No indexed slot has the key of slot j. */
  ghost predicate FreshKey(o: Order, slots: seq<TxqSlot>, items: seq<int>, j: int) {
    && 0 <= j < |slots| && InRange(slots, items)
    && forall i :: 0 <= i < |items| ==> Compare(o, slots[items[i]], slots[j]) != 0
  }

  lemma {:induction false} BelowInserted(o: Order, slots: seq<TxqSlot>, k: int, items: seq<int>, j: int)
    requires Below(o, slots, k, items) && 0 <= j < |slots| && Compare(o, slots[k], slots[j]) < 0
    ensures Below(o, slots, k, Inserted(o, slots, items, j))
  {
    if items != [] && Compare(o, slots[items[0]], slots[j]) < 0 {
      assert Below(o, slots, k, items[1..]);
      BelowInserted(o, slots, k, items[1..], j);
    }
  }

  lemma {:induction false} InsertSorts(o: Order, slots: seq<TxqSlot>, items: seq<int>, j: int)
    requires Sorted(o, slots, items) && FreshKey(o, slots, items, j)
    ensures Sorted(o, slots, Inserted(o, slots, items, j))
    ensures multiset(Inserted(o, slots, items, j)) == multiset(items) + multiset{j}
  {
    if items == [] {
    } else if Compare(o, slots[items[0]], slots[j]) < 0 {
      SortedTail(o, slots, items);
      BelowHead(o, slots, items);
      InsertSorts(o, slots, items[1..], j);
      BelowInserted(o, slots, items[0], items[1..], j);
      SortedCons(o, slots, items[0], Inserted(o, slots, items[1..], j));
      SplitHead(items);
    } else {
      assert Compare(o, slots[items[0]], slots[j]) != 0;
      BelowAll(o, slots, j, items);
      SortedCons(o, slots, j, items);
    }
  }

  lemma {:induction false} BelowRemoved(o: Order, slots: seq<TxqSlot>, k: int, items: seq<int>, j: int)
    requires Below(o, slots, k, items) && 0 <= j < |slots|
    ensures Below(o, slots, k, Removed(o, slots, items, j))
  {
    if items != [] {
      assert Below(o, slots, k, items[1..]);
      BelowRemoved(o, slots, k, items[1..], j);
    }
  }

  lemma HeadLeast(o: Order, slots: seq<TxqSlot>, items: seq<int>, x: int)
    requires Sorted(o, slots, items) && x in items
    ensures 0 <= x < |slots| && (x == items[0] || Compare(o, slots[items[0]], slots[x]) < 0)
  {
    var k :| 0 <= k < |items| && items[k] == x;
  }

  lemma TailMultiset(items: seq<int>, rest: seq<int>, j: int)
    requires items != [] && items[0] != j && j in items[1..]
    requires multiset(rest) == multiset(items[1..]) - multiset{j}
    ensures multiset([items[0]] + rest) == multiset(items) - multiset{j}
  {
    SplitHead(items);
    SplitHead([items[0]] + rest);
  }

  lemma {:induction false} RemoveSorts(o: Order, slots: seq<TxqSlot>, items: seq<int>, j: int)
    requires Sorted(o, slots, items) && j in items
    ensures 0 <= j < |slots|
    ensures Sorted(o, slots, Removed(o, slots, items, j))
    ensures multiset(Removed(o, slots, items, j)) == multiset(items) - multiset{j}
  {
    SortedTail(o, slots, items);
    HeadLeast(o, slots, items, j);
    BelowHead(o, slots, items);
    hide Sorted, Below;
    if items[0] == j {
      SplitHead(items);
    } else {
      assert j in items[1..];
      RemoveSorts(o, slots, items[1..], j);
      BelowRemoved(o, slots, items[0], items[1..], j);
      SortedCons(o, slots, items[0], Removed(o, slots, items[1..], j));
      TailMultiset(items, Removed(o, slots, items[1..], j), j);
    }
  }

  lemma HeadGone(items: seq<int>)
    requires items != []
    ensures items[0] in multiset(items)
    ensures multiset(items[1..]) == multiset(items) - multiset{items[0]}
  {
    SplitHead(items);
  }

  lemma SameTail(a: seq<int>, b: seq<int>)
    requires a != [] && b != [] && a[0] == b[0] && multiset(a) == multiset(b)
    ensures multiset(a[1..]) == multiset(b[1..])
  {
    HeadGone(a);
    HeadGone(b);
  }

  /** There is only one sorted order of a set of slots. */
  lemma {:induction false} SortedUnique(o: Order, slots: seq<TxqSlot>, a: seq<int>, b: seq<int>)
    requires Sorted(o, slots, a) && Sorted(o, slots, b) && multiset(a) == multiset(b)
    ensures a == b
  {
    if a == [] {
      assert |multiset(b)| == 0;
    } else {
      assert a[0] in multiset(b) && |multiset(b)| > 0;
      assert b[0] in multiset(a);
      HeadLeast(o, slots, a, b[0]);
      HeadLeast(o, slots, b, a[0]);
      assert a[0] == b[0];
      SameTail(a, b);
      SortedTail(o, slots, a);
      SortedTail(o, slots, b);
      hide Sorted;
      SortedUnique(o, slots, a[1..], b[1..]);
    }
  }

  /** Changing a slot that is not indexed changes no key of the index. */
  lemma SortedFrame(o: Order, slots: seq<TxqSlot>, items: seq<int>, j: int, s: TxqSlot)
    requires Sorted(o, slots, items) && 0 <= j < |slots| && j !in items
    ensures Sorted(o, slots[j := s], items)
  {
  }

  /** The slots at the front whose deadline is not after x. */
  function DuePrefix(slots: seq<TxqSlot>, items: seq<int>, x: int): (due: seq<int>)
    requires forall i :: 0 <= i < |items| ==> 0 <= items[i] < |slots|
    ensures forall i :: 0 <= i < |due| ==> 0 <= due[i] < |slots|
  {
    if items == [] || slots[items[0]].retryDeadline > x then []
    else [items[0]] + DuePrefix(slots, items[1..], x)
  }

  lemma DueStep(slots: seq<TxqSlot>, items: seq<int>, gone: seq<int>, x: int)
    requires InRange(slots, items) && items != [] && slots[items[0]].retryDeadline <= x
    ensures gone + DuePrefix(slots, items, x) == (gone + [items[0]]) + DuePrefix(slots, items[1..], x)
  {
  }

  lemma DueNone(slots: seq<TxqSlot>, items: seq<int>, x: int)
    requires InRange(slots, items) && (items == [] || slots[items[0]].retryDeadline > x)
    ensures DuePrefix(slots, items, x) == []
  {
  }

  /** In deadline order, the due slots are exactly those of that prefix. */
  lemma {:induction false} DueIsAll(slots: seq<TxqSlot>, items: seq<int>, x: int)
    requires Sorted(ByDeadline, slots, items)
    ensures forall j :: j in DuePrefix(slots, items, x) <==> j in items && slots[j].retryDeadline <= x
  {
    if items == [] {
    } else if slots[items[0]].retryDeadline > x {
      BelowHead(ByDeadline, slots, items);
    } else {
      SortedTail(ByDeadline, slots, items);
      DueIsAll(slots, items[1..], x);
    }
  }

  /** gone is the front of all, left the rest. */
  predicate CutOff(all: seq<int>, gone: seq<int>, left: seq<int>) {
    |gone| <= |all| && gone == all[..|gone|] && left == all[|gone|..]
  }

  lemma CutOffStep(all: seq<int>, gone: seq<int>, left: seq<int>)
    requires CutOff(all, gone, left) && left != []
    ensures CutOff(all, gone + [left[0]], left[1..])
  {
  }

  lemma {:induction false} InsertInRange(o: Order, slots: seq<TxqSlot>, items: seq<int>, j: int)
    requires InRange(slots, items) && 0 <= j < |slots|
    ensures InRange(slots, Inserted(o, slots, items, j))
  {
    if items != [] && Compare(o, slots[items[0]], slots[j]) < 0 {
      InsertInRange(o, slots, items[1..], j);
    }
  }

  /** The slots gone hold the numbers up to seqnum, those left the ones above. */
  ghost predicate CutAt(slots: seq<TxqSlot>, gone: seq<int>, left: seq<int>, seqnum: int) {
    && InRange(slots, gone) && InRange(slots, left)
    && (forall i :: 0 <= i < |gone| ==> slots[gone[i]].frame.seqNum <= seqnum)
    && (forall i :: 0 <= i < |left| ==> slots[left[i]].frame.seqNum > seqnum)
  }

  class Retree {
    const order: Order
    const slots: array<TxqSlot>
    var items: seq<int>

    constructor (order: Order, slots: array<TxqSlot>)
      ensures this.order == order && this.slots == slots && items == []
    {
      this.order, this.slots, items := order, slots, [];
    }

    ghost predicate Valid()
      reads this, slots
    {
      Sorted(order, slots[..], items)
    }

    /** The key of j must be new. If a key was changed inside the tree, the tree is no
        longer sorted and nothing is said, except that a slot alone in the tree is
        found equal to itself. */
    method Insert(j: int)
      requires InRange(slots[..], items) && 0 <= j < slots.Length
      modifies this
      ensures InRange(slots[..], items)
      ensures old(Valid() && FreshKey(order, slots[..], items, j)) ==>
                && Valid() && items == Inserted(order, slots[..], old(items), j)
                && multiset(items) == multiset(old(items)) + multiset{j}
      ensures old(items) == [] || old(items) == [j] ==> items == [j]
    {
      if Valid() && FreshKey(order, slots[..], items, j) {
        InsertSorts(order, slots[..], items, j);
      }
      InsertInRange(order, slots[..], items, j);
      items := Inserted(order, slots[..], items, j);
    }

    method DeleteSlot(j: int)
      requires Valid() && j in items
      modifies this
      ensures Valid() && multiset(items) == multiset(old(items)) - multiset{j}
    {
      RemoveSorts(order, slots[..], items, j);
      items := Removed(order, slots[..], items, j);
    }

    predicate FirstDue(x: int)
      requires items != [] && Valid()
      reads this, slots
    {
      slots[items[0]].retryDeadline <= x
    }

    /** Remove the first slot here, and in the callback from the other index. */
    method TakeFirst(other: Retree) returns (cur: int)
      requires Valid() && items != [] && other != this && other.slots == slots && other.Valid()
      requires SameItems(items, other.items)
      modifies this, other
      ensures Valid() && other.Valid() && SameItems(items, other.items)
      ensures old(items) != [] && cur == old(items)[0] && items == old(items)[1..]
    {
      cur := items[0];
      HeadGone(items);
      SortedTail(order, slots[..], items);
      hide Sorted;
      assert cur in multiset(other.items);
      items := items[1..];
      other.DeleteSlot(cur);
    }

    /** deleteThroughDeadline, with its callback: each slot removed here is
        removed from the other index too. Returns the slots in removal order. */
    method DeleteThroughDeadline(x: int, other: Retree) returns (gone: seq<int>)
      requires Valid() && order == ByDeadline && other != this && other.slots == slots && other.Valid()
      requires SameItems(items, other.items)
      modifies this, other
      ensures Valid() && other.Valid() && SameItems(items, other.items)
      ensures gone == DuePrefix(slots[..], old(items), x) && CutOff(old(items), gone, items)
    {
      gone := [];
      ghost var all := items;
      assert CutOff(all, gone, items);
      hide Sorted, DuePrefix, CutOff, SameItems;
      while items != [] && FirstDue(x)
        invariant Valid() && other.Valid() && SameItems(items, other.items)
        invariant CutOff(all, gone, items)
        invariant DuePrefix(slots[..], all, x) == gone + DuePrefix(slots[..], items, x)
        decreases |items|
      {
        DueStep(slots[..], items, gone, x);
        CutOffStep(all, gone, items);
        var cur := TakeFirst(other);
        gone := gone + [cur];
      }
      DueNone(slots[..], items, x);
    }

    /** deleteThroughSeqNum, with the same callback. */
    method DeleteThroughSeqNum(seqnum: int, other: Retree) returns (gone: seq<int>)
      requires Valid() && order == BySeqNum && other != this && other.slots == slots && other.Valid()
      requires SameItems(items, other.items)
      modifies this, other
      ensures Valid() && other.Valid() && SameItems(items, other.items)
      ensures CutOff(old(items), gone, items)
      ensures CutAt(slots[..], gone, items, seqnum)
    {
      gone := [];
      ghost var all := items;
      assert CutOff(all, gone, items);
      hide CutOff, SameItems;
      while items != [] && slots[items[0]].frame.seqNum <= seqnum
        invariant Valid() && other.Valid() && SameItems(items, other.items)
        invariant CutOff(all, gone, items)
        invariant forall i :: 0 <= i < |gone| ==> 0 <= gone[i] < slots.Length && slots[gone[i]].frame.seqNum <= seqnum
        decreases |items|
      {
        CutOffStep(all, gone, items);
        var cur := TakeFirst(other);
        gone := gone + [cur];
      }
      if items != [] {
        BelowHead(order, slots[..], items);
      }
    }
  }
}
