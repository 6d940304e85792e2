/** overing.go: a fixed-size ring of event times, updated in place. Every method
    refines the queue operation that its contract names. */
module EventRing {
  import opened Integers
  import opened Slots
  import opened Fifo

  /** The n elements from beg on, wrapping around. */
  function Items(a: seq<int>, beg: nat, n: nat): (s: seq<int>)
    requires a != []
    ensures |s| == n
  {
    seq(n, i requires i >= 0 => a[Slot(beg + i, |a|)])
  }

  lemma SlotWraps(x: nat, w: nat)
    requires x < 2 * w
    ensures Slot(x, w) == if x < w then x else x - w
  {
  }

  lemma ItemsContiguous(a: seq<int>, beg: nat, n: nat)
    requires beg + n <= |a| && a != []
    ensures Items(a, beg, n) == a[beg..beg + n]
  {
    forall i | 0 <= i < n ensures Items(a, beg, n)[i] == a[beg + i] { SlotWraps(beg + i, |a|); }
  }

  lemma ItemsWrapped(a: seq<int>, beg: nat, n: nat)
    requires beg < |a| < beg + n && n <= |a|
    ensures Items(a, beg, n) == a[beg..] + a[..beg + n - |a|]
  {
    forall i | 0 <= i < n ensures Items(a, beg, n)[i] == (a[beg..] + a[..beg + n - |a|])[i] { SlotWraps(beg + i, |a|); }
  }

  lemma ItemsDrop(a: seq<int>, beg: nat, n: nat, k: nat)
    requires beg < |a| && k <= n <= |a|
    ensures Items(a, Slot(beg + k, |a|), n - k) == Items(a, beg, n)[k..]
  {
    forall i | 0 <= i < n - k
      ensures Items(a, Slot(beg + k, |a|), n - k)[i] == Items(a, beg, n)[k..][i]
    {
      SlotWraps(beg + k, |a|);
      SlotWraps(beg + k + i, |a|);
      SlotWraps(Slot(beg + k, |a|) + i, |a|);
    }
  }

  /** Writing p after the items, without wrapping, appends p. */
  lemma ItemsAppend(a: seq<int>, a': seq<int>, beg: nat, n: nat, p: seq<int>)
    requires beg < |a| && n + |p| <= |a| && Slot(beg + n, |a|) + |p| <= |a|
    requires var at := Slot(beg + n, |a|); a' == a[..at] + p + a[at + |p|..]
    ensures Items(a', beg, n + |p|) == Items(a, beg, n) + p
  {
    var at := Slot(beg + n, |a|);
    SlotWraps(beg + n, |a|);
    forall i | 0 <= i < n + |p|
      ensures Items(a', beg, n + |p|)[i] == (Items(a, beg, n) + p)[i]
    {
      SlotWraps(beg + i, |a|);
    }
  }

  lemma Replaced(a: seq<int>, at: nat, e: int)
    requires at < |a|
    ensures a[at := e] == a[..at] + [e] + a[at + 1..]
  {
  }

  /** In a full ring the newest item replaces the oldest. */
  lemma ItemsRotate(a: seq<int>, beg: nat, e: int)
    requires beg < |a|
    ensures Items(a[beg := e], Slot(beg + 1, |a|), |a|) == Items(a, beg, |a|)[1..] + [e]
  {
    var next := Slot(beg + 1, |a|);
    SlotWraps(beg + 1, |a|);
    SlotWraps(next + (|a| - 1), |a|);
    ItemsDrop(a, beg, |a|, 1);
    Replaced(a, beg, e);
    ItemsAppend(a, a[beg := e], next, |a| - 1, [e]);
  }

  /** In a ring that is not full it comes after them. */
  lemma ItemsGrow(a: seq<int>, beg: nat, n: nat, e: int)
    requires beg < |a| && n < |a|
    ensures Slot(beg + n, |a|) < |a| && Items(a[Slot(beg + n, |a|) := e], beg, n + 1) == Items(a, beg, n) + [e]
  {
    var at := Slot(beg + n, |a|);
    SlotWraps(beg + n, |a|);
    Replaced(a, at, e);
    ItemsAppend(a, a[at := e], beg, n, [e]);
  }

  // ----- the built-in copy -----

  /** p is p0 with k elements from lo on of src copied to position off. */
  ghost predicate Copied(p: seq<int>, p0: seq<int>, off: nat, src: seq<int>, lo: nat, k: nat) {
    off + k <= |p0| && lo + k <= |src| && p == p0[..off] + src[lo..lo + k] + p0[off + k..]
  }

  lemma CopiedNone(p: seq<int>, off: nat, src: seq<int>, lo: nat)
    requires off <= |p| && lo <= |src|
    ensures Copied(p, p, off, src, lo, 0)
  {
  }

  lemma CopiedNext(p: seq<int>, p0: seq<int>, off: nat, src: seq<int>, lo: nat, k: nat)
    requires Copied(p, p0, off, src, lo, k) && off + k < |p0| && lo + k < |src|
    ensures |p| == |p0| && Copied(p[off + k := src[lo + k]], p0, off, src, lo, k + 1)
  {
  }

  /** p starts with the first n items, and is unchanged after them. */
  ghost predicate ReadFrom(p: seq<int>, p0: seq<int>, items: seq<int>, n: nat) {
    n <= |p0| && n <= |items| && p == items[..n] + p0[n..]
  }

  lemma OnePiece(p: seq<int>, p0: seq<int>, a: seq<int>, lo: nat, hi: nat, n: nat)
    requires Copied(p, p0, 0, a, lo, n) && lo + n <= hi <= |a|
    ensures ReadFrom(p, p0, a[lo..hi], n)
  {
    assert a[lo..hi][..n] == a[lo..lo + n];
  }

  lemma FirstPiece(p: seq<int>, p0: seq<int>, a: seq<int>, lo: nat, hi: nat, n: nat)
    requires Copied(p, p0, 0, a, lo, n) && hi <= |a|
    ensures ReadFrom(p, p0, a[lo..] + a[..hi], n)
  {
    assert (a[lo..] + a[..hi])[..n] == a[lo..lo + n];
  }

  lemma TwoPieces(p: seq<int>, p1: seq<int>, p0: seq<int>, a: seq<int>, lo: nat, hi: nat, m: nat)
    requires lo <= |a| && m <= hi <= |a|
    requires var n := |a| - lo; Copied(p1, p0, 0, a, lo, n) && Copied(p, p1, n, a, 0, m)
    ensures ReadFrom(p, p0, a[lo..] + a[..hi], |a| - lo + m)
  {
    var n := |a| - lo;
    assert (a[lo..] + a[..hi])[..n + m] == a[lo..] + a[0..m];
    assert p1[..n] == a[lo..] && p1[n + m..] == p0[n + m..];
  }

  class EventRingBuf {
    var A: array<int>
    var N: int
    const Window: int
    var Beg: int
    var Readable: int

    ghost predicate Valid()
      reads this
    {
      N == A.Length >= 1 && 0 <= Beg < N && 0 <= Readable <= N
    }

    ghost function View(): Queue
      requires Valid()
      reads this, A
    {
      Queue(Items(A[..], Beg, Readable), N)
    }

    constructor (maxEventsStored: int, maxTimeWindow: int)
      requires maxEventsStored >= 1
      ensures Valid() && View() == Queue([], maxEventsStored) && Window == maxTimeWindow && fresh(A)
    {
      N, Beg, Readable, Window := maxEventsStored, 0, 0, maxTimeWindow;
      A := new int[maxEventsStored];
    }

    /** Write e after the youngest event; in a full ring it replaces the oldest. */
    method Insert(e: int) returns (youngest: int)
      requires Valid()
      modifies this`Beg, this`Readable, A
      ensures Valid() && View() == Added(old(View()), e) && View().items != []
      ensures 0 <= youngest < N && A[youngest] == e
    {
      hide Items;
      SlotIsMod(Beg + Readable, N);
      SlotIsMod(Beg + 1, N);
      SlotWraps(Beg + Readable, N);
      hide Slot;
      youngest := (Beg + Readable) % N;
      var space := N - Readable;
      ghost var a := A[..];
      A[youngest] := e;
      assert A[..] == a[youngest := e];
      if space == 0 {
        ItemsRotate(a, Beg, e);
        Beg := (Beg + 1) % N;
      } else {
        ItemsGrow(a, Beg, Readable, e);
        Readable := Readable + 1;
      }
    }

    /** Add e and tell whether the ring is now full of events no further apart than Window. */
    method AddEventCheckOverflow(e: int) returns (overflow: bool)
      requires Valid()
      modifies this`Beg, this`Readable, A
      ensures Valid() && View() == Added(old(View()), e)
      ensures overflow == Overflows(View(), Window)
    {
      var youngest := Insert(e);
      FirstItem(A[..], Beg, Readable);
      hide Items;
      var oldest := Beg;
      var left := N - Readable;
      if left > 0 {
        return false;
      }
      assert View().items[N - 1] == e;
      overflow := A[youngest] - A[oldest] <= Window;
    }

    lemma FirstItem(a: seq<int>, beg: nat, n: nat)
      requires beg < |a| && n >= 1
      ensures |Items(a, beg, n)| == n && Items(a, beg, n)[0] == a[beg]
    {
      SlotWraps(beg, |a|);
    }

    /** The readable items as two slices of the buffer. */
    method TwoContig() returns (first: seq<int>, second: seq<int>)
      requires Valid()
      ensures first + second == View().items
      ensures Beg + Readable <= N ==> second == []
    {
      var extent := Beg + Readable;
      if extent <= N {
        ItemsContiguous(A[..], Beg, Readable);
        return A[Beg..Beg + Readable], [];
      }
      ItemsWrapped(A[..], Beg, Readable);
      SlotIsMod(extent, N);
      SlotWraps(extent, N);
      first, second := A[Beg..N], A[0..extent % N];
    }

    /** The built-in copy from A[lo..hi] to p[off..]. */
    method CopyOut(p: array<int>, off: nat, lo: nat, hi: nat) returns (k: nat)
      requires off <= p.Length && lo <= hi <= A.Length && p != A
      modifies p
      ensures k == Min(p.Length - off, hi - lo)
      ensures Copied(p[..], old(p[..]), off, A[..], lo, k)
    {
      k := 0;
      CopiedNone(p[..], off, A[..], lo);
      hide Copied;
      while off + k < p.Length && lo + k < hi
        invariant off + k <= p.Length && lo + k <= hi
        invariant Copied(p[..], old(p[..]), off, A[..], lo, k)
      {
        CopiedNext(p[..], old(p[..]), off, A[..], lo, k);
        p[off + k] := A[lo + k];
        k := k + 1;
      }
    }

    /** Copy the readable items, in at most two pieces. */
    method CopyReadable(p: array<int>) returns (n: nat)
      requires Valid() && p != A
      modifies p
      ensures n == Min(p.Length, Readable) && ReadFrom(p[..], old(p[..]), View().items, n)
    {
      hide Slot, Items, Copied, ReadFrom;
      ghost var p0, a, items := p[..], A[..], View().items;
      var extent := Beg + Readable;
      if extent <= N {
        ItemsContiguous(a, Beg, Readable);
        n := CopyOut(p, 0, Beg, extent);
        OnePiece(p[..], p0, a, Beg, extent, n);
      } else {
        ItemsWrapped(a, Beg, Readable);
        SlotIsMod(extent, N);
        SlotWraps(extent, N);
        n := CopyOut(p, 0, Beg, N);
        ghost var p1 := p[..];
        if n < p.Length {
          var m := CopyOut(p, n, 0, extent % N);
          TwoPieces(p[..], p1, p0, a, Beg, extent - N, m);
          n := n + m;
        } else {
          FirstPiece(p1, p0, a, Beg, extent - N, n);
        }
      }
    }

    /** Read into p, then forget what was read if doAdvance. */
    method ReadAndMaybeAdvance(p: array<int>, doAdvance: bool) returns (n: nat, eof: bool)
      requires Valid() && p != A
      modifies this`Beg, this`Readable, p
      ensures Valid() && eof == (p.Length > 0 && old(Readable) == 0)
      ensures n == Min(p.Length, old(Readable))
      ensures ReadFrom(p[..], old(p[..]), old(View().items), n)
      ensures View() == if doAdvance then Advanced(old(View()), n) else old(View())
    {
      hide Items;
      n, eof := 0, false;
      assert ReadFrom(p[..], p[..], View().items, 0);
      if p.Length == 0 {
        return;
      }
      if Readable == 0 {
        return 0, true;
      }
      n := CopyReadable(p);
      if doAdvance {
        Advance(n);
      }
    }

    method ReadPtrs(p: array<int>) returns (n: nat, eof: bool)
      requires Valid() && p != A
      modifies this`Beg, this`Readable, p
      ensures Valid() && eof == (p.Length > 0 && old(Readable) == 0)
      ensures n == Min(p.Length, old(Readable))
      ensures ReadFrom(p[..], old(p[..]), old(View().items), n)
      ensures View() == Advanced(old(View()), n)
    {
      n, eof := ReadAndMaybeAdvance(p, true);
    }

    method ReadWithoutAdvance(p: array<int>) returns (n: nat, eof: bool)
      requires Valid() && p != A
      modifies this`Beg, this`Readable, p
      ensures Valid() && eof == (p.Length > 0 && old(Readable) == 0)
      ensures n == Min(p.Length, old(Readable))
      ensures ReadFrom(p[..], old(p[..]), old(View().items), n)
      ensures View() == old(View())
    {
      n, eof := ReadAndMaybeAdvance(p, false);
    }

    /** The built-in copy from p to A[lo..hi]. */
    method CopyIn(p: seq<int>, lo: nat, hi: nat) returns (k: nat)
      requires lo <= hi <= A.Length
      modifies A
      ensures k == Min(|p|, hi - lo)
      ensures A[..] == old(A[..lo]) + p[..k] + old(A[lo + k..])
    {
      k := 0;
      while k < |p| && lo + k < hi
        invariant k <= |p| && lo + k <= hi
        invariant A[..] == old(A[..lo]) + p[..k] + old(A[lo + k..])
      {
        A[lo + k] := p[k];
        k := k + 1;
      }
    }

    /** One turn: fill up to the end of the buffer or of the free space. */
    method WriteChunk(p: seq<int>) returns (k: nat)
      requires Valid() && Readable < N
      modifies this`Readable, A
      ensures Valid() && k <= Min(|p|, N - old(Readable)) && Readable == old(Readable) + k
      ensures |p| > 0 ==> k > 0
      ensures Items(A[..], Beg, Readable) == old(Items(A[..], Beg, Readable)) + p[..k]
    {
      hide Items;
      var writeCapacity := N - Readable;
      SlotIsMod(Beg + Readable, N);
      var writeStart := (Beg + Readable) % N;
      var upperLim := Min(writeStart + writeCapacity, N);
      ghost var a := A[..];
      k := CopyIn(p, writeStart, upperLim);
      ItemsAppend(a, A[..], Beg, Readable, p[..k]);
      Readable := Readable + k;
    }

    lemma NextChunk(p: seq<int>, items: seq<int>, n: nat, k: nat)
      requires n + k <= |p|
      ensures (items + p[..n]) + p[n..][..k] == items + p[..n + k] && p[n..][k..] == p[n + k..]
    {
    }

    /** Write what fits; short tells that something did not. */
    method WritePtrs(p: seq<int>) returns (n: nat, short: bool)
      requires Valid()
      modifies this`Readable, A
      ensures Valid() && View() == Written(old(View()), p)
      ensures n == Min(|p|, N - old(Readable)) && short == (n < |p|)
    {
      hide Items, Slot;
      n, short := 0, false;
      var rest := p;
      ghost var items := Items(A[..], Beg, Readable);
      while true
        invariant Valid() && n <= |p| && rest == p[n..] && Readable == old(Readable) + n
        invariant Items(A[..], Beg, Readable) == items + p[..n]
        invariant short ==> |p| > N - old(Readable)
        decreases |rest|
      {
        if |rest| == 0 {
          return;
        }
        var writeCapacity := N - Readable;
        if writeCapacity <= 0 {
          short := true;
          return;
        }
        if |rest| > writeCapacity {
          short := true;
        }
        var k := WriteChunk(rest);
        NextChunk(p, items, n, k);
        n := n + k;
        rest := rest[k..];
      }
    }

    method Reset()
      requires Valid()
      modifies this`Beg, this`Readable
      ensures Valid() && View() == Queue([], N)
    {
      Beg, Readable := 0, 0;
    }

    /** Forget the n oldest items. */
    method Advance(n: int)
      requires Valid()
      modifies this`Beg, this`Readable
      ensures Valid() && View() == Advanced(old(View()), n)
    {
      if n <= 0 {
        return;
      }
      var m := n;
      if m > Readable {
        m := Readable;
      }
      ItemsDrop(A[..], Beg, Readable, m);
      SlotIsMod(Beg + m, N);
      Readable := Readable - m;
      Beg := (Beg + m) % N;
    }

    /** Take over me as the buffer if it is larger, else copy it into the buffer. */
    method Adopt(me: array<int>)
      requires Valid()
      modifies this`A, this`N, this`Beg, this`Readable, A
      ensures Valid() && View() == Adopted(old(View()), old(me[..]))
      ensures A == if me.Length > old(N) then me else old(A)
    {
      var n := me.Length;
      if n > N {
        A, N, Beg, Readable := me, n, 0, n;
      } else {
        ghost var src := me[..];
        var k := CopyIn(me[..], 0, N);
        Beg, Readable := 0, n;
      }
      ItemsContiguous(A[..], 0, n);
    }
  }

  /** A ring that watches a whole series of events, in order of time: it reports an
      event exactly when, with it, at least limit events so far lie within window. */
  method Watch(limit: int, window: int, events: seq<int>) returns (reports: seq<bool>)
    requires limit >= 1 && Nondecreasing(events)
    ensures |reports| == |events|
    ensures forall i :: 0 <= i < |events| ==>
              (reports[i] <==> Recent(events[..i + 1], events[i], window) >= limit)
  {
    hide Recent, Added, Overflows;
    var ring := new EventRingBuf(limit, window);
    reports := [];
    for i := 0 to |events|
      invariant ring.Valid() && fresh(ring) && fresh(ring.A) && ring.Window == window
      invariant |reports| == i && ring.View() == AddedAll(limit, events[..i])
      invariant forall k :: 0 <= k < i ==>
                  (reports[k] <==> Recent(events[..k + 1], events[k], window) >= limit)
    {
      assert events[..i + 1][..i] == events[..i];
      OverflowMeansTooMany(limit, events[..i + 1], window);
      var report := ring.AddEventCheckOverflow(events[i]);
      reports := reports + [report];
    }
  }
}
