/** What an event ring promises: a bounded first-in first-out queue, and a monitor
    that reports when too many events came within a time window. */
module Fifo {
  import opened Integers

  datatype Queue = Queue(items: seq<int>, limit: nat)

  ghost predicate Ok(q: Queue) {
    |q.items| <= q.limit && q.limit >= 1
  }

  /** A new event pushes the oldest one out of a full queue. */
  function Added(q: Queue, e: int): Queue {
    q.(items := if |q.items| >= q.limit && q.items != [] then q.items[1..] + [e] else q.items + [e])
  }

  /** As much of p as fits. */
  function Written(q: Queue, p: seq<int>): Queue
    requires Ok(q)
  {
    q.(items := q.items + p[..Min(|p|, q.limit - |q.items|)])
  }

  function Front(q: Queue, n: nat): seq<int> {
    q.items[..Min(n, |q.items|)]
  }

  function Advanced(q: Queue, n: int): Queue {
    if n <= 0 then q else q.(items := q.items[Min(n, |q.items|)..])
  }

  /** A larger slice replaces the buffer. */
  function Adopted(q: Queue, me: seq<int>): Queue {
    Queue(me, Max(q.limit, |me|))
  }

  // ----- any mix of operations -----

  datatype Op =
    | Write(p: seq<int>)      // WritePtrs
    | Add(e: int)             // AddEventCheckOverflow
    | Take(n: nat)            // ReadPtrs, into a slice of length n
    | Peek(n: nat)            // ReadWithoutAdvance
    | Skip(k: int)            // Advance
    | Adopt(me: seq<int>)
    | Reset

  function Step(q: Queue, op: Op): (q': Queue)
    requires Ok(q)
    ensures Ok(q') && q'.limit >= q.limit
  {
    match op
    case Write(p) => Written(q, p)
    case Add(e) => Added(q, e)
    case Take(n) => Advanced(q, n)
    case Peek(n) => q
    case Skip(k) => Advanced(q, k)
    case Adopt(me) => Adopted(q, me)
    case Reset => q.(items := [])
  }

  /** What one operation puts in at the back. */
  function PutIn(q: Queue, op: Op): seq<int>
    requires Ok(q)
  {
    match op
    case Write(p) => p[..Min(|p|, q.limit - |q.items|)]
    case Add(e) => [e]
    case Adopt(me) => me
    case _ => []
  }

  /** What one operation takes out at the front: read, skipped, pushed out or forgotten. */
  function TakenOut(q: Queue, op: Op): seq<int>
    requires Ok(q)
  {
    match op
    case Write(_) => []
    case Add(_) => if |q.items| >= q.limit then q.items[..1] else []
    case Take(n) => Front(q, n)
    case Peek(_) => []
    case Skip(k) => Front(q, Max(k, 0))
    case Adopt(_) => q.items
    case Reset => q.items
  }

  function Final(q: Queue, ops: seq<Op>): (q': Queue)
    requires Ok(q)
    ensures Ok(q') && q'.limit >= q.limit
    decreases |ops|
  {
    if ops == [] then q else Final(Step(q, ops[0]), ops[1..])
  }

  /** Everything that was put in, in order. */
  function Accepted(q: Queue, ops: seq<Op>): seq<int>
    requires Ok(q)
    decreases |ops|
  {
    if ops == [] then [] else PutIn(q, ops[0]) + Accepted(Step(q, ops[0]), ops[1..])
  }

  /** Everything that was taken out, in order. */
  function Removed(q: Queue, ops: seq<Op>): seq<int>
    requires Ok(q)
    decreases |ops|
  {
    if ops == [] then [] else TakenOut(q, ops[0]) + Removed(Step(q, ops[0]), ops[1..])
  }

  /** One operation: what it takes out and what it leaves is what was there and what
      it puts in. */
  lemma StepMoves(q: Queue, op: Op)
    requires Ok(q)
    ensures TakenOut(q, op) + Step(q, op).items == q.items + PutIn(q, op)
  {
    match op
    case Add(e) =>
      if |q.items| >= q.limit {
        assert q.items == q.items[..1] + q.items[1..];
      }
    case _ =>
  }

  /** First in, first out, for every mix of operations: what was taken out, followed by
      what is left, is what was there, followed by what was put in. */
  lemma {:induction false} FirstInFirstOut(q: Queue, ops: seq<Op>)
    requires Ok(q)
    ensures Removed(q, ops) + Final(q, ops).items == q.items + Accepted(q, ops)
    decreases |ops|
  {
    if ops != [] {
      hide Ok, Step, PutIn, TakenOut;
      var q' := Step(q, ops[0]);
      StepMoves(q, ops[0]);
      FirstInFirstOut(q', ops[1..]);
      var out, left, more := Removed(q', ops[1..]), Final(q', ops[1..]).items, Accepted(q', ops[1..]);
      hide Removed, Final, Accepted;
      Joined(TakenOut(q, ops[0]), out, left, q'.items, more, q.items, PutIn(q, ops[0]));
    }
  }

  lemma Joined(gone: seq<int>, out: seq<int>, left: seq<int>, next: seq<int>, more: seq<int>, items: seq<int>, put: seq<int>)
    requires out + left == next + more && gone + next == items + put
    ensures (gone + out) + left == items + (put + more)
  {
    assert (gone + out) + left == gone + (out + left);
    assert gone + (next + more) == (gone + next) + more;
    assert (items + put) + more == items + (put + more);
  }

  /** A read, advancing or not, returns the oldest items that were put in and not yet
      taken out. */
  lemma ReadsOldest(q: Queue, ops: seq<Op>, n: nat)
    requires Ok(q)
    ensures Removed(q, ops) + Front(Final(q, ops), n) <= q.items + Accepted(q, ops)
  {
    FirstInFirstOut(q, ops);
    var r, f, items := Removed(q, ops), Front(Final(q, ops), n), Final(q, ops).items;
    assert r + f == (r + items)[..|r| + |f|];
  }

  // ----- the overflow monitor -----

  /** The queue is full and its oldest event is within window of its newest. */
  predicate Overflows(q: Queue, window: int) {
    |q.items| >= q.limit && q.items != [] && q.items[|q.items| - 1] - q.items[0] <= window
  }

  /** All events added to an empty queue, oldest first. */
  function AddedAll(limit: nat, events: seq<int>): Queue {
    if events == [] then Queue([], limit)
    else Added(AddedAll(limit, events[..|events| - 1]), events[|events| - 1])
  }

  function Last(limit: nat, events: seq<int>): seq<int> {
    events[|events| - Min(limit, |events|)..]
  }

  lemma LastMoves(limit: nat, events: seq<int>, e: int)
    requires limit >= 1
    ensures Added(Queue(Last(limit, events), limit), e) == Queue(Last(limit, events + [e]), limit)
  {
    var all := events + [e];
    if |events| >= limit {
      assert all[|all| - limit..] == events[|events| - limit..][1..] + [e];
    } else {
      assert Last(limit, events) == events && Last(limit, all) == all;
    }
  }

  /** The queue always holds the last events, as many as it has room for, in order. */
  lemma {:induction false} HoldsLastEvents(limit: nat, events: seq<int>)
    requires limit >= 1
    ensures AddedAll(limit, events) == Queue(Last(limit, events), limit)
  {
    if events != [] {
      var before := events[..|events| - 1];
      HoldsLastEvents(limit, before);
      LastMoves(limit, before, events[|events| - 1]);
      assert before + [events[|events| - 1]] == events;
    }
  }

  ghost predicate Nondecreasing(events: seq<int>) {
    forall i, j :: 0 <= i <= j < |events| ==> events[i] <= events[j]
  }

  /** How many events happened at most window before t. */
  function Recent(events: seq<int>, t: int, window: int): nat {
    if events == [] then 0
    else (if t - events[0] <= window then 1 else 0) + Recent(events[1..], t, window)
  }

  lemma {:induction false} RecentSplit(a: seq<int>, b: seq<int>, t: int, window: int)
    ensures Recent(a + b, t, window) == Recent(a, t, window) + Recent(b, t, window)
  {
    if a == [] {
      assert a + b == b;
    } else {
      assert (a + b)[1..] == a[1..] + b;
      RecentSplit(a[1..], b, t, window);
    }
  }

  lemma {:induction false} RecentAll(events: seq<int>, t: int, window: int)
    requires forall i :: 0 <= i < |events| ==> t - events[i] <= window
    ensures Recent(events, t, window) == |events|
  {
    if events != [] {
      RecentAll(events[1..], t, window);
    }
  }

  lemma {:induction false} RecentNone(events: seq<int>, t: int, window: int)
    requires forall i :: 0 <= i < |events| ==> t - events[i] > window
    ensures Recent(events, t, window) == 0
  {
    if events != [] {
      RecentNone(events[1..], t, window);
    }
  }

  lemma {:induction false} RecentBound(events: seq<int>, t: int, window: int)
    ensures Recent(events, t, window) <= |events|
  {
    if events != [] {
      RecentBound(events[1..], t, window);
    }
  }

  lemma RecentFrom(events: seq<int>, cut: nat, t: int, window: int)
    requires Nondecreasing(events) && cut < |events| && t - events[cut] <= window
    ensures Recent(events, t, window) >= |events| - cut
  {
    var older, newer := events[..cut], events[cut..];
    assert events == older + newer;
    RecentSplit(older, newer, t, window);
    RecentAll(newer, t, window);
  }

  lemma RecentAfter(events: seq<int>, cut: nat, t: int, window: int)
    requires Nondecreasing(events) && cut < |events| && t - events[cut] > window
    ensures Recent(events, t, window) < |events| - cut
  {
    var older, newer := events[..cut + 1], events[cut + 1..];
    assert events == older + newer;
    RecentSplit(older, newer, t, window);
    RecentNone(older, t, window);
    RecentBound(newer, t, window);
  }

  /** After events in order of time, the monitor reports overflow exactly when at
      least limit of all events so far happened within window of the newest. */
  lemma OverflowMeansTooMany(limit: nat, events: seq<int>, window: int)
    requires limit >= 1 && events != [] && Nondecreasing(events)
    ensures Overflows(AddedAll(limit, events), window) <==>
            Recent(events, events[|events| - 1], window) >= limit
  {
    hide Recent, Nondecreasing, AddedAll;
    var k, t := |events|, events[|events| - 1];
    HoldsLastEvents(limit, events);
    RecentBound(events, t, window);
    if k >= limit {
      if t - events[k - limit] <= window {
        RecentFrom(events, k - limit, t, window);
      } else {
        RecentAfter(events, k - limit, t, window);
      }
    }
  }
}
