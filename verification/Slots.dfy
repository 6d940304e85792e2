/** Positions in a ring of w slots: number n lives in slot n modulo w. */
module Slots {

  /** n modulo w, by repeated subtraction, so that proofs need no division. */
  function Slot(n: nat, w: nat): (s: nat)
    requires w > 0
    ensures s < w
  {
    if n < w then n else Slot(n - w, w)
  }

  lemma MulGap(w: int, k: int)
    requires w > 0
    ensures w * k <= 0 || w * k >= w
  {
    if k >= 1 {
      assert w * k == w + w * (k - 1);
      assert w * (k - 1) >= 0;
    } else {
      assert w * k == -(w * -k);
      assert w * -k >= 0;
    }
  }

  /** A number has only one quotient and remainder. */
  lemma ModUnique(x: nat, q: int, r: nat, w: nat)
    requires w > 0 && r < w && x == w * q + r
    ensures x % w == r
  {
    var q', r' := x / w, x % w;
    assert x == w * q' + r';
    assert w * (q' - q) == w * q' - w * q;
    assert w * (q' - q) == r - r';
    MulGap(w, q' - q);
    MulGap(w, q - q');
    assert w * (q - q') == r' - r;
  }

  lemma {:induction false} SlotIsMod(n: nat, w: nat)
    requires w > 0
    ensures Slot(n, w) == n % w
    decreases n
  {
    if n < w {
      ModUnique(n, 0, n, w);
    } else {
      SlotIsMod(n - w, w);
      var q := (n - w) / w;
      assert n - w == w * q + (n - w) % w;
      assert w * (q + 1) == w * q + w;
      ModUnique(n, q + 1, (n - w) % w, w);
    }
  }

  /** Two different numbers of one window never share a slot. */
  lemma {:induction false} SlotDistinct(a: nat, b: nat, w: nat)
    requires a < b < a + w
    ensures Slot(a, w) != Slot(b, w)
    decreases a
  {
    if a >= w {
      SlotDistinct(a - w, b - w, w);
    }
  }

  /** Every slot belongs to one of any w consecutive numbers. */
  lemma {:induction false} SlotReached(lo: nat, i: nat, w: nat)
    requires i < w
    ensures exists n: nat :: lo <= n < lo + w && Slot(n, w) == i
  {
    if lo == 0 {
      assert Slot(i, w) == i;
    } else {
      SlotReached(lo - 1, i, w);
      var n: nat :| lo - 1 <= n < lo - 1 + w && Slot(n, w) == i;
      if n == lo - 1 {
        SlotAgain(n, w);
        assert lo <= n + w < lo + w;
      }
    }
  }

  /** A number and the one w further share their slot. */
  lemma SlotAgain(a: nat, w: nat)
    requires w > 0
    ensures Slot(a + w, w) == Slot(a, w)
  {
  }
}
