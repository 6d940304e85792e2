/** stddev.go and rtt.go over exact reals: the trackers that the code updates in place. */
module Stats {
  import opened Variance

  datatype Row = Row(x: seq<real>, weight: real)

  /** Column i of the rows seen. */
  ghost function Column(rows: seq<Row>, i: nat): (obs: seq<Obs>)
    requires forall r :: r in rows ==> i < |r.x|
  {
    seq(|rows|, k requires 0 <= k < |rows| => Obs(rows[k].x[i], rows[k].weight))
  }

  ghost predicate Wide(rows: seq<Row>, n: nat) {
    forall r :: r in rows ==> |r.x| == n
  }

  /** The three sums of column i are exact. */
  ghost predicate ColumnExact(rows: seq<Row>, n: nat, i: nat, w: seq<real>, a: seq<real>, q: seq<real>) {
    i < n == |w| == |a| == |q| && Wide(rows, n) && Exact(Column(rows, i), w[i], a[i], q[i])
  }

  lemma ColumnGrows(rows: seq<Row>, n: nat, i: nat, row: Row)
    requires Wide(rows, n) && |row.x| == n && i < n
    ensures Wide(rows + [row], n) && Column(rows + [row], i) == Column(rows, i) + [Obs(row.x[i], row.weight)]
  {
  }

  lemma NothingExact(n: nat, i: nat, zero: seq<real>)
    requires i < n == |zero| && zero[i] == 0.0
    ensures ColumnExact([], n, i, zero, zero, zero)
  {
    assert Column([], i) == [];
  }

  class SdTracker {
    const Nc: int
    const W: array<real>
    const A: array<real>
    const Q: array<real>
    ghost var Seen: seq<Row>

    ghost predicate Shaped()
      reads this
    {
      && W.Length == A.Length == Q.Length == Nc && W != A && A != Q && W != Q
      && Wide(Seen, Nc)
    }

    /** Every sum is exact for the rows seen. */
    ghost predicate Valid()
      reads this, W, A, Q
    {
      Shaped() && forall i :: 0 <= i < Nc ==> ColumnExact(Seen, Nc, i, W[..], A[..], Q[..])
    }

    constructor (ncol: int)
      requires ncol >= 0
      ensures Valid() && Seen == [] && Nc == ncol && fresh(W) && fresh(A) && fresh(Q)
    {
      Nc, Seen := ncol, [];
      W := new real[ncol](_ => 0.0);
      A := new real[ncol](_ => 0.0);
      Q := new real[ncol](_ => 0.0);
      new;
      forall i | 0 <= i < Nc ensures ColumnExact(Seen, Nc, i, W[..], A[..], Q[..]) {
        assert W[..] == A[..] == Q[..];
        NothingExact(Nc, i, W[..]);
      }
    }

    lemma Formulas(w: real, a: real, q: real, o: Obs)
      requires w + o.w != 0.0
      ensures Mean(w, a, o) == a + o.w * (o.x - a) / (w + o.w)
      ensures Quad(w, a, q, o) == q + o.w * (o.x - a) * (o.x - Mean(w, a, o))
    {
    }

    /** One column of addObs. */
    method UpdateColumn(i: nat, ghost row: Row, x: real, weight: real)
      requires Shaped() && i < Nc && W[i] + weight != 0.0 && |row.x| == Nc && row.x[i] == x && row.weight == weight
      requires ColumnExact(Seen, Nc, i, W[..], A[..], Q[..])
      modifies W, A, Q
      ensures ColumnExact(Seen + [row], Nc, i, W[..], A[..], Q[..])
      ensures forall k :: 0 <= k < Nc && k != i ==> W[k] == old(W[k]) && A[k] == old(A[k]) && Q[k] == old(Q[k])
    {
      hide Exact, Column, Mean, Quad;
      ghost var o := Obs(x, weight);
      ExactStep(Column(Seen, i), W[i], A[i], Q[i], o);
      ColumnGrows(Seen, Nc, i, row);
      Formulas(W[i], A[i], Q[i], o);
      W[i] := W[i] + weight;
      var A0i := A[i];
      A[i] := A0i + weight * (x - A0i) / W[i];
      Q[i] := Q[i] + weight * (x - A0i) * (x - A[i]);
    }

    /** A row of the wrong length panics; any other keeps all sums exact, whatever its
        weight, as long as the new total weight can be divided by. */
    method AddObs(x: seq<real>, weight: real) returns (panicked: bool)
      requires Valid() && forall i :: 0 <= i < Nc ==> W[i] + weight != 0.0
      modifies this`Seen, W, A, Q
      ensures Valid() && panicked == (|x| != Nc)
      ensures Seen == if panicked then old(Seen) else old(Seen) + [Row(x, weight)]
    {
      panicked := |x| != Nc;
      if panicked {
        return;
      }
      hide ColumnExact;
      ghost var row := Row(x, weight);
      for i := 0 to Nc
        invariant Shaped() && Seen == old(Seen)
        invariant forall k :: i <= k < Nc ==> W[k] == old(W[k])
        invariant forall k :: 0 <= k < i ==> ColumnExact(Seen + [row], Nc, k, W[..], A[..], Q[..])
        invariant forall k :: i <= k < Nc ==> ColumnExact(Seen, Nc, k, W[..], A[..], Q[..])
      {
        ghost var w, a, q := W[..], A[..], Q[..];
        assert ColumnExact(Seen, Nc, i, w, a, q);
        UpdateColumn(i, row, x[i], weight);
        forall k | 0 <= k < Nc && k != i
          ensures ColumnExact(Seen, Nc, k, w, a, q) ==> ColumnExact(Seen, Nc, k, W[..], A[..], Q[..])
          ensures ColumnExact(Seen + [row], Nc, k, w, a, q) ==> ColumnExact(Seen + [row], Nc, k, W[..], A[..], Q[..])
        {
          SameColumn(Seen, Nc, k, w, a, q, W[..], A[..], Q[..]);
          SameColumn(Seen + [row], Nc, k, w, a, q, W[..], A[..], Q[..]);
        }
      }
      Seen := Seen + [row];
    }

    lemma SameColumn(rows: seq<Row>, n: nat, k: nat, w: seq<real>, a: seq<real>, q: seq<real>,
                     w': seq<real>, a': seq<real>, q': seq<real>)
      requires |w'| == |a'| == |q'| == n && k < n == |w| == |a| == |q|
      requires w'[k] == w[k] && a'[k] == a[k] && q'[k] == q[k]
      ensures ColumnExact(rows, n, k, w, a, q) ==> ColumnExact(rows, n, k, w', a', q')
    {
    }

    /** sd without its square root: for each column the number the root is taken of,
        where the total weight is neither 0 nor 1. */
    method Sd() returns (radicands: seq<Root>)
      requires Valid()
      ensures |radicands| == Nc
      ensures forall i :: 0 <= i < Nc ==>
                radicands[i] == SampleVariance(Column(Seen, i), A[i])
    {
      radicands := [];
      for i := 0 to Nc
        invariant |radicands| == i
        invariant forall k :: 0 <= k < i ==> radicands[k] == SampleVariance(Column(Seen, k), A[k])
      {
        assert ColumnExact(Seen, Nc, i, W[..], A[..], Q[..]);
        var r := Undefined;
        if W[i] != 0.0 && W[i] != 1.0 {
          RadicandIs(Column(Seen, i), W[i], A[i], Q[i]);
          r := Defined((Q[i] / W[i]) * W[i] / (W[i] - 1.0));
        }
        radicands := radicands + [r];
      }
    }
  }

  datatype Root = Undefined | Defined(value: real)

  /** The weighted sum of squared distances from the mean, over the weight less one. */
  ghost function SampleVariance(obs: seq<Obs>, mean: real): Root {
    if SumW(obs) == 0.0 || SumW(obs) == 1.0 then Undefined
    else Defined(SumSq(obs, mean) / (SumW(obs) - 1.0))
  }

  // ----- round-trip times -----

  /** Conversion of a float to an integer drops the fraction. */
  function Truncated(x: real): (n: int)
    ensures x >= 0.0 ==> n as real <= x < n as real + 1.0
    ensures x <= 0.0 ==> n as real - 1.0 < x <= n as real
  {
    if x >= 0.0 then x.Floor else -((-x).Floor)
  }

  /** No less than the least sample and no more than the greatest. */
  ghost predicate Between(samples: seq<int>, x: real) {
    && (exists i :: 0 <= i < |samples| && samples[i] as real <= x)
    && (exists j :: 0 <= j < |samples| && x <= samples[j] as real)
  }

  lemma Witnesses(samples: seq<int>, x: real, i: nat, j: nat)
    requires i < |samples| && j < |samples| && samples[i] as real <= x <= samples[j] as real
    ensures Between(samples, x)
  {
  }

  lemma BetweenGrows(samples: seq<int>, est: real, s: int, mix: real)
    requires Between(samples, est)
    requires if s as real <= est then s as real <= mix <= est else est <= mix <= s as real
    ensures Between(samples + [s], mix)
  {
    var all := samples + [s];
    var i :| 0 <= i < |samples| && samples[i] as real <= est;
    var j :| 0 <= j < |samples| && est <= samples[j] as real;
    assert all[i] == samples[i] && all[j] == samples[j] && all[|samples|] == s;
    if s as real <= est {
      Witnesses(all, mix, |samples|, j);
    } else {
      Witnesses(all, mix, i, |samples|);
    }
  }

  function Mix(alpha: real, x: real, y: real): real {
    alpha * x + (1.0 - alpha) * y
  }

  lemma ProductSign(a: real, d: real)
    requires a >= 0.0
    ensures if d >= 0.0 then a * d >= 0.0 else a * d <= 0.0
  {
  }

  lemma MixBounds(alpha: real, x: real, y: real)
    requires 0.0 <= alpha <= 1.0
    ensures if x <= y then x <= Mix(alpha, x, y) <= y else y <= Mix(alpha, x, y) <= x
  {
    var d := y - x;
    assert Mix(alpha, x, y) == y - alpha * d;
    assert Mix(alpha, x, y) == x + (1.0 - alpha) * d;
    ProductSign(alpha, d);
    ProductSign(1.0 - alpha, d);
  }

  /** A mix of a value between the samples and a new sample is between all of them. */
  lemma MixBetween(samples: seq<int>, est: real, alpha: real, s: int)
    requires Between(samples, est) && 0.0 <= alpha <= 1.0
    ensures Between(samples + [s], Mix(alpha, s as real, est))
  {
    hide Mix, Between;
    MixBounds(alpha, s as real, est);
    BetweenGrows(samples, est, s, Mix(alpha, s as real, est));
  }

  lemma TruncatedBetween(samples: seq<int>, x: real)
    requires Between(samples, x)
    ensures Between(samples, Truncated(x) as real)
  {
    var i :| 0 <= i < |samples| && samples[i] as real <= x;
    var j :| 0 <= j < |samples| && x <= samples[j] as real;
    var n := Truncated(x);
    assert samples[i] <= n <= samples[j];
  }

  /** Each sample as a row of the tracker, of weight 1. */
  ghost function Rows(samples: seq<int>): seq<Row> {
    seq(|samples|, k requires 0 <= k < |samples| => Row([samples[k] as real], 1.0))
  }

  lemma {:induction false} UnitWeights(samples: seq<int>)
    ensures Wide(Rows(samples), 1) && Positive(Column(Rows(samples), 0))
    ensures Wide(Rows(samples), 1) && SumW(Column(Rows(samples), 0)) == |samples| as real
  {
    if samples != [] {
      var front := samples[..|samples| - 1];
      UnitWeights(front);
      var obs := Column(Rows(samples), 0);
      assert obs[..|obs| - 1] == Column(Rows(front), 0);
    }
  }

  datatype Deviation = Fixed(ns: int) | RootOf(radicand: real)

  class RTT {
    var Est: real
    const Alpha: real := 0.1
    var N: int
    const Tracker: SdTracker
    ghost var Samples: seq<int>

    ghost predicate Valid()
      reads this, Tracker, Tracker.W, Tracker.A, Tracker.Q
    {
      && Tracker.Valid() && Tracker.Nc == 1 && Tracker.Seen == Rows(Samples)
      && N == |Samples| && (N > 0 ==> Between(Samples, Est))
    }

    constructor ()
      ensures Valid() && Samples == []
      ensures fresh(Tracker) && fresh(Tracker.W) && fresh(Tracker.A) && fresh(Tracker.Q)
    {
      Est, N, Samples := 0.0, 0, [];
      Tracker := new SdTracker(1);
    }

    /** The estimate is the first sample, and then a moving average; it never leaves
        the range of the samples. */
    method AddSample(newSample: int)
      requires Valid()
      modifies this, Tracker, Tracker.W, Tracker.A, Tracker.Q
      ensures Valid() && Samples == old(Samples) + [newSample]
      ensures Est == if old(N) == 0 then newSample as real
                     else 0.1 * newSample as real + 0.9 * old(Est)
    {
      N := N + 1;
      UnitWeights(Samples);
      assert ColumnExact(Tracker.Seen, 1, 0, Tracker.W[..], Tracker.A[..], Tracker.Q[..]);
      ghost var before := Samples;
      var panicked := Tracker.AddObs([newSample as real], 1.0);
      Samples := Samples + [newSample];
      assert Tracker.Seen == Rows(Samples);
      var cur := newSample as real;
      if N == 1 {
        Witnesses(Samples, cur, 0, 0);
        Est := cur;
        return;
      }
      MixBetween(before, Est, Alpha, newSample);
      Est := Alpha * cur + (1.0 - Alpha) * Est;
    }

    /** The estimate, as a whole number, is also between the least and the greatest sample. */
    method GetEstimate() returns (ns: int)
      requires Valid()
      ensures N > 0 ==> Between(Samples, ns as real)
    {
      ns := Truncated(Est);
      if N > 0 {
        TruncatedBetween(Samples, Est);
      }
    }

    /** Two fixed cases, then the root of the sample variance, which is defined and
        not negative. */
    method GetSd() returns (d: Deviation)
      requires Valid()
      ensures N == 0 ==> d == Fixed(10_000_000)
      ensures N == 1 ==> d == Fixed(Truncated(Est / 2.0))
      ensures N >= 2 ==>
                && d == RootOf(SumSq(Column(Rows(Samples), 0), Tracker.A[0]) / (N - 1) as real)
                && d.radicand >= 0.0
    {
      if N == 0 {
        return Fixed(10_000_000);
      }
      if N == 1 {
        return Fixed(Truncated(Est / 2.0));
      }
      UnitWeights(Samples);
      var radicands := Tracker.Sd();
      Signs(Column(Rows(Samples), 0), Tracker.A[0]);
      d := RootOf(radicands[0].value);
    }
  }
}
