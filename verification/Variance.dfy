/** Incremental weighted statistics over exact reals: what the sums of stddev.go must
    stay equal to, and why its update formulas keep them so. */
module Variance {

  datatype Obs = Obs(x: real, w: real)

  function Moment(o: Obs): real {
    o.w * o.x
  }

  /** The weighted squared distance from c. */
  function Sq(o: Obs, c: real): real {
    o.w * ((o.x - c) * (o.x - c))
  }

  function SumW(obs: seq<Obs>): real {
    if obs == [] then 0.0 else SumW(obs[..|obs| - 1]) + obs[|obs| - 1].w
  }

  function SumWX(obs: seq<Obs>): real {
    if obs == [] then 0.0 else SumWX(obs[..|obs| - 1]) + Moment(obs[|obs| - 1])
  }

  function SumSq(obs: seq<Obs>, c: real): real {
    if obs == [] then 0.0 else SumSq(obs[..|obs| - 1], c) + Sq(obs[|obs| - 1], c)
  }

  ghost predicate Positive(obs: seq<Obs>) {
    forall i :: 0 <= i < |obs| ==> obs[i].w > 0.0
  }

  predicate IsMean(w: real, a: real, wx: real) {
    w * a == wx
  }

  /** The three running values are exact for these observations. */
  ghost predicate Exact(obs: seq<Obs>, w: real, a: real, q: real) {
    w == SumW(obs) && IsMean(w, a, SumWX(obs)) && q == SumSq(obs, a)
  }

  /** What addObs computes for one column. */
  function Mean(w: real, a: real, o: Obs): real
    requires w + o.w != 0.0
  {
    a + o.w * (o.x - a) / (w + o.w)
  }

  function Quad(w: real, a: real, q: real, o: Obs): real
    requires w + o.w != 0.0
  {
    q + o.w * (o.x - a) * (o.x - Mean(w, a, o))
  }

  // ----- moving the centre of the squared distances -----

  /** sd and sc are sums of squares around d and c. */
  predicate Shifted(sd: real, sc: real, wx: real, w: real, c: real, d: real) {
    sd == sc + 2.0 * (c - d) * wx - (c - d) * (c + d) * w
  }

  lemma Distribute(k: real, a: real, b: real)
    ensures k * (a + b) == k * a + k * b
  {
  }

  lemma SquareShift(o: Obs, c: real, d: real)
    ensures Shifted(Sq(o, d), Sq(o, c), Moment(o), o.w, c, d)
  {
  }

  lemma ShiftAdds(sd: real, sc: real, wx: real, w: real, td: real, tc: real, mx: real, v: real, c: real, d: real)
    requires Shifted(sd, sc, wx, w, c, d) && Shifted(td, tc, mx, v, c, d)
    ensures Shifted(sd + td, sc + tc, wx + mx, w + v, c, d)
  {
    Distribute(2.0 * (c - d), wx, mx);
    Distribute((c - d) * (c + d), w, v);
  }

  lemma {:induction false} SumSqShift(obs: seq<Obs>, c: real, d: real)
    ensures Shifted(SumSq(obs, d), SumSq(obs, c), SumWX(obs), SumW(obs), c, d)
  {
    if obs == [] {
      assert Shifted(0.0, 0.0, 0.0, 0.0, c, d);
    } else {
      hide Shifted, Sq, Moment;
      var o, rest := obs[|obs| - 1], obs[..|obs| - 1];
      SumSqShift(rest, c, d);
      SquareShift(o, c, d);
      ShiftAdds(SumSq(rest, d), SumSq(rest, c), SumWX(rest), SumW(rest), Sq(o, d), Sq(o, c), Moment(o), o.w, c, d);
    }
  }

  /** With the weighted mean as centre, the sum grows by w times the squared distance. */
  predicate FromMean(sd: real, sa: real, w: real, a: real, d: real) {
    sd == sa + w * ((a - d) * (a - d))
  }

  lemma MeanShift(sd: real, sa: real, wx: real, w: real, a: real, d: real)
    requires IsMean(w, a, wx) && Shifted(sd, sa, wx, w, a, d)
    ensures FromMean(sd, sa, w, a, d)
  {
    var k := (a - d) * w;
    assert 2.0 * (a - d) * (w * a) == k * (2.0 * a);
    assert (a - d) * (a + d) * w == k * (a + d);
    Distribute(k, 2.0 * a, -(a + d));
    assert w * ((a - d) * (a - d)) == k * (a - d);
  }

  lemma SumSqFromMean(obs: seq<Obs>, a: real, d: real)
    requires IsMean(SumW(obs), a, SumWX(obs))
    ensures FromMean(SumSq(obs, d), SumSq(obs, a), SumW(obs), a, d)
  {
    hide Shifted, IsMean, FromMean;
    SumSqShift(obs, a, d);
    MeanShift(SumSq(obs, d), SumSq(obs, a), SumWX(obs), SumW(obs), a, d);
  }

  // ----- one more observation -----

  /** The new mean, with t the step per unit of weight. */
  lemma MeanStep(w: real, a: real, o: Obs, t: real)
    requires w + o.w != 0.0 && t == (o.x - a) / (w + o.w)
    ensures o.x - a == t * (w + o.w) && Mean(w, a, o) == a + o.w * t
    ensures o.x - Mean(w, a, o) == t * w
  {
    assert o.w * (o.x - a) / (w + o.w) == o.w * t;
    Distribute(t, w, o.w);
  }

  lemma StillMean(w: real, a: real, wx: real, o: Obs, t: real)
    requires IsMean(w, a, wx) && o.x - a == t * (w + o.w)
    ensures IsMean(w + o.w, a + o.w * t, wx + Moment(o))
  {
    var w' := w + o.w;
    Distribute(w', a, o.w * t);
    assert w' * a == w * a + o.w * a;
    assert w' * (o.w * t) == o.w * (t * w');
    Distribute(o.w, a, t * w');
  }

  lemma QuadStep(w: real, ow: real, t: real)
    ensures w * ((ow * t) * (ow * t)) + ow * ((t * w) * (t * w)) == ow * (t * (w + ow)) * (t * w)
  {
    var k := ow * w * (t * t);
    assert w * ((ow * t) * (ow * t)) == k * ow;
    assert ow * ((t * w) * (t * w)) == k * w;
    assert ow * (t * (w + ow)) * (t * w) == k * (w + ow);
    Distribute(k, w, ow);
  }

  /** The quadratic term, from the sum of squares around the old mean a. */
  lemma QuadIs(w: real, a: real, q: real, o: Obs, around: real)
    requires w + o.w != 0.0 && FromMean(around, q, w, a, Mean(w, a, o))
    ensures around + Sq(o, Mean(w, a, o)) == Quad(w, a, q, o)
  {
    var t := (o.x - a) / (w + o.w);
    MeanStep(w, a, o, t);
    var b := Mean(w, a, o);
    QuadAt(w, a, q, o, around, t, b);
  }

  lemma QuadAt(w: real, a: real, q: real, o: Obs, around: real, t: real, b: real)
    requires o.x - a == t * (w + o.w) && b == a + o.w * t && o.x - b == t * w
    requires FromMean(around, q, w, a, b)
    ensures around + Sq(o, b) == q + o.w * (o.x - a) * (o.x - b)
  {
    QuadStep(w, o.w, t);
    assert a - b == -(o.w * t);
    assert (a - b) * (a - b) == (o.w * t) * (o.w * t);
  }

  lemma SumsGrow(obs: seq<Obs>, o: Obs, c: real)
    ensures var all := obs + [o];
            && SumW(all) == SumW(obs) + o.w && SumWX(all) == SumWX(obs) + Moment(o)
            && SumSq(all, c) == SumSq(obs, c) + Sq(o, c)
  {
    var all := obs + [o];
    assert all[..|all| - 1] == obs;
  }

  lemma {:induction false} Signs(obs: seq<Obs>, c: real)
    requires Positive(obs)
    ensures SumW(obs) >= 0.0 && SumSq(obs, c) >= 0.0
    ensures obs != [] ==> SumW(obs) > 0.0
  {
    hide Sq;
    if obs != [] {
      Signs(obs[..|obs| - 1], c);
      Square(obs[|obs| - 1], c);
    }
  }

  lemma Square(o: Obs, c: real)
    requires o.w > 0.0
    ensures Sq(o, c) >= 0.0
  {
    assert (o.x - c) * (o.x - c) >= 0.0;
  }

  /** All three running values stay exact with every observation, of whatever weight,
      that leaves a total weight other than 0. */
  lemma ExactStep(obs: seq<Obs>, w: real, a: real, q: real, o: Obs)
    requires Exact(obs, w, a, q) && w + o.w != 0.0
    ensures Exact(obs + [o], w + o.w, Mean(w, a, o), Quad(w, a, q, o))
  {
    hide SumW, SumWX, SumSq, Sq, Moment, IsMean, FromMean, Mean, Quad;
    var t := (o.x - a) / (w + o.w);
    MeanStep(w, a, o, t);
    StillMean(w, a, SumWX(obs), o, t);
    SumsGrow(obs, o, Mean(w, a, o));
    SumSqFromMean(obs, a, Mean(w, a, o));
    QuadIs(w, a, q, o, SumSq(obs, Mean(w, a, o)));
  }

  /** The number under the square root of sd, where it is defined. */
  function Radicand(q: real, w: real): (r: real)
    requires w != 0.0 && w != 1.0
  {
    (q / w) * w / (w - 1.0)
  }

  /** It is the weighted sum of squares over W - 1, and with positive weights not
      negative once W > 1. */
  lemma RadicandIs(obs: seq<Obs>, w: real, a: real, q: real)
    requires Exact(obs, w, a, q) && w != 0.0 && w != 1.0
    ensures Radicand(q, w) == SumSq(obs, a) / (w - 1.0)
    ensures Positive(obs) && w > 1.0 ==> Radicand(q, w) >= 0.0
  {
    if Positive(obs) {
      Signs(obs, a);
    }
    assert (q / w) * w == q;
  }
}
