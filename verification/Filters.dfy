/**
  The second-order filters of `Equalizer.h` and `ToneControl.cpp`, over the reals. The values of
  `sin`, `cos`, `pow` and `sqrt` are parameters.
*/
module Filters {
  import opened Decay

  /** Normalised coefficients. */
  datatype Coefs = Coefs(b0: real, b1: real, b2: real, a1: real, a2: real)

  /** A filter with its last two inputs and outputs. */
  datatype Biquad = Biquad(c: Coefs, x1: real, x2: real, y1: real, y2: real)

  /** A filter after `reset`, or a new `ShelvingFilter`. */
  const FRESH := Biquad(Coefs(1.0, 0.0, 0.0, 0.0, 0.0), 0.0, 0.0, 0.0, 0.0)

  /** Nothing has been heard yet. */
  predicate Silent(f: Biquad) { f.x1 == 0.0 && f.x2 == 0.0 && f.y1 == 0.0 && f.y2 == 0.0 }

  /** Every coefficient divided by a0. */
  function Normalised(b0: real, b1: real, b2: real, a0: real, a1: real, a2: real): Coefs
    requires a0 > 0.0
  {
    var i := 1.0 / a0;
    Coefs(b0 * i, b1 * i, b2 * i, a1 * i, a2 * i)
  }

  /** `BiquadFilter::configure`; g is 10^(dB/40). */
  function Peaking(g: real, alpha: real, cosW: real): Coefs
    requires g > 0.0 && alpha > 0.0
  {
    assert alpha / g > 0.0;
    Normalised(1.0 + alpha * g, -2.0 * cosW, 1.0 - alpha * g, 1.0 + alpha / g, -2.0 * cosW, 1.0 - alpha / g)
  }

  /** What the shelving formulas need of their parameters: r is the square root of g. */
  predicate Params(g: real, r: real, alpha: real, cosW: real) {
    g > 0.0 && r > 0.0 && r * r == g && alpha > 0.0 && -1.0 < cosW < 1.0
  }

  /** (g + 1) - |g - 1| is positive, so both shelving denominators start positive. */
  lemma ShelfPositive(g: real, r: real, alpha: real, cosW: real)
    requires Params(g, r, alpha, cosW)
    ensures (g + 1.0) + (g - 1.0) * cosW > 0.0 && (g + 1.0) - (g - 1.0) * cosW > 0.0
    ensures 2.0 * r * alpha > 0.0
  {
    if g >= 1.0 {
      Scale(-1.0, cosW, g - 1.0);
      Scale(cosW, 1.0, g - 1.0);
    } else {
      Scale(-1.0, cosW, 1.0 - g);
      Scale(cosW, 1.0, 1.0 - g);
    }
    Scale(0.0, r, alpha);
  }

  /** The common form of both shelves. */
  function Shelf(g: real, p: real, q: real, u: real, v: real, s: real): Coefs
    requires u + s > 0.0
  {
    Normalised(g * (p + s), 2.0 * g * q, g * (p - s), u + s, -2.0 * v, u - s)
  }

  function LowShelf(g: real, r: real, alpha: real, cosW: real): Coefs
    requires Params(g, r, alpha, cosW)
  {
    ShelfPositive(g, r, alpha, cosW);
    Shelf(g, (g + 1.0) - (g - 1.0) * cosW, (g - 1.0) - (g + 1.0) * cosW,
          (g + 1.0) + (g - 1.0) * cosW, (g - 1.0) + (g + 1.0) * cosW, 2.0 * r * alpha)
  }

  function HighShelf(g: real, r: real, alpha: real, cosW: real): Coefs
    requires Params(g, r, alpha, cosW)
  {
    ShelfPositive(g, r, alpha, cosW);
    Shelf(g, (g + 1.0) + (g - 1.0) * cosW, -((g - 1.0) + (g + 1.0) * cosW),
          (g + 1.0) - (g - 1.0) * cosW, -((g - 1.0) - (g + 1.0) * cosW), 2.0 * r * alpha)
  }

  function Output(f: Biquad, x: real): real {
    f.c.b0 * x + f.c.b1 * f.x1 + f.c.b2 * f.x2 - f.c.a1 * f.y1 - f.c.a2 * f.y2
  }

  /** The filter after `process(x)`. */
  function Shift(f: Biquad, x: real): Biquad { Biquad(f.c, x, f.x1, Output(f, x), f.y1) }

  // ---------------------------------------------------------------- stability and gain

  /** The stability triangle. */
  predicate Stable(c: Coefs) { Triangle(c.a1, c.a2) }

  /** The gain for constant input, times the denominator, which is positive for a stable filter. */
  predicate DcGain(c: Coefs, k: real) { c.b0 + c.b1 + c.b2 == k * (1.0 + c.a1 + c.a2) }

  /** The gain for input of alternating sign. */
  predicate NyquistGain(c: Coefs, k: real) { c.b0 - c.b1 + c.b2 == k * (1.0 - c.a1 + c.a2) }

  lemma Below(x: real, y: real, z: real, p: real)
    requires z > 0.0 && x < y && y * z == p
    ensures x * z < p && -(x * z) == (-x) * z
  {
    Scale(x, y, z);
  }

  lemma NormalisedStable(b0: real, b1: real, b2: real, a0: real, a1: real, a2: real)
    requires a0 > 0.0 && Abs(a2) < a0 && Abs(a1) < a0 + a2
    ensures Stable(Normalised(b0, b1, b2, a0, a1, a2))
  {
    var i := 1.0 / a0;
    Below(a2, a0, i, 1.0);
    Below(-a2, a0, i, 1.0);
    assert (a0 + a2) * i == 1.0 + a2 * i;
    Below(a1, a0 + a2, i, 1.0 + a2 * i);
    Below(-a1, a0 + a2, i, 1.0 + a2 * i);
  }

  lemma NormalisedGains(b0: real, b1: real, b2: real, a0: real, a1: real, a2: real, dc: real, nyquist: real)
    requires a0 > 0.0
    requires b0 + b1 + b2 == dc * (a0 + a1 + a2) && b0 - b1 + b2 == nyquist * (a0 - a1 + a2)
    ensures DcGain(Normalised(b0, b1, b2, a0, a1, a2), dc)
    ensures NyquistGain(Normalised(b0, b1, b2, a0, a1, a2), nyquist)
  {
    var i := 1.0 / a0;
    assert a0 * i == 1.0;
    assert (b0 + b1 + b2) * i == b0 * i + b1 * i + b2 * i;
    assert (b0 - b1 + b2) * i == b0 * i - b1 * i + b2 * i;
    Reassociate(dc, a0 + a1 + a2, i);
    Reassociate(nyquist, a0 - a1 + a2, i);
    assert (a0 + a1 + a2) * i == 1.0 + a1 * i + a2 * i;
    assert (a0 - a1 + a2) * i == 1.0 - a1 * i + a2 * i;
  }

  lemma Reassociate(x: real, y: real, z: real)
    ensures (x * y) * z == x * (y * z)
  {
  }

  /** A peaking filter leaves constant and alternating input alone and is stable. */
  lemma PeakingFilter(g: real, alpha: real, cosW: real)
    requires g > 0.0 && alpha > 0.0 && -1.0 < cosW < 1.0
    ensures Stable(Peaking(g, alpha, cosW))
    ensures DcGain(Peaking(g, alpha, cosW), 1.0) && NyquistGain(Peaking(g, alpha, cosW), 1.0)
  {
    var q := alpha / g;
    assert q > 0.0;
    NormalisedStable(1.0 + alpha * g, -2.0 * cosW, 1.0 - alpha * g, 1.0 + q, -2.0 * cosW, 1.0 - q);
    NormalisedGains(1.0 + alpha * g, -2.0 * cosW, 1.0 - alpha * g, 1.0 + q, -2.0 * cosW, 1.0 - q, 1.0, 1.0);
  }

  /** The last condition of the triangle, for both shelves (with cosW or -cosW). */
  lemma ShelfTriangle(g: real, cosW: real)
    requires g > 0.0 && -1.0 < cosW < 1.0
    ensures Abs((g - 1.0) + (g + 1.0) * cosW) < (g + 1.0) + (g - 1.0) * cosW
  {
    var p, q := (g + 1.0) + (g - 1.0) * cosW, (g - 1.0) + (g + 1.0) * cosW;
    assert p - q == 2.0 - 2.0 * cosW;
    assert p + q == 2.0 * (g * (1.0 + cosW));
    assert g * (1.0 + cosW) > 0.0;
  }

  lemma ShelfSums(g: real, p: real, q: real, s: real)
    ensures g * (p + s) + 2.0 * g * q + g * (p - s) == 2.0 * (g * (p + q))
    ensures g * (p + s) - 2.0 * g * q + g * (p - s) == 2.0 * (g * (p - q))
  {
  }

  lemma ShelfStable(g: real, p: real, q: real, u: real, v: real, s: real)
    requires s > 0.0 && Abs(v) < u
    ensures Stable(Shelf(g, p, q, u, v, s))
  {
    NormalisedStable(g * (p + s), 2.0 * g * q, g * (p - s), u + s, -2.0 * v, u - s);
  }

  lemma ShelfGains(g: real, p: real, q: real, u: real, v: real, s: real, dc: real, nyquist: real)
    requires s > 0.0 && u > 0.0
    requires g * (p + q) == dc * (u - v) && g * (p - q) == nyquist * (u + v)
    ensures DcGain(Shelf(g, p, q, u, v, s), dc) && NyquistGain(Shelf(g, p, q, u, v, s), nyquist)
  {
    ShelfSums(g, p, q, s);
    Double(dc, u - v, (u + s) + -2.0 * v + (u - s));
    Double(nyquist, u + v, (u + s) - -2.0 * v + (u - s));
    NormalisedGains(g * (p + s), 2.0 * g * q, g * (p - s), u + s, -2.0 * v, u - s, dc, nyquist);
  }

  lemma ShelfLaws(g: real, p: real, q: real, u: real, v: real, s: real, dc: real, nyquist: real)
    requires s > 0.0 && Abs(v) < u
    requires g * (p + q) == dc * (u - v) && g * (p - q) == nyquist * (u + v)
    ensures Stable(Shelf(g, p, q, u, v, s))
    ensures DcGain(Shelf(g, p, q, u, v, s), dc) && NyquistGain(Shelf(g, p, q, u, v, s), nyquist)
  {
    ShelfStable(g, p, q, u, v, s);
    ShelfGains(g, p, q, u, v, s, dc, nyquist);
  }

  lemma Double(k: real, x: real, y: real)
    requires y == 2.0 * x
    ensures k * y == 2.0 * (k * x)
  {
  }

  /** The four combinations of the shelving terms, times g where the gains need it. */
  lemma ShelfTerms(g: real, c: real)
    ensures g * (((g + 1.0) - (g - 1.0) * c) + ((g - 1.0) - (g + 1.0) * c))
         == g * g * (((g + 1.0) + (g - 1.0) * c) - ((g - 1.0) + (g + 1.0) * c))
    ensures g * (((g + 1.0) - (g - 1.0) * c) - ((g - 1.0) - (g + 1.0) * c))
         == 1.0 * (((g + 1.0) + (g - 1.0) * c) + ((g - 1.0) + (g + 1.0) * c))
  {
    assert ((g + 1.0) - (g - 1.0) * c) + ((g - 1.0) - (g + 1.0) * c) == 2.0 * (g * (1.0 - c));
    assert ((g + 1.0) + (g - 1.0) * c) - ((g - 1.0) + (g + 1.0) * c) == 2.0 * (1.0 - c);
    assert g * (2.0 * (g * (1.0 - c))) == g * g * (2.0 * (1.0 - c));
  }

  /** A low shelf scales constant input by g squared and leaves alternating input alone. */
  lemma LowShelfFilter(g: real, r: real, alpha: real, cosW: real)
    requires Params(g, r, alpha, cosW)
    ensures Stable(LowShelf(g, r, alpha, cosW))
    ensures DcGain(LowShelf(g, r, alpha, cosW), g * g) && NyquistGain(LowShelf(g, r, alpha, cosW), 1.0)
  {
    ShelfPositive(g, r, alpha, cosW);
    ShelfTriangle(g, cosW);
    ShelfTerms(g, cosW);
    ShelfLaws(g, (g + 1.0) - (g - 1.0) * cosW, (g - 1.0) - (g + 1.0) * cosW,
              (g + 1.0) + (g - 1.0) * cosW, (g - 1.0) + (g + 1.0) * cosW, 2.0 * r * alpha, g * g, 1.0);
  }

  /** The mirror image: the same terms with -cosW, and the two gains exchanged. */
  lemma HighTerms(g: real, c: real)
    ensures g * (((g + 1.0) + (g - 1.0) * c) + -((g - 1.0) + (g + 1.0) * c))
         == 1.0 * (((g + 1.0) - (g - 1.0) * c) - -((g - 1.0) - (g + 1.0) * c))
    ensures g * (((g + 1.0) + (g - 1.0) * c) - -((g - 1.0) + (g + 1.0) * c))
         == g * g * (((g + 1.0) - (g - 1.0) * c) + -((g - 1.0) - (g + 1.0) * c))
  {
    assert ((g + 1.0) - (g - 1.0) * c) + ((g - 1.0) - (g + 1.0) * c) == 2.0 * (g * (1.0 - c));
    assert ((g + 1.0) + (g - 1.0) * c) + ((g - 1.0) + (g + 1.0) * c) == 2.0 * (g * (1.0 + c));
    assert g * (2.0 * (g * (1.0 + c))) == g * g * (2.0 * (1.0 + c));
  }

  lemma HighShelfFilter(g: real, r: real, alpha: real, cosW: real)
    requires Params(g, r, alpha, cosW)
    ensures Stable(HighShelf(g, r, alpha, cosW))
    ensures DcGain(HighShelf(g, r, alpha, cosW), 1.0) && NyquistGain(HighShelf(g, r, alpha, cosW), g * g)
  {
    ShelfPositive(g, r, alpha, cosW);
    ShelfTriangle(g, -cosW);
    assert (g + 1.0) * -cosW == -((g + 1.0) * cosW) && (g - 1.0) * -cosW == -((g - 1.0) * cosW);
    HighTerms(g, cosW);
    ShelfLaws(g, (g + 1.0) + (g - 1.0) * cosW, -((g - 1.0) + (g + 1.0) * cosW),
              (g + 1.0) - (g - 1.0) * cosW, -((g - 1.0) - (g + 1.0) * cosW), 2.0 * r * alpha, 1.0, g * g);
  }

  // ---------------------------------------------------------------- constant input

  /** The filter after n times the input x. */
  function Constant(f: Biquad, x: real, n: nat): Biquad
    decreases n
  {
    if n == 0 then f else Constant(Shift(f, x), x, n - 1)
  }

  /** The last input and the one before were x. */
  predicate Settled(f: Biquad, x: real) { f.x1 == x && f.x2 == x }

  /** Deviations of the last two outputs from the scaled constant obey the homogeneous recurrence. */
  lemma Deviation(f: Biquad, x: real, k: real)
    requires DcGain(f.c, k) && Settled(f, x)
    ensures Output(f, x) - k * x == -f.c.a1 * (f.y1 - k * x) - f.c.a2 * (f.y2 - k * x)
    ensures Settled(Shift(f, x), x)
    ensures f.y1 == k * x && f.y2 == k * x ==> Output(f, x) == k * x
  {
    var t := k * x;
    assert f.c.b0 * x + f.c.b1 * x + f.c.b2 * x == (f.c.b0 + f.c.b1 + f.c.b2) * x;
    assert k * (1.0 + f.c.a1 + f.c.a2) * x == t + f.c.a1 * t + f.c.a2 * t;
    assert -f.c.a1 * (f.y1 - t) == -f.c.a1 * f.y1 + f.c.a1 * t;
    assert -f.c.a2 * (f.y2 - t) == -f.c.a2 * f.y2 + f.c.a2 * t;
  }

  /** The last two outputs as deviations from the constant t. */
  function Deviations(f: Biquad, t: real): (real, real) { (f.y1 - t, f.y2 - t) }

  lemma {:induction false} DeviationsOverRun(f: Biquad, x: real, k: real, n: nat)
    requires DcGain(f.c, k) && Settled(f, x)
    ensures Deviations(Constant(f, x, n), k * x) == Dev(f.c.a1, f.c.a2, f.y1 - k * x, f.y2 - k * x, n)
    decreases n
  {
    if n == 0 {
    } else {
      Deviation(f, x, k);
      DeviationsOverRun(Shift(f, x), x, k, n - 1);
      SameStep(f, x, k);
    }
  }

  lemma SameStep(f: Biquad, x: real, k: real)
    requires Output(f, x) - k * x == -f.c.a1 * (f.y1 - k * x) - f.c.a2 * (f.y2 - k * x)
    ensures Output(f, x) - k * x == NextDev(f.c.a1, f.c.a2, f.y1 - k * x, f.y2 - k * x)
  {
  }

  /**
    A stable filter fed a constant stays, for ever, as close to the scaled constant as its first
    deviations allow.
  */
  lemma ConstantInputBounded(f: Biquad, x: real, k: real, n: nat)
    requires Stable(f.c) && DcGain(f.c, k) && Settled(f, x)
    ensures var d := Deviations(Constant(f, x, n), k * x);
      Bound(1.0 - f.c.a2, 1.0 + f.c.a2 - Abs(f.c.a1), Sum2(d.0, d.1)) <= FormAt(f.c.a1, f.c.a2, Deviations(f, k * x))
  {
    var d := Deviations(Constant(f, x, n), k * x);
    DeviationsOverRun(f, x, k, n);
    FormFalls(f.c.a1, f.c.a2, f.y1 - k * x, f.y2 - k * x, n);
    FormBounds(f.c.a1, f.c.a2, d.0, d.1);
  }

  /** And it tends to the scaled constant: from some moment on the deviations stay below any bound. */
  lemma ConstantInputConverges(f: Biquad, x: real, k: real, eps: real) returns (n: nat)
    requires Stable(f.c) && DcGain(f.c, k) && Settled(f, x) && eps > 0.0
    ensures forall m: nat | m >= n :: Squares(Deviations(Constant(f, x, m), k * x)) < eps
  {
    n := DevVanishes(f.c.a1, f.c.a2, f.y1 - k * x, f.y2 - k * x, eps);
    forall m: nat | m >= n ensures Squares(Deviations(Constant(f, x, m), k * x)) < eps {
      DeviationsOverRun(f, x, k, m);
    }
  }

  /** Two samples settle any filter. */
  lemma TwoSamplesSettle(f: Biquad, x: real)
    ensures Settled(Constant(f, x, 2), x) && Constant(f, x, 2).c == f.c
  {
    assert Constant(f, x, 2) == Constant(Shift(f, x), x, 1) == Constant(Shift(Shift(f, x), x), x, 0);
  }

  lemma {:induction false} ConstantAdds(f: Biquad, x: real, n: nat, m: nat)
    ensures Constant(f, x, n + m) == Constant(Constant(f, x, n), x, m)
    decreases n
  {
    if n == 0 {
    } else {
      ConstantAdds(Shift(f, x), x, n - 1, m);
    }
  }

  /** So from any history, constant input ends up scaled by the gain. */
  lemma AnyHistoryConverges(f: Biquad, x: real, k: real, eps: real) returns (n: nat)
    requires Stable(f.c) && DcGain(f.c, k) && eps > 0.0
    ensures forall m: nat | m >= n :: Squares(Deviations(Constant(f, x, m), k * x)) < eps
  {
    TwoSamplesSettle(f, x);
    var settled := ConstantInputConverges(Constant(f, x, 2), x, k, eps);
    n := settled + 2;
    forall m: nat | m >= n ensures Squares(Deviations(Constant(f, x, m), k * x)) < eps {
      ConstantAdds(f, x, 2, m - 2);
    }
  }
}
