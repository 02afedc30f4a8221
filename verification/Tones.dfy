/**
  Filters fed a tone, that is a sampled sinusoid: x(n) = 2 cosW x(n-1) - x(n-2), of whatever amplitude
  and phase. A stable filter answers every tone with a tone of the same frequency.
*/
module Tones {
  import opened Decay
  import opened Filters

  /** The sample after x on a tone, where y was the one before; and the other way round. */
  function After(cosW: real, x: real, y: real): real { 2.0 * cosW * x - y }

  lemma AfterTwice(cosW: real, x: real, y: real)
    ensures After(cosW, x, After(cosW, x, y)) == y
  {
  }

  /** The next sample of the tone that the last two inputs are on. */
  function NextTone(f: Biquad, cosW: real): real { After(cosW, f.x1, f.x2) }

  function Answer(p: real, q: real, x: real, y: real): real { p * x + q * y }

  /** The filter after n more samples of that tone. */
  function Played(f: Biquad, cosW: real, n: nat): Biquad
    decreases n
  {
    if n == 0 then f else Played(Shift(f, NextTone(f, cosW)), cosW, n - 1)
  }

  /** The filter's answer to the tone x(n) is p x(n) + q x(n-1). */
  predicate Response(k: Coefs, cosW: real, p: real, q: real) {
    && 2.0 * cosW * k.b0 + k.b1 == 2.0 * cosW * p + q + k.a1 * p - k.a2 * q
    && k.b2 - k.b0 == k.a2 * p - p + k.a1 * q + 2.0 * cosW * (k.a2 * q)
  }

  /** What the last two outputs differ by from the answer; the tone is continued one sample backwards. */
  function Errors(f: Biquad, cosW: real, p: real, q: real): (real, real) {
    (f.y1 - Answer(p, q, f.x1, f.x2), f.y2 - Answer(p, q, f.x2, After(cosW, f.x2, f.x1)))
  }

  /** The square of a tone's amplitude, but for a factor that depends on its frequency only. */
  function Power(cosW: real, x: real, y: real): real { x * x - 2.0 * cosW * (x * y) + y * y }

  /** The square of the gain of such an answer. */
  function PowerGain(cosW: real, p: real, q: real): real { p * p + 2.0 * cosW * (p * q) + q * q }

  /** A tone keeps its amplitude, and the answer has it times the gain. */
  lemma PowerOfTone(cosW: real, x: real, y: real, p: real, q: real)
    ensures Power(cosW, After(cosW, x, y), x) == Power(cosW, x, y)
    ensures Power(cosW, Answer(p, q, x, y), Answer(p, q, y, After(cosW, y, x)))
         == PowerGain(cosW, p, q) * Power(cosW, x, y)
  {
  }

  /** The part of an output that comes of the inputs. */
  function Inputs(k: Coefs, x: real, x1: real, x2: real): real { k.b0 * x + k.b1 * x1 + k.b2 * x2 }

  lemma AnswerStep(k: Coefs, cosW: real, p: real, q: real, x: real, y: real)
    requires Response(k, cosW, p, q)
    ensures Inputs(k, After(cosW, x, y), x, y)
         == Answer(p, q, After(cosW, x, y), x) + k.a1 * Answer(p, q, x, y) + k.a2 * Answer(p, q, y, After(cosW, y, x))
  {
    var u, v := 2.0 * cosW * k.b0 + k.b1, k.b2 - k.b0;
    InputsSplit(k, cosW, x, y, u, v);
    AnswerSplits(k.a1, k.a2, cosW, p, q, x, y, u, v);
  }

  lemma InputsSplit(k: Coefs, c: real, x: real, y: real, u: real, v: real)
    requires u == 2.0 * c * k.b0 + k.b1 && v == k.b2 - k.b0
    ensures Inputs(k, After(c, x, y), x, y) == Answer(u, v, x, y)
  {
  }

  lemma AnswerSplits(a1: real, a2: real, c: real, p: real, q: real, x: real, y: real, u: real, v: real)
    requires u == 2.0 * c * p + q + a1 * p - a2 * q && v == a2 * p - p + a1 * q + 2.0 * c * (a2 * q)
    ensures Answer(p, q, After(c, x, y), x) + a1 * Answer(p, q, x, y) + a2 * Answer(p, q, y, After(c, y, x))
         == Answer(u, v, x, y)
  {
    AnswerTerms(a1, a2, c, p, q, x, y);
    Substitute(u, 2.0 * c * p + q + a1 * p - a2 * q, v, a2 * p - p + a1 * q + 2.0 * c * (a2 * q), x, y);
  }

  lemma AnswerTerms(a1: real, a2: real, c: real, p: real, q: real, x: real, y: real)
    ensures Answer(p, q, After(c, x, y), x) + a1 * Answer(p, q, x, y) + a2 * Answer(p, q, y, After(c, y, x))
         == Answer(2.0 * c * p + q + a1 * p - a2 * q, a2 * p - p + a1 * q + 2.0 * c * (a2 * q), x, y)
  {
  }

  lemma Substitute(u: real, u': real, v: real, v': real, x: real, y: real)
    requires u == u' && v == v'
    ensures Answer(u, v, x, y) == Answer(u', v', x, y)
  {
  }

  lemma OutputError(f: Biquad, z: real, r: real, s: real, t: real)
    requires Inputs(f.c, z, f.x1, f.x2) == r + f.c.a1 * s + f.c.a2 * t
    ensures Output(f, z) - r == NextDev(f.c.a1, f.c.a2, f.y1 - s, f.y2 - t)
  {
    assert f.c.a1 * (f.y1 - s) == f.c.a1 * f.y1 - f.c.a1 * s;
    assert f.c.a2 * (f.y2 - t) == f.c.a2 * f.y2 - f.c.a2 * t;
  }

  /** The errors when the tone is y, x, z backwards from the last input. */
  lemma ErrorsOf(h: Biquad, cosW: real, p: real, q: real, z: real, x: real, y: real)
    requires h.x1 == z && h.x2 == x && After(cosW, x, z) == y
    ensures Errors(h, cosW, p, q) == (h.y1 - Answer(p, q, z, x), h.y2 - Answer(p, q, x, y))
  {
  }

  /** The errors obey the homogeneous recurrence. */
  lemma ErrorStep(f: Biquad, cosW: real, p: real, q: real)
    requires Response(f.c, cosW, p, q)
    ensures var e := Errors(f, cosW, p, q);
      Errors(Shift(f, NextTone(f, cosW)), cosW, p, q) == (NextDev(f.c.a1, f.c.a2, e.0, e.1), e.0)
  {
    AnswerStep(f.c, cosW, p, q, f.x1, f.x2);
    AfterTwice(cosW, f.x1, f.x2);
    ErrorsNext(f, cosW, p, q, NextTone(f, cosW), After(cosW, f.x2, f.x1),
               Answer(p, q, NextTone(f, cosW), f.x1), Answer(p, q, f.x1, f.x2));
  }

  lemma ErrorsNext(f: Biquad, cosW: real, p: real, q: real, z: real, y: real, r: real, s: real)
    requires After(cosW, f.x1, z) == f.x2 && After(cosW, f.x2, f.x1) == y
    requires r == Answer(p, q, z, f.x1) && s == Answer(p, q, f.x1, f.x2)
    requires Inputs(f.c, z, f.x1, f.x2) == r + f.c.a1 * s + f.c.a2 * Answer(p, q, f.x2, y)
    ensures var e := Errors(f, cosW, p, q); Errors(Shift(f, z), cosW, p, q) == (NextDev(f.c.a1, f.c.a2, e.0, e.1), e.0)
  {
    ErrorsOf(f, cosW, p, q, f.x1, f.x2, y);
    ErrorsOf(Shift(f, z), cosW, p, q, z, f.x1, f.x2);
    SameErrors(f, z, r, s, Answer(p, q, f.x2, y), Errors(f, cosW, p, q), Errors(Shift(f, z), cosW, p, q));
  }

  lemma SameErrors(f: Biquad, z: real, r: real, s: real, t: real, e: (real, real), e': (real, real))
    requires Inputs(f.c, z, f.x1, f.x2) == r + f.c.a1 * s + f.c.a2 * t
    requires e == (f.y1 - s, f.y2 - t) && e' == (Output(f, z) - r, f.y1 - s)
    ensures e' == (NextDev(f.c.a1, f.c.a2, e.0, e.1), e.0)
  {
    OutputError(f, z, r, s, t);
  }

  lemma {:induction false} ErrorsOverRun(f: Biquad, cosW: real, p: real, q: real, n: nat)
    requires Response(f.c, cosW, p, q)
    ensures var e := Errors(f, cosW, p, q);
      Errors(Played(f, cosW, n), cosW, p, q) == Dev(f.c.a1, f.c.a2, e.0, e.1, n)
    decreases n
  {
    if n > 0 {
      ErrorStep(f, cosW, p, q);
      ErrorsOverRun(Shift(f, NextTone(f, cosW)), cosW, p, q, n - 1);
    }
  }

  /**
    From any history, a stable filter fed a tone tends to its answer: from some moment on the last two
    outputs differ from it by less than any bound.
  */
  lemma ToneConverges(f: Biquad, cosW: real, p: real, q: real, eps: real) returns (n: nat)
    requires Stable(f.c) && Response(f.c, cosW, p, q) && eps > 0.0
    ensures forall m: nat | m >= n :: Squares(Errors(Played(f, cosW, m), cosW, p, q)) < eps
  {
    var e := Errors(f, cosW, p, q);
    n := DevVanishes(f.c.a1, f.c.a2, e.0, e.1, eps);
    forall m: nat | m >= n ensures Squares(Errors(Played(f, cosW, m), cosW, p, q)) < eps {
      ErrorsOverRun(f, cosW, p, q, m);
    }
  }

  // ---------------------------------------------------------------- the peaking filter

  /** At its own frequency a peaking filter multiplies by g squared; alpha sets how wide it is. */
  lemma PeakingTone(g: real, alpha: real, cosW: real)
    requires g > 0.0 && alpha > 0.0
    ensures Response(Peaking(g, alpha, cosW), cosW, g * g, 0.0)
    ensures var k := Peaking(g, alpha, cosW); (1.0 - k.a2) * g == alpha * (1.0 + k.a2)
  {
    var q := alpha / g;
    assert q > 0.0 && q * g == alpha;
    var i := 1.0 / (1.0 + q);
    assert (1.0 + q) * i == 1.0;
    var k := Peaking(g, alpha, cosW);
    PeakingTerms(g, q, i, alpha, cosW);
    assert k == Coefs((1.0 + alpha * g) * i, -2.0 * cosW * i, (1.0 - alpha * g) * i, -2.0 * cosW * i, (1.0 - q) * i);
  }

  lemma PeakingTerms(g: real, q: real, i: real, alpha: real, cosW: real)
    requires q * g == alpha && (1.0 + q) * i == 1.0
    ensures (1.0 - alpha * g) * i - (1.0 + alpha * g) * i == (1.0 - q) * i * (g * g) - g * g
    ensures 2.0 * cosW * ((1.0 + alpha * g) * i) + -2.0 * cosW * i
         == 2.0 * cosW * (g * g) + -2.0 * cosW * i * (g * g)
    ensures (1.0 - (1.0 - q) * i) * g == alpha * (1.0 + (1.0 - q) * i)
  {
    var s, t := q * i, g * g;
    assert i == 1.0 - s;
    assert alpha * g * i == s * t;
    assert alpha * i == s * g;
  }

  /** The last output is the last input times k, but for an error whose square is below the bound. */
  predicate Near(h: Biquad, k: real, eps: real) { (h.y1 - k * h.x1) * (h.y1 - k * h.x1) < eps }

  lemma ScaledError(h: Biquad, cosW: real, k: real, eps: real)
    requires Squares(Errors(h, cosW, k, 0.0)) < eps
    ensures Near(h, k, eps)
  {
    var e := Errors(h, cosW, k, 0.0);
    assert e.0 == h.y1 - k * h.x1;
    Square(e.1);
  }

  lemma ScaledConverges(f: Biquad, cosW: real, k: real, eps: real) returns (n: nat)
    requires Stable(f.c) && Response(f.c, cosW, k, 0.0) && eps > 0.0
    ensures forall m: nat | m >= n :: Near(Played(f, cosW, m), k, eps)
  {
    n := ToneConverges(f, cosW, k, 0.0, eps);
    forall m: nat | m >= n ensures Near(Played(f, cosW, m), k, eps) {
      ScaledError(Played(f, cosW, m), cosW, k, eps);
    }
  }

  /** So a band set to +12 dB raises a tone of its frequency by 12 dB, and one set to -12 dB lowers it. */
  lemma CentreConverges(f: Biquad, g: real, alpha: real, cosW: real, eps: real) returns (n: nat)
    requires g > 0.0 && alpha > 0.0 && -1.0 < cosW < 1.0 && f.c == Peaking(g, alpha, cosW) && eps > 0.0
    ensures forall m: nat | m >= n :: Near(Played(f, cosW, m), g * g, eps)
  {
    PeakingFilter(g, alpha, cosW);
    PeakingTone(g, alpha, cosW);
    n := ScaledConverges(f, cosW, g * g, eps);
  }
}
