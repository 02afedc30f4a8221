/** The two shelves at their own frequency, half way between the two gains. */
module Shelves {
  import opened Decay
  import opened Filters
  import opened Tones

  /** `Response` for coefficients that are still to be divided by a0, and an answer still to be divided by s. */
  predicate Scaled(b0: real, b1: real, b2: real, a0: real, a1: real, a2: real, c: real, p: real, q: real, s: real) {
    && s * (2.0 * c * b0 + b1) == p * (2.0 * c * a0 + a1) + q * (a0 - a2)
    && s * (b2 - b0) == p * (a2 - a0) + q * (a1 + 2.0 * c * a2)
  }

  lemma NormalisedResponse(b0: real, b1: real, b2: real, a0: real, a1: real, a2: real,
                           c: real, p: real, q: real, s: real)
    requires a0 > 0.0 && s > 0.0 && Scaled(b0, b1, b2, a0, a1, a2, c, p, q, s)
    ensures Response(Normalised(b0, b1, b2, a0, a1, a2), c, p * (1.0 / s), q * (1.0 / s))
  {
    var i, j := 1.0 / a0, 1.0 / s;
    assert a0 * i == 1.0 && s * j == 1.0;
    FirstDivided(b0, b1, a0, a1, a2, c, p, q, s, i, j);
    SecondDivided(b0, b2, a0, a1, a2, c, p, q, s, i, j);
  }

  lemma FirstDivided(b0: real, b1: real, a0: real, a1: real, a2: real, c: real,
                     p: real, q: real, s: real, i: real, j: real)
    requires a0 * i == 1.0 && s * j == 1.0
    requires s * (2.0 * c * b0 + b1) == p * (2.0 * c * a0 + a1) + q * (a0 - a2)
    ensures 2.0 * c * (b0 * i) + b1 * i
         == 2.0 * c * (p * j) + q * j + a1 * i * (p * j) - a2 * i * (q * j)
  {
    calc {
      2.0 * c * (b0 * i) + b1 * i;
      (s * j) * (2.0 * c * (b0 * i) + b1 * i);
      (s * (2.0 * c * b0 + b1)) * (i * j);
      (p * (2.0 * c * a0 + a1) + q * (a0 - a2)) * (i * j);
      2.0 * c * (p * j) * (a0 * i) + q * j * (a0 * i) + a1 * i * (p * j) - a2 * i * (q * j);
    }
  }

  lemma SecondDivided(b0: real, b2: real, a0: real, a1: real, a2: real, c: real,
                      p: real, q: real, s: real, i: real, j: real)
    requires a0 * i == 1.0 && s * j == 1.0
    requires s * (b2 - b0) == p * (a2 - a0) + q * (a1 + 2.0 * c * a2)
    ensures b2 * i - b0 * i == a2 * i * (p * j) - p * j + a1 * i * (q * j) + 2.0 * c * (a2 * i * (q * j))
  {
    calc {
      b2 * i - b0 * i;
      (s * j) * (b2 * i - b0 * i);
      (s * (b2 - b0)) * (i * j);
      (p * (a2 - a0) + q * (a1 + 2.0 * c * a2)) * (i * j);
      a2 * i * (p * j) - p * j * (a0 * i) + a1 * i * (q * j) + 2.0 * c * (a2 * i * (q * j));
    }
  }

  /** What both shelves have at their frequency: k is g - 1 or its negative, m is 2 r alpha. */
  lemma MiddleTerms(g: real, c: real, k: real, d: real, e: real, m: real) returns (p: real, q: real, s: real)
    requires d == k * (1.0 - c * c) && e == k * d && e >= 0.0 && m > 0.0
    ensures s > 0.0
    ensures s * (2.0 * g * d + 2.0 * c * (g * m)) == p * (2.0 * c * m - 2.0 * d) + q * (2.0 * m)
    ensures s * (-2.0 * (g * m)) == p * (-2.0 * m) + q * (-2.0 * d - 2.0 * c * m)
    ensures PowerGain(c, p, q) == g * g * (s * s)
  {
    TimesPositive(m, m);
    p, q, s := MiddleAnswer(g, c, k, d, e, m);
  }

  lemma TimesPositive(x: real, y: real)
    requires x > 0.0 && y > 0.0
    ensures Times(x, y) > 0.0
  {
  }

  lemma MiddleAnswer(g: real, c: real, k: real, d: real, e: real, m: real) returns (p: real, q: real, s: real)
    requires d == k * (1.0 - c * c) && e == k * d
    ensures s == e + Times(m, m)
    ensures s * (2.0 * g * d + 2.0 * c * (g * m)) == p * (2.0 * c * m - 2.0 * d) + q * (2.0 * m)
    ensures s * (-2.0 * (g * m)) == p * (-2.0 * m) + q * (-2.0 * d - 2.0 * c * m)
    ensures PowerGain(c, p, q) == g * g * (s * s)
  {
    q := 2.0 * g * k * m;
    p, s := -(g * (k * d - m * m)) - q * c, k * d + m * m;
  }

  lemma DividedGain(c: real, p: real, q: real, s: real, g: real)
    requires s > 0.0 && PowerGain(c, p, q) == g * g * (s * s)
    ensures PowerGain(c, p * (1.0 / s), q * (1.0 / s)) == g * g
  {
    var j := 1.0 / s;
    assert s * j == 1.0;
    calc {
      PowerGain(c, p * j, q * j);
      PowerGain(c, p, q) * (j * j);
      g * g * (s * s) * (j * j);
      g * g * ((s * j) * (s * j));
    }
  }

  lemma ShelfMiddle(g: real, x: real, y: real, u: real, v: real, m: real, c: real, k: real, d: real,
                   e: real)
    returns (p: real, q: real)
    requires m > 0.0 && u + m > 0.0 && d == k * (1.0 - c * c) && e == k * d && e >= 0.0
    requires c * x + y == d && c * u - v == -d
    ensures Response(Shelf(g, x, y, u, v, m), c, p, q) && PowerGain(c, p, q) == g * g
  {
    var s;
    p, q, s := MiddleTerms(g, c, k, d, e, m);
    MiddleScaled(g, x, y, u, v, m, c, d, p, q, s);
    ShelfResponse(g, x, y, u, v, m, c, p, q, s);
    DividedGain(c, p, q, s, g);
    p, q := p * (1.0 / s), q * (1.0 / s);
  }

  lemma ShelfResponse(g: real, x: real, y: real, u: real, v: real, m: real, c: real, p: real, q: real, s: real)
    requires u + m > 0.0 && s > 0.0
    requires Scaled(g * (x + m), 2.0 * g * y, g * (x - m), u + m, -2.0 * v, u - m, c, p, q, s)
    ensures Response(Shelf(g, x, y, u, v, m), c, p * (1.0 / s), q * (1.0 / s))
  {
    NormalisedResponse(g * (x + m), 2.0 * g * y, g * (x - m), u + m, -2.0 * v, u - m, c, p, q, s);
  }

  lemma MiddleScaled(g: real, x: real, y: real, u: real, v: real, m: real, c: real, d: real, p: real, q: real, s: real)
    requires c * x + y == d && c * u - v == -d
    requires s * (2.0 * g * d + 2.0 * c * (g * m)) == p * (2.0 * c * m - 2.0 * d) + q * (2.0 * m)
    requires s * (-2.0 * (g * m)) == p * (-2.0 * m) + q * (-2.0 * d - 2.0 * c * m)
    ensures Scaled(g * (x + m), 2.0 * g * y, g * (x - m), u + m, -2.0 * v, u - m, c, p, q, s)
  {
    assert 2.0 * c * (g * (x + m)) + 2.0 * g * y == 2.0 * g * (c * x + y) + 2.0 * c * (g * m);
    assert 2.0 * c * (u + m) + -2.0 * v == 2.0 * c * m - 2.0 * d;
    assert -2.0 * v + 2.0 * c * (u - m) == -2.0 * d - 2.0 * c * m;
    assert g * (x - m) - g * (x + m) == -2.0 * (g * m);
  }

  /** The poles: how steep the shelf is, and where. */
  lemma ShelfSlope(g: real, x: real, y: real, u: real, v: real, m: real)
    requires u + m > 0.0
    ensures var k := Shelf(g, x, y, u, v, m); (1.0 - k.a2) * u == m * (1.0 + k.a2) && k.a1 * u == -v * (1.0 + k.a2)
  {
    var i := 1.0 / (u + m);
    assert (u + m) * i == 1.0;
    assert 1.0 - (u - m) * i == 2.0 * (m * i) && 1.0 + (u - m) * i == 2.0 * (u * i);
    assert -2.0 * v * i * u == -v * (2.0 * (u * i));
  }

  lemma MiddleSign(k: real, c: real)
    requires -1.0 < c < 1.0
    ensures k * (k * (1.0 - c * c)) >= 0.0
  {
    assert 1.0 - c * c == (1.0 - c) * (1.0 + c);
    Product(1.0 - c, 1.0 + c);
    Square(k);
    Product(k * k, 1.0 - c * c);
    assert k * (k * (1.0 - c * c)) == k * k * (1.0 - c * c);
  }

  /** At its own frequency a low shelf multiplies a tone by g, half of its gain in dB; alpha sets the slope. */
  lemma LowShelfTone(g: real, r: real, alpha: real, cosW: real) returns (p: real, q: real)
    requires Params(g, r, alpha, cosW)
    ensures Response(LowShelf(g, r, alpha, cosW), cosW, p, q) && PowerGain(cosW, p, q) == g * g
    ensures var k, u := LowShelf(g, r, alpha, cosW), (g + 1.0) + (g - 1.0) * cosW;
      && (1.0 - k.a2) * u == 2.0 * r * alpha * (1.0 + k.a2)
      && k.a1 * u == -((g - 1.0) + (g + 1.0) * cosW) * (1.0 + k.a2)
  {
    var x, y := (g + 1.0) - (g - 1.0) * cosW, (g - 1.0) - (g + 1.0) * cosW;
    var u, v, m := (g + 1.0) + (g - 1.0) * cosW, (g - 1.0) + (g + 1.0) * cosW, 2.0 * r * alpha;
    var k := g - 1.0;
    var d := k * (1.0 - cosW * cosW);
    ShelfPositive(g, r, alpha, cosW);
    MiddleSign(k, cosW);
    LowMiddle(g, cosW);
    p, q := ShelfMiddle(g, x, y, u, v, m, cosW, k, d, k * d);
    ShelfSlope(g, x, y, u, v, m);
  }

  lemma LowMiddle(g: real, c: real)
    ensures c * ((g + 1.0) - (g - 1.0) * c) + ((g - 1.0) - (g + 1.0) * c) == (g - 1.0) * (1.0 - c * c)
    ensures c * ((g + 1.0) + (g - 1.0) * c) - ((g - 1.0) + (g + 1.0) * c) == -((g - 1.0) * (1.0 - c * c))
  {
  }

  lemma HighShelfTone(g: real, r: real, alpha: real, cosW: real) returns (p: real, q: real)
    requires Params(g, r, alpha, cosW)
    ensures Response(HighShelf(g, r, alpha, cosW), cosW, p, q) && PowerGain(cosW, p, q) == g * g
    ensures var k, u := HighShelf(g, r, alpha, cosW), (g + 1.0) - (g - 1.0) * cosW;
      && (1.0 - k.a2) * u == 2.0 * r * alpha * (1.0 + k.a2)
      && k.a1 * u == ((g - 1.0) - (g + 1.0) * cosW) * (1.0 + k.a2)
  {
    var x, y := (g + 1.0) + (g - 1.0) * cosW, -((g - 1.0) + (g + 1.0) * cosW);
    var u, v, m := (g + 1.0) - (g - 1.0) * cosW, -((g - 1.0) - (g + 1.0) * cosW), 2.0 * r * alpha;
    var k := 1.0 - g;
    var d := k * (1.0 - cosW * cosW);
    ShelfPositive(g, r, alpha, cosW);
    MiddleSign(k, cosW);
    HighMiddle(g, cosW);
    p, q := ShelfMiddle(g, x, y, u, v, m, cosW, k, d, k * d);
    ShelfSlope(g, x, y, u, v, m);
  }

  lemma HighMiddle(g: real, c: real)
    ensures c * ((g + 1.0) + (g - 1.0) * c) + -((g - 1.0) + (g + 1.0) * c) == (1.0 - g) * (1.0 - c * c)
    ensures c * ((g + 1.0) - (g - 1.0) * c) - -((g - 1.0) - (g + 1.0) * c) == -((1.0 - g) * (1.0 - c * c))
  {
  }
}
