/**
  The recurrence z = -a x - b y over the reals, where x and y are the last two values: a quadratic
  form that never grows along it, and, inside the stability triangle, values that tend to zero.
*/
module Decay {

  function Abs(x: real): real { if x < 0.0 then -x else x }

  /** |b| < 1 and |a| < 1 + b. */
  predicate Triangle(a: real, b: real) { Abs(b) < 1.0 && Abs(a) < 1.0 + b }

  function NextDev(a: real, b: real, x: real, y: real): real { -(a * x) - b * y }

  /** The last two values after n more. */
  function Dev(a: real, b: real, x: real, y: real, n: nat): (real, real)
    decreases n
  {
    if n == 0 then (x, y) else Dev(a, b, NextDev(a, b, x, y), x, n - 1)
  }

  function Squares(d: (real, real)): real { d.0 * d.0 + d.1 * d.1 }

  /** The Schur-Cohn form. */
  function Form(a: real, b: real, x: real, y: real): real {
    (1.0 - b * b) * (x * x + y * y) + 2.0 * a * (1.0 - b) * (x * y)
  }

  function FormAt(a: real, b: real, d: (real, real)): real { Form(a, b, d.0, d.1) }

  // ---------------------------------------------------------------- order and products

  lemma Product(x: real, y: real)
    requires x >= 0.0 && y >= 0.0
    ensures x * y >= 0.0
    ensures x > 0.0 && y > 0.0 ==> x * y > 0.0
  {
  }

  lemma Square(x: real)
    ensures x * x >= 0.0
  {
    if x >= 0.0 { Product(x, x); } else { Product(-x, -x); }
  }

  lemma Scale(x: real, y: real, z: real)
    requires z >= 0.0 && x <= y
    ensures x * z <= y * z && z * x <= z * y
    ensures z > 0.0 && x < y ==> x * z < y * z
  {
    var d := (y - x) * z;
    assert d >= 0.0;
  }

  // The products that follow have names, so that each fact about them is used as it stands.

  function Times(x: real, y: real): real { x * y }

  function Sum2(x: real, y: real): real { x * x + y * y }

  function Lost(m: real, u: real): real { m * m * (u * u) }

  function Weighted(r: real, q: real): real { r * r * q }

  function Bound(m: real, s: real, q: real): real { m * (s * q) }

  function Rate(m: real, r: real): real { m * (r * r) }

  function Room(a: real): real { 2.0 + 2.0 * (a * a) }

  function Mix(a: real, p: real, x: real, y: real): real { a * x + p * y }

  // ---------------------------------------------------------------- one step and two

  /** One step loses exactly a square. */
  lemma StepLoss(a: real, b: real, x: real, y: real)
    ensures var z := NextDev(a, b, x, y); Form(a, b, x, y) - Form(a, b, z, x) == Lost(1.0 - b, z - y)
  {
  }

  lemma LostNonnegative(m: real, u: real)
    ensures Lost(m, u) >= 0.0
  {
    Square(m);
    Square(u);
    Product(m * m, u * u);
  }

  lemma StepShrinks(a: real, b: real, x: real, y: real)
    ensures Form(a, b, NextDev(a, b, x, y), x) <= Form(a, b, x, y)
  {
    StepLoss(a, b, x, y);
    LostNonnegative(1.0 - b, NextDev(a, b, x, y) - y);
  }

  lemma FormWritten(a: real, b: real, x: real, y: real)
    ensures Form(a, b, x, y) == (1.0 - b) * ((1.0 + b + a) * (x * x + y * y) - a * ((x - y) * (x - y)))
    ensures Form(a, b, x, y) == (1.0 - b) * ((1.0 + b - a) * (x * x + y * y) + a * ((x + y) * (x + y)))
  {
  }

  /** The form lies between two multiples of the squares. */
  lemma FormBounds(a: real, b: real, x: real, y: real)
    requires Triangle(a, b)
    ensures Bound(1.0 - b, 1.0 + b - Abs(a), Sum2(x, y)) <= Form(a, b, x, y)
    ensures Form(a, b, x, y) <= Bound(1.0 - b, 1.0 + b + Abs(a), Sum2(x, y))
  {
    var m, q, s, d := 1.0 - b, x * x + y * y, (x + y) * (x + y), (x - y) * (x - y);
    FormWritten(a, b, x, y);
    Square(x + y);
    Square(x - y);
    Product(Abs(a), s);
    Product(Abs(a), d);
    if a >= 0.0 {
      Scale((1.0 + b - a) * q, (1.0 + b - a) * q + a * s, m);
      Scale((1.0 + b + a) * q - a * d, (1.0 + b + a) * q, m);
    } else {
      Scale((1.0 + b + a) * q, (1.0 + b + a) * q - a * d, m);
      Scale((1.0 + b - a) * q + a * s, (1.0 + b - a) * q, m);
    }
  }

  lemma CrossWritten(a: real, p: real, x: real, y: real)
    ensures Sum2(Mix(a, p, x, y), Mix(p, a, x, y))
         == (p - a) * (p - a) * (x * x + y * y) + 2.0 * (a * p) * ((x + y) * (x + y))
    ensures Sum2(Mix(a, p, x, y), Mix(p, a, x, y))
         == (p + a) * (p + a) * (x * x + y * y) - 2.0 * (a * p) * ((x - y) * (x - y))
  {
  }

  /** The two combinations that a step leaves cannot both be small unless x and y are. */
  lemma CrossBound(a: real, p: real, x: real, y: real)
    requires p >= 0.0
    ensures Weighted(p - Abs(a), Sum2(x, y)) <= Sum2(Mix(a, p, x, y), Mix(p, a, x, y))
  {
    CrossWritten(a, p, x, y);
    Square(x + y);
    Square(x - y);
    Product(Abs(a), p);
    Product(Abs(a) * p, (x + y) * (x + y));
    Product(Abs(a) * p, (x - y) * (x - y));
  }

  /** What the first and the second of two steps change. */
  function First(a: real, b: real, x: real, y: real): real { NextDev(a, b, x, y) - y }

  function Second(a: real, b: real, x: real, y: real): real {
    NextDev(a, b, NextDev(a, b, x, y), x) - x
  }

  lemma ChangesWritten(a: real, b: real, x: real, y: real)
    ensures var u, v, p := First(a, b, x, y), Second(a, b, x, y), 1.0 + b;
      Mix(a, p, x, y) == -u && Mix(p, a, x, y) == -Mix(1.0, a, v, u)
  {
  }

  lemma Opposite(p: real, q: real, u: real, w: real)
    requires p == -u && q == -w
    ensures Sum2(p, q) == Sum2(u, w)
  {
  }

  lemma SumSquared(a: real, u: real, v: real)
    ensures (v + a * u) * (v + a * u) + (v - a * u) * (v - a * u) == 2.0 * (v * v) + 2.0 * (a * a) * (u * u)
    ensures u * u + 2.0 * (v * v) + 2.0 * (a * a) * (u * u)
         == (2.0 + 2.0 * (a * a)) * (u * u + v * v) - u * u - 2.0 * (a * a) * (v * v)
  {
  }

  lemma SquaresBelow(a: real, u: real, v: real)
    ensures Sum2(u, Mix(1.0, a, v, u)) <= Times(Room(a), Sum2(u, v))
  {
    SumSquared(a, u, v);
    Square(v - a * u);
    Square(u);
    Square(v);
    Square(a);
    Product(a * a, v * v);
  }

  /** The squares are bounded by what two steps change. */
  lemma SquaresFromChanges(a: real, b: real, x: real, y: real)
    requires Triangle(a, b)
    ensures Weighted(1.0 + b - Abs(a), Sum2(x, y)) <= Times(Room(a), Sum2(First(a, b, x, y), Second(a, b, x, y)))
  {
    var u, v, p := First(a, b, x, y), Second(a, b, x, y), 1.0 + b;
    ChangesWritten(a, b, x, y);
    CrossBound(a, p, x, y);
    Opposite(Mix(a, p, x, y), Mix(p, a, x, y), u, Mix(1.0, a, v, u));
    SquaresBelow(a, u, v);
  }

  /** What two steps lose. */
  lemma TwoStepLoss(a: real, b: real, x: real, y: real)
    ensures Form(a, b, x, y) - FormAt(a, b, Dev(a, b, x, y, 2))
         == Lost(1.0 - b, First(a, b, x, y)) + Lost(1.0 - b, Second(a, b, x, y))
  {
    var z := NextDev(a, b, x, y);
    StepLoss(a, b, x, y);
    StepLoss(a, b, z, x);
    assert Dev(a, b, z, x, 1) == (NextDev(a, b, z, x), z);
  }

  lemma PositiveTimes(x: real, y: real, z: real)
    requires x > 0.0 && y > 0.0 && z == x * y
    ensures z > 0.0
  {
  }

  lemma RatePositive(m: real, r: real)
    requires m > 0.0 && r > 0.0
    ensures Rate(m, r) > 0.0
  {
    PositiveTimes(r, r, r * r);
    PositiveTimes(m, r * r, Rate(m, r));
  }

  lemma RoomPositive(s: real, a: real)
    requires s > 0.0
    ensures Times(s, Room(a)) > 0.0
  {
    Square(a);
    assert Room(a) > 0.0;
    Product(s, Room(a));
  }

  lemma RateRegrouped(m: real, r: real, s: real, q: real, k: real, w: real)
    ensures m * (r * r) * (m * (s * q)) == m * m * s * (r * r * q)
    ensures m * m * s * (k * w) == s * k * (m * m * w)
  {
  }

  lemma RateCore(m: real, r: real, s: real, k: real, q: real, u: real, v: real, form: real, loss: real)
    requires m > 0.0 && r > 0.0 && s > 0.0
    requires form <= Bound(m, s, q) && Weighted(r, q) <= Times(k, Sum2(u, v)) && loss == Lost(m, u) + Lost(m, v)
    ensures Times(Rate(m, r), form) <= Times(Times(s, k), loss)
  {
    var w := u * u + v * v;
    assert loss == m * m * w;
    RateChain(m, r, s, k, q, w, form);
  }

  lemma RateChain(m: real, r: real, s: real, k: real, q: real, w: real, form: real)
    requires m > 0.0 && r > 0.0 && s > 0.0 && form <= m * (s * q) && r * r * q <= k * w
    ensures m * (r * r) * form <= s * k * (m * m * w)
  {
    Product(r, r);
    Product(m, r * r);
    Scale(form, m * (s * q), m * (r * r));
    RateRegrouped(m, r, s, q, k, w);
    Product(m, m);
    Product(m * m, s);
    Scale(r * r * q, k * w, m * m * s);
  }

  /** Two steps lose at least a fixed part of the form. */
  lemma TwoStepRate(a: real, b: real, x: real, y: real)
    requires Triangle(a, b)
    ensures Times(Rate(1.0 - b, 1.0 + b - Abs(a)), Form(a, b, x, y))
         <= Times(Times(1.0 + b + Abs(a), Room(a)), Form(a, b, x, y) - FormAt(a, b, Dev(a, b, x, y, 2)))
  {
    FormBounds(a, b, x, y);
    SquaresFromChanges(a, b, x, y);
    TwoStepLoss(a, b, x, y);
    RateCore(1.0 - b, 1.0 + b - Abs(a), 1.0 + b + Abs(a), Room(a), Sum2(x, y), First(a, b, x, y), Second(a, b, x, y),
             Form(a, b, x, y), Form(a, b, x, y) - FormAt(a, b, Dev(a, b, x, y, 2)));
  }

  // ---------------------------------------------------------------- many steps

  lemma {:induction false} DevAdds(a: real, b: real, x: real, y: real, n: nat, m: nat)
    ensures var d := Dev(a, b, x, y, n); Dev(a, b, x, y, n + m) == Dev(a, b, d.0, d.1, m)
    decreases n
  {
    if n == 0 {
    } else {
      DevAdds(a, b, NextDev(a, b, x, y), x, n - 1, m);
    }
  }

  lemma {:induction false} FormFalls(a: real, b: real, x: real, y: real, n: nat)
    ensures FormAt(a, b, Dev(a, b, x, y, n)) <= Form(a, b, x, y)
    decreases n
  {
    if n == 0 {
    } else {
      StepShrinks(a, b, x, y);
      FormFalls(a, b, NextDev(a, b, x, y), x, n - 1);
    }
  }

  lemma FormNonnegative(a: real, b: real, x: real, y: real)
    requires Triangle(a, b)
    ensures Form(a, b, x, y) >= 0.0
  {
    FormBounds(a, b, x, y);
    BoundNonnegative(1.0 - b, 1.0 + b - Abs(a), x, y);
  }

  lemma BoundNonnegative(m: real, r: real, x: real, y: real)
    requires m >= 0.0 && r >= 0.0
    ensures Bound(m, r, Sum2(x, y)) >= 0.0
  {
    Square(x);
    Square(y);
    Product(r, Sum2(x, y));
    Product(m, r * Sum2(x, y));
  }

  lemma Accumulate(rate: real, slack: real, eps: real, n: real, before: real, middle: real, after: real)
    requires Times(n, Times(rate, eps)) <= Times(slack, before - middle) && rate > 0.0 && eps <= middle
    requires Times(rate, middle) <= Times(slack, middle - after)
    ensures Times(n + 1.0, Times(rate, eps)) <= Times(slack, before - after)
  {
    Scale(eps, middle, rate);
  }

  /** Two steps from the values d. */
  predicate Takes(a: real, b: real, rate: real, slack: real, d: (real, real)) {
    Times(rate, FormAt(a, b, d)) <= Times(slack, FormAt(a, b, d) - FormAt(a, b, Dev(a, b, d.0, d.1, 2)))
  }

  lemma TakesTheRate(a: real, b: real, d: (real, real))
    requires Triangle(a, b)
    ensures Takes(a, b, Rate(1.0 - b, 1.0 + b - Abs(a)), Times(1.0 + b + Abs(a), Room(a)), d)
  {
    TwoStepRate(a, b, d.0, d.1);
  }

  /** While the form is at least eps, every two steps take their part of eps. */
  lemma {:induction false} StillLarge(a: real, b: real, x: real, y: real, rate: real, slack: real, eps: real, n: nat)
    requires rate > 0.0 && (forall d :: Takes(a, b, rate, slack, d))
    requires FormAt(a, b, Dev(a, b, x, y, 2 * n)) >= eps
    ensures Times(n as real, Times(rate, eps))
         <= Times(slack, FormAt(a, b, (x, y)) - FormAt(a, b, Dev(a, b, x, y, 2 * n)))
  {
    if n == 0 {
    } else {
      var k: nat := 2 * (n - 1);
      var d := Dev(a, b, x, y, k);
      DevAdds(a, b, x, y, k, 2);
      FormFalls(a, b, d.0, d.1, 2);
      StillLarge(a, b, x, y, rate, slack, eps, n - 1);
      assert Takes(a, b, rate, slack, d);
      var next := FormAt(a, b, Dev(a, b, d.0, d.1, 2));
      Accumulate(rate, slack, eps, (n - 1) as real, FormAt(a, b, (x, y)), FormAt(a, b, d), next);
    }
  }

  /** Some multiple of a positive number exceeds any other. */
  lemma Exceed(step: real, total: real) returns (n: nat)
    requires step > 0.0 && total >= 0.0
    ensures Times(n as real, step) > total
  {
    var q := total / step;
    n := q.Floor + 1;
    assert q * step == total;
    MoreSteps(q, n as real, step, total);
  }

  lemma MoreSteps(q: real, n: real, step: real, total: real)
    requires q < n && step > 0.0 && q * step == total
    ensures Times(n, step) > total
  {
    Scale(q, n, step);
  }

  /** So it does not stay so. */
  lemma FormVanishesAt(a: real, b: real, x: real, y: real, rate: real, slack: real, eps: real) returns (n: nat)
    requires rate > 0.0 && slack > 0.0 && eps > 0.0 && (forall d :: Takes(a, b, rate, slack, d))
    requires forall z, w :: Form(a, b, z, w) >= 0.0
    ensures FormAt(a, b, Dev(a, b, x, y, 2 * n)) < eps
  {
    var form := FormAt(a, b, (x, y));
    Product(rate, eps);
    Product(slack, form);
    n := Exceed(Times(rate, eps), Times(slack, form));
    var later := FormAt(a, b, Dev(a, b, x, y, 2 * n));
    if later >= eps {
      StillLarge(a, b, x, y, rate, slack, eps, n);
      LessLeft(slack, form, later);
    }
  }

  lemma LessLeft(slack: real, before: real, after: real)
    requires slack > 0.0 && after >= 0.0
    ensures Times(slack, before - after) <= Times(slack, before)
  {
    Scale(before - after, before, slack);
  }

  lemma FormVanishes(a: real, b: real, x: real, y: real, eps: real) returns (n: nat)
    requires Triangle(a, b) && eps > 0.0
    ensures forall k: nat | k >= n :: FormAt(a, b, Dev(a, b, x, y, k)) < eps
  {
    var rate, slack := Rate(1.0 - b, 1.0 + b - Abs(a)), Times(1.0 + b + Abs(a), Room(a));
    RatePositive(1.0 - b, 1.0 + b - Abs(a));
    RoomPositive(1.0 + b + Abs(a), a);
    forall d ensures Takes(a, b, rate, slack, d) { TakesTheRate(a, b, d); }
    forall z, w ensures Form(a, b, z, w) >= 0.0 { FormNonnegative(a, b, z, w); }
    var half := FormVanishesAt(a, b, x, y, rate, slack, eps);
    n := 2 * half;
    forall k: nat | k >= n ensures FormAt(a, b, Dev(a, b, x, y, k)) < eps {
      var d := Dev(a, b, x, y, n);
      DevAdds(a, b, x, y, n, k - n);
      FormFalls(a, b, d.0, d.1, k - n);
    }
  }

  lemma BoundWritten(m: real, r: real, q: real)
    ensures Bound(m, r, q) == Times(Times(m, r), q)
  {
  }

  lemma BelowBound(t: real, q: real, eps: real)
    requires t > 0.0 && Times(t, q) < Times(t, eps)
    ensures q < eps
  {
    if q >= eps { Scale(eps, q, t); }
  }

  /** Inside the triangle the values tend to zero: both poles lie inside the unit circle. */
  lemma DevVanishes(a: real, b: real, x: real, y: real, eps: real) returns (n: nat)
    requires Triangle(a, b) && eps > 0.0
    ensures forall k: nat | k >= n :: Squares(Dev(a, b, x, y, k)) < eps
  {
    var m, r := 1.0 - b, 1.0 + b - Abs(a);
    Product(m, r);
    Product(Times(m, r), eps);
    n := FormVanishes(a, b, x, y, Times(Times(m, r), eps));
    forall k: nat | k >= n ensures Squares(Dev(a, b, x, y, k)) < eps {
      var d := Dev(a, b, x, y, k);
      FormBounds(a, b, d.0, d.1);
      BoundWritten(m, r, Sum2(d.0, d.1));
      BelowBound(Times(m, r), Sum2(d.0, d.1), eps);
    }
  }
}
