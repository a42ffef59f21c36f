/** The integer curve against the real one: a calculus for what truncating arithmetic can be away from the exact value,
    and what it makes of a root the solver stops at. */
module Rounding {
  import opened Arith
  import opened Reals
  import opened Newton
  import CurveShape

  // ----- Approximation, one operation at a time -----

  predicate Near(q: real, x: real, e: real) { x - e <= q <= x + e }

  function Size(x: real): real { if x >= 0.0 then x else -x }

  lemma NearScaled(k: real, q: real, x: real, e: real)
    requires Near(q, x, e)
    ensures Near(Mul(k, q), Mul(k, x), Mul(Size(k), e))
  {
    MulAdds(x, e, k);
    MulAdds(x, e, -k);
    hide Mul;
    if k >= 0.0 {
      MulMonotoneReal(k, x - e, q);
      MulMonotoneReal(k, q, x + e);
    } else {
      MulMonotoneReal(-k, x - e, q);
      MulMonotoneReal(-k, q, x + e);
      MulSign(k, q);
      MulSign(k, x);
    }
  }

  /** A product of two approximations, the second exact value and the first approximation bounded. */
  lemma NearProduct(q: real, x: real, e: real, r: real, y: real, f: real, qBound: real, yBound: real)
    requires Near(q, x, e) && Near(r, y, f) && Size(q) <= qBound && Size(y) <= yBound && e >= 0.0 && f >= 0.0
    ensures Near(Mul(q, r), Mul(x, y), Mul(e, yBound) + Mul(f, qBound))
  {
    hide Mul;
    NearScaled(y, q, x, e);
    NearScaled(q, r, y, f);
    MulMonotoneReal(f, Size(q), qBound);
    MulMonotoneReal(e, Size(y), yBound);
    MulCommutes(q, y);
    MulCommutes(x, y);
    MulCommutes(Size(y), e);
    MulCommutes(Size(q), f);
  }

  lemma NearOver(q: real, x: real, e: real, d: real)
    requires d > 0.0 && Near(q, x, e)
    ensures Near(Over(q, d), Over(x, d), Over(e, d))
  {
    OverMonotone(x - e, q, d);
    OverMonotone(q, x + e, d);
    OverAdds(x, e, d);
    hide Over;
  }

  /** Truncating loses less than a unit. */
  lemma TruncNear(n: int, d: int)
    requires d > 0
    ensures Near(TruncDiv(n, d) as real, Over(n as real, d as real), 1.0)
  {
    TruncDivBounds(n, d);
    RatioIsOver(n, d);
    if n >= 0 {
      RatioBetween(n, d, TruncDiv(n, d));
    } else {
      RatioIsOver(-n, d);
      OverTimes(-1.0, n as real, d as real);
      RatioBetween(-n, d, -TruncDiv(n, d));
    }
    hide TruncDiv, Ratio, Over;
  }

  lemma TruncScaled(n: int, d: int, x: real, e: real)
    requires d > 0 && Near(n as real, x, e)
    ensures Near(TruncDiv(n, d) as real, Over(x, d as real), Over(e, d as real) + 1.0)
  {
    hide TruncDiv, Over;
    TruncNear(n, d);
    NearOver(n as real, x, e, d as real);
  }

  /** Truncating by a divisor that is itself rounded down: v below W by less than one. */
  lemma TruncRounded(n: int, v: int, W: real, x: real, e: real, bound: real)
    requires v > 0 && v as real <= W < v as real + 1.0 && Near(n as real, x, e) && Size(x) <= bound
    ensures Near(TruncDiv(n, v) as real, Over(x, W), Over(e + Over(bound, W), v as real) + 1.0)
  {
    hide TruncDiv, Over;
    TruncScaled(n, v, x, e);
    DivisorMoved(x, v as real, W, bound);
    OverAdds(e, Over(bound, W), v as real);
  }

  lemma DivisorMoved(x: real, v: real, W: real, bound: real)
    requires 0.0 < v <= W < v + 1.0 && Size(x) <= bound
    ensures Near(Over(x, v), Over(x, W), Over(Over(bound, W), v))
  {
    Cancel(x, W);
    Cancel(x, v);
    hide Over;
    var g, h, b := Over(x, W), Over(x, v), Over(bound, W);
    OverSize(x, bound, W);
    GapWithin(g, W - v, b);
    assert (h - g) * v == Mul(g, W - v) by {
      assert g * (W - v) == g * W - g * v && (h - g) * v == h * v - g * v;
    }
    OverIs(h - g, Mul(g, W - v), v);
    OverSize(Mul(g, W - v), b, v);
  }

  lemma OverSize(x: real, bound: real, d: real)
    requires d > 0.0 && Size(x) <= bound
    ensures Size(Over(x, d)) <= Over(bound, d)
  {
    OverMonotone(x, bound, d);
    OverMonotone(-x, bound, d);
    OverTimes(-1.0, x, d);
    hide Over;
  }

  lemma GapWithin(g: real, t: real, b: real)
    requires 0.0 <= t <= 1.0 && Size(g) <= b
    ensures Size(Mul(g, t)) <= b
  {
    hide Mul;
    MulSign(g, t);
    MulSign(-g, t);
    MulMonotoneReal(Size(g), t, 1.0);
    MulUnit(Size(g));
  }

  // ----- Estimates -----

  /** One whole unit in fixed point. */
  const S: real := SCALE as real

  /** A quantity in whole units, and how far the fixed-point integer that stands for it may be from it. The operations
      are those of the code, each of which truncates once. */
  datatype Est = Est(x: real, e: real) {
    /** Multiplied in fixed point. */
    function Times(q: Est): Est
    {
      Est(Mul(x, q.x), Mul(e, Size(q.x)) + Mul(q.e, Size(x) + Over(e, S)) + 1.0)
    }

    /** Multiplied and divided by v, for which the code has the integer d. */
    function Per(q: Est, v: real, d: int): Est
      requires v > 0.0 && d > 0
    {
      Est(Over(Mul(x, q.x), v),
          Over(S * Mul(e, Size(q.x)) + Mul(q.e, S * Size(x) + e) + S * Over(Mul(Size(x), Size(q.x)), v), d as real)
          + 1.0)
    }

    /** Multiplied by a rate of decimals. */
    function By(rate: real): Est { Est(rate * x, rate * e + 1.0) }

    // Without a truncation.

    function Plus(q: Est): Est { Est(x + q.x, e + q.e) }
    function Minus(q: Est): Est { Est(x - q.x, e + q.e) }
    function Multiple(k: real): Est { Est(k * x, k * e) }
    function Neg(): Est { Est(-x, e) }
  }

  predicate Is(n: int, q: Est) { Near(n as real, S * q.x, q.e) }

  function Exact(x: real): Est { Est(x, 0.0) }

  function Whole(n: int): real { Over(n as real, S) }

  lemma WholeIs(n: int)
    ensures Is(n, Exact(Whole(n))) && n as real == S * Whole(n)
  {
    Cancel(n as real, S);
  }

  lemma ScaledFactor(x: real, y: real)
    ensures Mul(x, S * y) == S * Mul(x, y) && Mul(S * x, y) == S * Mul(x, y)
  {}

  lemma OverScaled(x: real, y: real)
    ensures Over(Mul(x, S * y), S) == Mul(x, y)
  {
    ScaledFactor(x, y);
    hide Over;
    OverIs(Mul(x, y), Mul(x, S * y), S);
  }

  lemma TimesIs(n: int, p: Est, z: int, q: Est)
    requires Is(n, p) && Is(z, q)
    ensures Is(TruncDiv(n * z, SCALE), p.Times(q))
  {
    hide TruncDiv, Over, Mul;
    var bound := S * Size(p.x) + p.e;
    NearProduct(n as real, S * p.x, p.e, z as real, S * q.x, q.e, bound, S * Size(q.x));
    MulOfInts(n, z);
    var lost := Mul(p.e, S * Size(q.x)) + Mul(q.e, bound);
    TruncScaled(n * z, SCALE, Mul(S * p.x, S * q.x), lost);
    OverScaled(S * p.x, q.x);
    ScaledFactor(p.x, q.x);
    OverScaled(p.e, Size(q.x));
    OverAdds(Mul(p.e, S * Size(q.x)), Mul(q.e, bound), S);
    BoundOver(q.e, Size(p.x), p.e);
  }

  lemma BoundOver(f: real, x: real, e: real)
    ensures Over(Mul(f, S * x + e), S) == Mul(f, x + Over(e, S))
  {
    Cancel(e, S);
    hide Over;
    assert S * x + e == S * (x + Over(e, S));
    OverScaled(f, x + Over(e, S));
  }

  lemma ProductNear(n: int, p: Est, z: int, q: Est)
    requires Is(n, p) && Is(z, q)
    ensures Near((n * z) as real, S * (S * Mul(p.x, q.x)), S * Mul(p.e, Size(q.x)) + Mul(q.e, S * Size(p.x) + p.e))
  {
    hide Mul;
    var bound := S * Size(p.x) + p.e;
    NearProduct(n as real, S * p.x, p.e, z as real, S * q.x, q.e, bound, S * Size(q.x));
    MulOfInts(n, z);
    TwiceScaled(p.x, q.x);
    ScaledFactor(p.e, Size(q.x));
  }

  lemma PerIs(n: int, p: Est, z: int, q: Est, v: real, d: int)
    requires Is(n, p) && Is(z, q) && v > 0.0 && d > 0 && d as real <= S * v < d as real + 1.0
    ensures Is(TruncDiv(n * z, d), p.Per(q, v, d))
  {
    hide TruncDiv, Over, Mul, Near;
    ProductNear(n, p, z, q);
    var x, whole := Mul(p.x, q.x), Mul(Size(p.x), Size(q.x));
    SizeOfProduct(p.x, q.x);
    SizeScaled(x, whole);
    TruncRounded(n * z, d, S * v, S * (S * x), S * Mul(p.e, Size(q.x)) + Mul(q.e, S * Size(p.x) + p.e),
                 S * (S * whole));
    OverScales(x, v);
    OverScales(whole, v);
  }

  lemma SizeScaled(x: real, bound: real)
    requires Size(x) <= bound
    ensures Size(S * (S * x)) <= S * (S * bound)
  {}

  lemma TwiceScaled(x: real, y: real)
    ensures Mul(S * x, S * y) == S * (S * Mul(x, y))
  {
    ScaledFactor(x, y);
    ScaledFactor(S * x, y);
  }

  lemma SizeOfProduct(x: real, y: real)
    ensures Size(Mul(x, y)) == Mul(Size(x), Size(y))
  {
    MulSign(x, y);
    MulSign(-x, y);
    MulSign(x, -y);
    MulSign(-x, -y);
    hide Mul;
  }

  lemma OverScales(x: real, v: real)
    requires v > 0.0
    ensures Over(S * (S * x), S * v) == S * Over(x, v)
  {
    Cancel(x, v);
    hide Over;
    assert S * Over(x, v) * (S * v) == S * (S * (Over(x, v) * v));
    OverIs(S * Over(x, v), S * (S * x), S * v);
  }

  lemma Inverse(x: real, v: real)
    requires v > 0.0
    ensures Over(x, v) == Mul(Over(1.0, v), x)
  {
    Cancel(1.0, v);
    hide Over;
    assert Over(1.0, v) * x * v == Over(1.0, v) * v * x;
    OverIs(Over(1.0, v) * x, x, v);
  }

  lemma ByIs(n: int, p: Est, k: nat, d: nat, rate: real)
    requires Is(n, p) && d > 0 && k as real == rate * d as real && rate > 0.0
    ensures Is(TruncDiv(n * k, d), p.By(rate))
  {
    hide Over, TruncDiv, Mul;
    NearScaled(k as real, n as real, S * p.x, p.e);
    MulOfInts(n, k);
    MulCommutes(n as real, k as real);
    TruncScaled(n * k, d, Mul(k as real, S * p.x), Mul(k as real, p.e));
    RateOf(k as real, d as real, S * p.x, rate);
    RateOf(k as real, d as real, p.e, rate);
    assert rate * (S * p.x) == S * (rate * p.x);
  }

  lemma RateOf(k: real, d: real, x: real, rate: real)
    requires d > 0.0 && k == rate * d
    ensures Over(Mul(k, x), d) == rate * x
  {
    assert rate * x * d == k * x;
    OverIs(rate * x, Mul(k, x), d);
  }

  // ----- A cubic and its evaluation -----

  datatype Estimates = Estimates(a: Est, b: Est, c: Est, d: Est) {
    function Value(x: real): Est
    {
      a.Times(Cube(x)).Plus(b.Times(Square(x))).Plus(c.Times(Exact(x))).Plus(d)
    }

    function Slope(x: real): Est
    {
      a.Multiple(3.0).Times(Square(x)).Plus(b.Multiple(2.0).Times(Exact(x))).Plus(c)
    }
  }

  function Square(x: real): Est { Exact(x).Times(Exact(x)) }
  function Cube(x: real): Est { Square(x).Times(Exact(x)) }

  /** Every coefficient of the integer cubic stands for the estimated one. */
  predicate CubicIs(q: Cubic, w: Estimates) { Is(q.a, w.a) && Is(q.b, w.b) && Is(q.c, w.c) && Is(q.d, w.d) }

  /** The estimates are of this real cubic. */
  predicate Of(w: Estimates, r: CurveShape.Cubic) { w.a.x == r.a && w.b.x == r.b && w.c.x == r.c && w.d.x == r.d }

  function SlopeAt(q: CurveShape.Cubic, x: real): real { 3.0 * q.a * x * x + 2.0 * q.b * x + q.c }

  lemma ValueIs(q: Cubic, w: Estimates, x: int)
    requires CubicIs(q, w)
    ensures Is(SignedValue(q, x), w.Value(Whole(x)))
  {
    hide TruncDiv, Over, Mul, Whole, Est.Times;
    var X, x2 := Exact(Whole(x)), TruncDiv(x * x, SCALE);
    WholeIs(x);
    TimesIs(x, X, x, X);
    TimesIs(x2, Square(Whole(x)), x, X);
    TimesIs(q.a, w.a, TruncDiv(x2 * x, SCALE), Cube(Whole(x)));
    TimesIs(q.b, w.b, x2, Square(Whole(x)));
    TimesIs(q.c, w.c, x, X);
  }

  lemma SlopeIs(q: Cubic, w: Estimates, x: int)
    requires CubicIs(q, w)
    ensures Is(SignedSlope(q, x), w.Slope(Whole(x)))
  {
    hide TruncDiv, Over, Mul, Whole, Est.Times;
    var X, x2 := Exact(Whole(x)), TruncDiv(x * x, SCALE);
    WholeIs(x);
    TimesIs(x, X, x, X);
    TimesIs(3 * q.a, w.a.Multiple(3.0), x2, Square(Whole(x)));
    TimesIs(2 * q.b, w.b.Multiple(2.0), x, X);
  }

  lemma EvaluationIs(w: Estimates, r: CurveShape.Cubic, x: real)
    requires Of(w, r)
    ensures w.Value(x).x == r.At(x) && w.Slope(x).x == SlopeAt(r, x)
  {
    AtIs(r, x);
    hide Over, Mul, CurveShape.Cubic.At, SlopeAt;
  }

  lemma AtIs(r: CurveShape.Cubic, x: real)
    ensures r.At(x) == Mul(r.a, Mul(Mul(x, x), x)) + Mul(r.b, Mul(x, x)) + Mul(r.c, x) + r.d
    ensures SlopeAt(r, x) == Mul(3.0 * r.a, Mul(x, x)) + Mul(2.0 * r.b, x) + r.c
  {
    assert r.a * x * x * x == r.a * (x * x * x) && r.b * x * x == r.b * (x * x);
    assert 3.0 * r.a * x * x == 3.0 * r.a * (x * x);
  }

  /** How far below the slope a residual is when a step moved at most the threshold. */
  const RESIDUAL: real := (CONVERGENCE_THRESHOLD + 1) as real / S

  /** At x the real cubic is at most RESIDUAL of its slope away from zero, give or take what the evaluation
      truncates. */
  predicate NearlySolves(r: CurveShape.Cubic, w: Estimates, x: real)
  {
    Size(S * r.At(x)) <= w.Value(x).e + RESIDUAL * (Size(S * SlopeAt(r, x)) + w.Slope(x).e)
  }

  /** Where the integer cubic nearly vanishes, so does the real one it stands for. */
  lemma SmallResidual(q: Cubic, w: Estimates, r: CurveShape.Cubic, x: int)
    requires CubicIs(q, w) && Of(w, r)
    requires Abs(SignedValue(q, x)) * SCALE < (CONVERGENCE_THRESHOLD + 1) * Abs(SignedSlope(q, x))
    ensures NearlySolves(r, w, Whole(x))
  {
    hide SignedValue, SignedSlope, Whole, SlopeAt, RESIDUAL, CurveShape.Cubic.At, Estimates.Value, Estimates.Slope,
         CubicIs, Of;
    var X := Whole(x);
    ValueIs(q, w, x);
    SlopeIs(q, w, x);
    EvaluationIs(w, r, X);
    ResidualWithin(SignedValue(q, x), SignedSlope(q, x), S * r.At(X), S * SlopeAt(r, X), w.Value(X).e, w.Slope(X).e);
  }

  lemma ResidualWithin(f: int, slope: int, F: real, Slope: real, e: real, g: real)
    requires Near(f as real, F, e) && Near(slope as real, Slope, g)
    requires Abs(f) * SCALE < (CONVERGENCE_THRESHOLD + 1) * Abs(slope)
    ensures Size(F) <= e + RESIDUAL * (Size(Slope) + g)
  {
    NearInSize(f, F, e);
    NearInSize(slope, Slope, g);
    hide Near, Size, Abs;
    RealMonotone(RESIDUAL, Abs(slope) as real, Size(Slope) + g);
  }

  lemma NearInSize(n: int, x: real, e: real)
    requires Near(n as real, x, e)
    ensures Size(x) <= Abs(n) as real + e && Abs(n) as real <= Size(x) + e
  {}

  // ----- The integers the coefficients start from -----

  const PRICE: nat := 100_000_000

  function PriceOf(price: nat): real { Over(price as real, PRICE as real) }

  /** The pool's value in whole stable. */
  function ValueOf(price: nat, y0: nat, x0: nat): real { Mul(PriceOf(price), Whole(x0)) + Whole(y0) }

  lemma FloorNear(a: nat, b: nat, d: nat)
    requires d > 0
    ensures var x := Mul(Over(a as real, d as real), b as real); Md(a, b, d) as real <= x < Md(a, b, d) as real + 1.0
  {
    MdIsNat(a, b, d);
    FloorOf(a * b, d);
    RatioIsOver(a * b, d);
    MulOfInts(a, b);
    OverMul(a as real, b as real, d as real);
    hide Over, Mul, Ratio;
  }

  /** An amount worth at the price, rounded down to a unit. */
  lemma WorthIs(price: nat, n: nat)
    ensures var worth, x := Md(price, n, PRICE), Mul(PriceOf(price), Whole(n));
            worth as real <= S * x < worth as real + 1.0
  {
    FloorNear(price, n, PRICE);
    WholeIs(n);
    ScaledFactor(PriceOf(price), Whole(n));
    hide Over, Mul;
  }

  lemma SquareIs(n: nat)
    ensures var sq, x := Md(n, n, SCALE), Mul(Whole(n), Whole(n)); sq as real <= S * x < sq as real + 1.0
  {
    FloorNear(n, n, SCALE);
    WholeIs(n);
    ScaledFactor(Whole(n), Whole(n));
    hide Over, Mul;
  }
}
