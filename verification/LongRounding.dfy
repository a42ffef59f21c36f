/** The integer long against the exact curve, as its sibling does for the short: the cubic in the asset left, at A = 1
    and B = 0.1. */
module LongRounding {
  import opened Arith
  import opened Reals
  import opened Newton
  import opened IntegerCurve
  import opened Rounding
  import CurveShape

  // ----- The real cubic -----

  /** The price in fixed point, as the code scales it. */
  function Spot(price: nat): nat { Md(price, SCALE, PRICE) }

  /** The asset anchor's worth, as the code computes it from that. */
  function Worth(price: nat, x0: nat): nat { Md(Spot(price), x0, SCALE) }

  /** The scaling is exact. */
  lemma SpotIs(price: nat)
    ensures Spot(price) as real == S * PriceOf(price)
  {
    DivCancel(10_000_000_000 * price, PRICE);
    assert price * SCALE == PRICE * (10_000_000_000 * price);
    assert Spot(price) == 10_000_000_000 * price;
    Cancel(price as real, PRICE as real);
    hide Over;
  }

  lemma WorthBySpot(price: nat, x0: nat)
    ensures var x := Mul(PriceOf(price), Whole(x0)); Worth(price, x0) as real <= S * x < Worth(price, x0) as real + 1.0
  {
    SpotIs(price);
    FloorNear(Spot(price), x0, SCALE);
    OverIs(PriceOf(price), Spot(price) as real, S);
    WholeIs(x0);
    ScaledFactor(PriceOf(price), Whole(x0));
    hide Over, Mul, Md, Spot;
  }

  /** The integers the code divides by. */
  predicate Divisors(price: nat, y0: nat, x0: nat) { Md(x0, x0, SCALE) > 0 && Worth(price, x0) + y0 > 0 }

  /** What they say of the real curve: its anchor and its value are positive. */
  lemma WholeSigns(price: nat, y0: nat, x0: nat)
    requires Divisors(price, y0, x0)
    ensures Whole(x0) > 0.0 && Mul(Whole(x0), Whole(x0)) > 0.0 && ValueOf(price, y0, x0) > 0.0
  {
    WorthBySpot(price, x0);
    SquareIs(x0);
    WholeIs(x0);
    WholeIs(y0);
    OverSign(x0 as real, S);
    hide Over, Md, Mul, Worth;
    PositiveRoot(Whole(x0));
  }

  lemma PositiveRoot(x: real)
    requires x >= 0.0 && Mul(x, x) > 0.0
    ensures x > 0.0
  {}

  /** The direct long cubic of the curve at A = 1 and B = 0.1, with price, size and anchors in whole units. */
  function RealLong(size: nat, price: nat, y0: nat, x0: nat): CurveShape.Cubic
    requires Divisors(price, y0, x0)
  {
    WholeSigns(price, y0, x0);
    CurveShape.LongCubic(Over(1.0, ValueOf(price, y0, x0)), PriceOf(price), Whole(x0), 0.1, Whole(size))
  }

  lemma RealLongIsDirectLong(size: nat, price: nat, y0: nat, x0: nat)
    requires Divisors(price, y0, x0) && price > 0 && y0 > 0
    ensures var k := CurveShape.Pool(PriceOf(price), Whole(x0), Whole(y0), 1.0, 0.1);
            k.Valid() && CurveShape.DirectLong(k, Whole(size)) == RealLong(size, price, y0, x0)
  {
    WholeSigns(price, y0, x0);
    Cancel(price as real, PRICE as real);
    OverSign(price as real, PRICE as real);
    WholeIs(y0);
    OverSign(y0 as real, S);
    hide Over, Divisors, Whole, PriceOf;
    hide CurveShape.LongCubic;
    ValueIsTimes(PriceOf(price), Whole(x0), Whole(y0));
  }

  lemma ValueIsTimes(p: real, x: real, y: real)
    requires p > 0.0 && x > 0.0 && y > 0.0
    ensures var k := CurveShape.Pool(p, x, y, 1.0, 0.1); k.Valid() && k.W() == Over(1.0, Mul(p, x) + y)
  {}

  // ----- What the code computes -----

  /** The coefficients of a long as the code computes them: p the price, e the asset anchor's worth, x the anchor, dy
      the size and v the pool value, for which the code divides by the integers `value` and `xSq`. */
  function LongEstimates(p: real, e: real, x: real, dy: real, v: real, value: int, xSq: int): Estimates
    requires v > 0.0 && Mul(x, x) > 0.0 && value > 0 && xSq > 0
  {
    var lam, sq, gap, sp := Est(e + dy, 1.0), Est(Mul(x, x), 1.0), Est(dy - e, 1.0), Exact(p);
    var lamSq := lam.Times(lam);
    var num := lam.Times(sq.Times(sp.Times(sp).Times(sp)));
    var priced := sq.Times(sp).Times(sp);
    Estimates(lamSq.Per(lam, Mul(x, x), xSq),
              num.Per(Exact(1.0), v, value).Minus(lamSq.Times(sp).By(3.2)),
              lam.Times(priced.Per(gap, v, value).Plus(priced.Times(Exact(1.1)).Times(Exact(3.1)))),
              priced.Times(sp).Times(Exact(x)).Times(Exact(x)).Times(Exact(1.1)).Times(Exact(1.1)).Neg())
  }

  /** The estimates of a long by its own arguments. */
  function EstimatesOf(size: nat, price: nat, y0: nat, x0: nat): Estimates
    requires Divisors(price, y0, x0)
  {
    WholeSigns(price, y0, x0);
    LongEstimates(PriceOf(price), Mul(PriceOf(price), Whole(x0)), Whole(x0), Whole(size), ValueOf(price, y0, x0),
                  Worth(price, x0) + y0, Md(x0, x0, SCALE))
  }

  /** The coefficients, quotient by quotient, with the parameter A = 1 cancelled. */
  predicate IsChain(q: Cubic, lambda: int, sp: int, x0: int, gap: int, value: int, xSq: int)
    requires value != 0 && xSq != 0
  {
    var sq, sp3 := TruncDiv(lambda * lambda, SCALE), TruncDiv(TruncDiv(sp * sp, SCALE) * sp, SCALE);
    var num := TruncDiv(lambda * TruncDiv(xSq * sp3, SCALE), SCALE);
    var priced := TruncDiv(TruncDiv(xSq * sp, SCALE) * sp, SCALE);
    var c2 := TruncDiv(TruncDiv(priced * B_PLUS, SCALE) * (B_PLUS + 2 * SCALE), SCALE);
    var d2 := TruncDiv(TruncDiv(TruncDiv(priced * sp, SCALE) * x0, SCALE) * x0, SCALE);
    && q.a == TruncDiv(sq * lambda, xSq)
    && q.b == TruncDiv(num * SCALE, value)
              - TruncDiv(TruncDiv(sq * sp, SCALE) * (2 * CURVE_B + 3 * CURVE_DECIMALS), CURVE_DECIMALS)
    && q.c == TruncDiv(lambda * (TruncDiv(priced * gap, value) + c2), SCALE)
    && q.d == -TruncDiv(TruncDiv(d2 * B_PLUS, SCALE) * B_PLUS, SCALE)
  }

  lemma CubicIsChain(size: nat, price: nat, y0: nat, x0: nat)
    requires LongCubic(size, price, y0, x0).Ok?
    ensures Divisors(price, y0, x0)
    ensures IsChain(LongCubic(size, price, y0, x0).value, Md(price, x0, PRICE) + size, Spot(price), x0,
                    size - Worth(price, x0), Worth(price, x0) + y0, Md(x0, x0, SCALE))
  {
    UnitParameter(Md(x0, x0, SCALE));
    UnitParameter(Md(price, x0, PRICE) + size);
    QuotientIs((CURVE_B + CURVE_DECIMALS) * SCALE, CURVE_DECIMALS, B_PLUS);
    hide TruncDiv, Md;
  }

  /** The integers the chain starts from, and what they stand for. */
  predicate Starts(lambda: int, sp: int, x0: int, gap: int, value: int, xSq: int, p: real, e: real, x: real, dy: real,
                   v: real)
  {
    && v > 0.0 && Mul(x, x) > 0.0 && value > 0 && xSq > 0 && value as real <= S * v < value as real + 1.0
    && xSq as real <= S * Mul(x, x) < xSq as real + 1.0 && sp as real == S * p && x0 as real == S * x
    && Is(lambda, Est(e + dy, 1.0)) && Is(gap, Est(dy - e, 1.0))
  }

  lemma StartsHold(size: nat, price: nat, y0: nat, x0: nat)
    requires Divisors(price, y0, x0)
    ensures Starts(Md(price, x0, PRICE) + size, Spot(price), x0, size - Worth(price, x0), Worth(price, x0) + y0,
                   Md(x0, x0, SCALE), PriceOf(price), Mul(PriceOf(price), Whole(x0)), Whole(x0), Whole(size),
                   ValueOf(price, y0, x0))
  {
    WholeSigns(price, y0, x0);
    WorthIs(price, x0);
    WorthBySpot(price, x0);
    SpotIs(price);
    SquareIs(x0);
    WholeIs(x0);
    WholeIs(y0);
    WholeIs(size);
    hide Over, Mul, Md, Whole, PriceOf, Spot, Worth;
  }

  lemma CubicIsEstimated(size: nat, price: nat, y0: nat, x0: nat)
    requires LongCubic(size, price, y0, x0).Ok?
    ensures Divisors(price, y0, x0)
    ensures CubicIs(LongCubic(size, price, y0, x0).value, EstimatesOf(size, price, y0, x0))
  {
    CubicIsChain(size, price, y0, x0);
    StartsHold(size, price, y0, x0);
    hide LongCubic, Over, Mul, Md, Whole, PriceOf, ValueOf, Spot, Worth, CubicIs, IsChain, Starts, LongEstimates;
    ChainIs(Md(price, x0, PRICE) + size, Spot(price), x0, size - Worth(price, x0), Worth(price, x0) + y0,
            Md(x0, x0, SCALE), PriceOf(price), Mul(PriceOf(price), Whole(x0)), Whole(x0), Whole(size),
            ValueOf(price, y0, x0), LongCubic(size, price, y0, x0).value);
  }

  /** The code's chain, step by step. */
  lemma ChainIs(lambda: int, sp: int, x0: int, gap: int, value: int, xSq: int, p: real, e: real, x: real, dy: real,
                v: real,
                q: Cubic)
    requires value > 0 && xSq > 0 && v > 0.0 && Mul(x, x) > 0.0
    requires Starts(lambda, sp, x0, gap, value, xSq, p, e, x, dy, v) && IsChain(q, lambda, sp, x0, gap, value, xSq)
    ensures CubicIs(q, LongEstimates(p, e, x, dy, v, value, xSq))
  {
    hide TruncDiv, Over, Mul, Est.Times, Est.Per, Est.By;
    var lam, xs, g, s := Est(e + dy, 1.0), Est(Mul(x, x), 1.0), Est(dy - e, 1.0), Exact(p);
    var sq, sp2 := TruncDiv(lambda * lambda, SCALE), TruncDiv(sp * sp, SCALE);
    TimesIs(lambda, lam, lambda, lam);
    PerIs(sq, lam.Times(lam), lambda, lam, Mul(x, x), xSq);
    TimesIs(sp, s, sp, s);
    TimesIs(sp2, s.Times(s), sp, s);
    var sp3 := TruncDiv(sp2 * sp, SCALE);
    TimesIs(xSq, xs, sp3, s.Times(s).Times(s));
    var n1 := TruncDiv(xSq * sp3, SCALE);
    TimesIs(lambda, lam, n1, xs.Times(s.Times(s).Times(s)));
    PerIs(TruncDiv(lambda * n1, SCALE), lam.Times(xs.Times(s.Times(s).Times(s))), SCALE, Exact(1.0), v, value);
    TimesIs(sq, lam.Times(lam), sp, s);
    ByIs(TruncDiv(sq * sp, SCALE), lam.Times(lam).Times(s), 2 * CURVE_B + 3 * CURVE_DECIMALS, CURVE_DECIMALS, 3.2);
    TimesIs(xSq, xs, sp, s);
    TimesIs(TruncDiv(xSq * sp, SCALE), xs.Times(s), sp, s);
    var priced, pr := TruncDiv(TruncDiv(xSq * sp, SCALE) * sp, SCALE), xs.Times(s).Times(s);
    PerIs(priced, pr, gap, g, v, value);
    var c1, c2 := TruncDiv(priced * B_PLUS, SCALE), TruncDiv(TruncDiv(priced * B_PLUS, SCALE) * (B_PLUS + 2 * SCALE),
                                                             SCALE);
    TimesIs(priced, pr, B_PLUS, Exact(1.1));
    TimesIs(c1, pr.Times(Exact(1.1)), B_PLUS + 2 * SCALE, Exact(3.1));
    TimesIs(lambda, lam, TruncDiv(priced * gap, value) + c2,
            pr.Per(g, v, value).Plus(pr.Times(Exact(1.1)).Times(Exact(3.1))));
    TimesIs(priced, pr, sp, s);
    var d0 := TruncDiv(priced * sp, SCALE);
    TimesIs(d0, pr.Times(s), x0, Exact(x));
    var d1 := TruncDiv(d0 * x0, SCALE);
    TimesIs(d1, pr.Times(s).Times(Exact(x)), x0, Exact(x));
    var d2, dd := TruncDiv(d1 * x0, SCALE), pr.Times(s).Times(Exact(x)).Times(Exact(x));
    TimesIs(d2, dd, B_PLUS, Exact(1.1));
    TimesIs(TruncDiv(d2 * B_PLUS, SCALE), dd.Times(Exact(1.1)), B_PLUS, Exact(1.1));
  }

  // ----- The estimates are of the curve -----

  lemma EstimatesAreOfCurve(size: nat, price: nat, y0: nat, x0: nat)
    requires Divisors(price, y0, x0)
    ensures Of(EstimatesOf(size, price, y0, x0), RealLong(size, price, y0, x0))
  {
    WholeSigns(price, y0, x0);
    hide Over, Whole, PriceOf, ValueOf, Md, Worth, Of, LongEstimates;
    OfLong(PriceOf(price), Whole(x0), Whole(size), ValueOf(price, y0, x0), Worth(price, x0) + y0, Md(x0, x0, SCALE));
  }

  lemma OfLong(p: real, x: real, dy: real, v: real, value: int, xSq: int)
    requires v > 0.0 && x > 0.0 && Mul(x, x) > 0.0 && value > 0 && xSq > 0
    ensures Of(LongEstimates(p, Mul(p, x), x, dy, v, value, xSq), CurveShape.LongCubic(Over(1.0, v), p, x, 0.1, dy))
  {
    var e, w, sq := Mul(p, x), Over(1.0, v), Mul(x, x);
    var l, priced := e + dy, Mul(Mul(sq, p), p);
    LongCoefficients(w, p, x, dy);
    MulUnit(Mul(l, Mul(sq, Mul(Mul(p, p), p))));
    Inverse(Mul(l, Mul(sq, Mul(Mul(p, p), p))), v);
    Inverse(Mul(priced, dy - e), v);
    LongBIs(w, p, x, l);
    LongCIs(w, p, x, l, dy);
    LongDIs(p, x);
    hide Over, Mul, CurveShape.LongCubic, CurveShape.LongB, CurveShape.LongC, CurveShape.LongD;
  }

  lemma LeadingIs(l: real, x: real)
    requires x > 0.0
    ensures CurveShape.Times(x, x) == Mul(x, x) && l * l * l / CurveShape.Times(x, x)
            == Over(Mul(Mul(l, l), l), Mul(x, x))
  {
    assert CurveShape.Times(x, x) == Mul(x, x);
  }

  lemma LongCoefficients(w: real, p: real, x: real, dy: real)
    requires x > 0.0
    ensures var q, e := CurveShape.LongCubic(w, p, x, 0.1, dy), Mul(p, x);
            var l := e + dy;
            && Mul(x, x) != 0.0 && q.a == Over(Mul(Mul(l, l), l), Mul(x, x)) && q.b == CurveShape.LongB(w, p, x, 0.1, l)
            && q.c == CurveShape.LongC(w, p, x, 0.1, l, dy) && q.d == CurveShape.LongD(p, x, 0.1)
  {
    hide CurveShape.LongB, CurveShape.LongC, CurveShape.LongD;
    LeadingIs(Mul(p, x) + dy, x);
  }

  lemma LongBIs(w: real, p: real, x: real, l: real)
    ensures CurveShape.LongB(w, p, x, 0.1, l)
            == Mul(w, Mul(l, Mul(Mul(x, x), Mul(Mul(p, p), p)))) - 3.2 * Mul(Mul(l, l), p)
  {
    assert l * l * p * (2.0 * 0.1 + 3.0) == 3.2 * (l * l * p);
    var n := x * x * (p * p * p);
    assert w * l * n == w * (l * n);
  }

  lemma LongCIs(w: real, p: real, x: real, l: real, dy: real)
    ensures var priced := Mul(Mul(Mul(x, x), p), p);
            CurveShape.LongC(w, p, x, 0.1, l, dy)
            == Mul(l, Mul(w, Mul(priced, dy - Mul(p, x))) + Mul(Mul(priced, 1.1), 3.1))
  {
    var sq, gap := x * x, dy - p * x;
    var priced := sq * p * p;
    assert priced * (0.1 + 1.0) * ((0.1 + 1.0) + 2.0) == priced * 1.1 * 3.1;
    assert w * sq * p * p * gap == w * (priced * gap) by {
      assert w * sq * p * p == w * (sq * p * p);
      var k := sq * p * p;
      assert w * k * gap == w * (k * gap);
    }
  }

  lemma LongDIs(p: real, x: real)
    ensures var priced := Mul(Mul(Mul(x, x), p), p);
            CurveShape.LongD(p, x, 0.1) == -Mul(Mul(Mul(Mul(Mul(priced, p), x), x), 1.1), 1.1)
  {}

  // ----- The results -----

  /** Each integer coefficient of a long is the real one, but for what the code's own truncations can take. */
  lemma LongRoundsTheCurve(size: nat, price: nat, y0: nat, x0: nat)
    requires LongCubic(size, price, y0, x0).Ok?
    ensures Divisors(price, y0, x0)
    ensures var q, r, w := LongCubic(size, price, y0, x0).value, RealLong(size, price, y0, x0),
            EstimatesOf(size, price, y0, x0);
            && Near(q.a as real, S * r.a, w.a.e) && Near(q.b as real, S * r.b, w.b.e)
            && Near(q.c as real, S * r.c, w.c.e) && Near(q.d as real, S * r.d, w.d.e)
  {
    hide LongCubic, EstimatesOf, RealLong, Divisors;
    CubicIsEstimated(size, price, y0, x0);
    EstimatesAreOfCurve(size, price, y0, x0);
  }

  /** The answer of a long leaves asset that nearly solves the curve: it is within 1e10 of a point where the real cubic
      is within (1e10+1)/1e18 of its slope from zero. */
  lemma LongAnswerSolvesTheCurve(size: nat, price: nat, guess: nat, y0: nat, x0: nat) returns (xPrev: int)
    requires LongReturn(size, price, guess, y0, x0).Ok?
    ensures Divisors(price, y0, x0)
    ensures Abs(x0 - LongReturn(size, price, guess, y0, x0).value - xPrev) <= CONVERGENCE_THRESHOLD
    ensures NearlySolves(RealLong(size, price, y0, x0), EstimatesOf(size, price, y0, x0), Whole(xPrev))
  {
    xPrev := LongAnswerIsNearlyARoot(size, price, guess, y0, x0);
    hide LongCubic, EstimatesOf, RealLong, SignedValue, SignedSlope, SolveSigned, FreeStep, NearlySolves, CubicIs, Of,
         Divisors;
    CubicIsEstimated(size, price, y0, x0);
    EstimatesAreOfCurve(size, price, y0, x0);
    SmallResidual(LongCubic(size, price, y0, x0).value, EstimatesOf(size, price, y0, x0), RealLong(size, price, y0, x0),
                  xPrev);
  }
}
