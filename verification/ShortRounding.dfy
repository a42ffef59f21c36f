/** The integer short against the exact curve: every coefficient the code computes, and what its answer leaves, within
    the truncations of the code of the real cubic at A = 1 and B = 0.1. */
module ShortRounding {
  import opened Arith
  import opened Reals
  import opened Newton
  import opened IntegerCurve
  import opened Rounding
  import CurveShape

  // ----- The real cubic -----

  lemma WholeSigns(price: nat, y0: nat, x0: nat)
    ensures Whole(y0) >= 0.0 && PriceOf(price) >= 0.0 && Whole(x0) >= 0.0 && ValueOf(price, y0, x0) >= Whole(y0)
    ensures y0 > 0 ==> Whole(y0) > 0.0 && Mul(Whole(y0), Whole(y0)) > 0.0
  {
    WholeIs(y0);
    OverSign(y0 as real, S);
    OverSign(x0 as real, S);
    OverSign(price as real, PRICE as real);
    hide Over;
    MulSign(PriceOf(price), Whole(x0));
    if y0 > 0 { NonZero(Whole(y0), Whole(y0)); }
  }

  /** The direct short cubic of the curve at A = 1 and B = 0.1, with price, size and anchors in whole units. It is also
      defined where the price or the asset anchor is zero. */
  function RealShort(size: nat, price: nat, y0: nat, x0: nat): CurveShape.Cubic
    requires y0 > 0
  {
    WholeSigns(price, y0, x0);
    CurveShape.ShortCubic(Over(1.0, ValueOf(price, y0, x0)), PriceOf(price), Whole(y0), 0.1, Whole(size))
  }

  lemma RealShortIsDirectShort(size: nat, price: nat, y0: nat, x0: nat)
    requires y0 > 0 && price > 0 && x0 > 0
    ensures var k := CurveShape.Pool(PriceOf(price), Whole(x0), Whole(y0), 1.0, 0.1);
            k.Valid() && CurveShape.DirectShort(k, Whole(size)) == RealShort(size, price, y0, x0)
  {
    WholeSigns(price, y0, x0);
    WholeSigns(price, x0, x0);
    Cancel(price as real, PRICE as real);
  }

  // ----- What the code computes -----

  /** The coefficients of a short as the code computes them: e is the size's worth, y the stable anchor and v the pool
      value, for which the code divides by the integers `value` and `ySq`. */
  function ShortEstimates(e: real, y: real, v: real, value: int, ySq: int): Estimates
    requires v > 0.0 && Mul(y, y) > 0.0 && value > 0 && ySq > 0
  {
    var lam, sq, gap := Est(e + y, 1.0), Est(Mul(y, y), 1.0), Est(e - y, 1.0);
    var lamSq, part := lam.Times(lam), sq.By(1.1);
    Estimates(lamSq.Per(lam, Mul(y, y), ySq),
              sq.Per(lam, v, value).Minus(lamSq.By(3.2)),
              lam.Times(sq.Per(gap, v, value).Plus(part.By(1.1).Plus(part.Multiple(2.0)))),
              sq.Times(sq).Times(Exact(1.1)).Times(Exact(1.1)).Neg())
  }

  /** The estimates of a short by its own arguments. */
  function EstimatesOf(size: nat, price: nat, y0: nat, x0: nat): Estimates
    requires y0 > 0 && Md(y0, y0, SCALE) > 0 && Md(price, x0, PRICE) + y0 > 0
  {
    WholeSigns(price, y0, x0);
    ShortEstimates(Mul(PriceOf(price), Whole(size)), Whole(y0), ValueOf(price, y0, x0), Md(price, x0, PRICE) + y0,
                   Md(y0, y0, SCALE))
  }

  lemma DivisorsPositive(size: nat, price: nat, y0: nat, x0: nat)
    requires ShortCubic(size, price, y0, x0).Ok?
    ensures y0 > 0 && Md(y0, y0, SCALE) > 0 && Md(price, x0, PRICE) + y0 > 0
  {
    if y0 == 0 { DivCancel(0, SCALE); }
  }

  /** The coefficients, quotient by quotient, with the parameter A = 1 cancelled. */
  predicate IsChain(q: Cubic, worth: int, y0: int, value: int, ySq: int)
    requires value != 0 && ySq != 0
  {
    var lambda, rate := worth + y0, CURVE_B + CURVE_DECIMALS;
    var sq, part := TruncDiv(lambda * lambda, SCALE), TruncDiv(ySq * rate, CURVE_DECIMALS);
    && q.a == TruncDiv(sq * lambda, ySq)
    && q.b == TruncDiv(ySq * lambda, value) - TruncDiv(sq * (2 * CURVE_B + 3 * CURVE_DECIMALS), CURVE_DECIMALS)
    && q.c == TruncDiv(lambda * (TruncDiv(ySq * (worth - y0), value)
                                 + (TruncDiv(part * rate, CURVE_DECIMALS) + 2 * part)), SCALE)
    && q.d == -TruncDiv(TruncDiv(TruncDiv(ySq * ySq, SCALE) * B_PLUS, SCALE) * B_PLUS, SCALE)
  }

  lemma CubicIsChain(size: nat, price: nat, y0: nat, x0: nat)
    requires ShortCubic(size, price, y0, x0).Ok?
    ensures var worth, value, ySq := Md(price, size, PRICE), Md(price, x0, PRICE) + y0, Md(y0, y0, SCALE);
            ySq > 0 && value > 0 && IsChain(ShortCubic(size, price, y0, x0).value, worth, y0, value, ySq)
  {
    UnitParameter(Md(y0, y0, SCALE));
    QuotientIs((CURVE_B + CURVE_DECIMALS) * SCALE, CURVE_DECIMALS, B_PLUS);
    hide TruncDiv, Over, Mul, Md;
  }

  /** The integers the chain starts from, and what they stand for. */
  predicate Starts(worth: int, y0: int, value: int, ySq: int, e: real, y: real, v: real)
  {
    && v > 0.0 && Mul(y, y) > 0.0 && value > 0 && ySq > 0 && y0 as real == S * y
    && worth as real <= S * e < worth as real + 1.0 && value as real <= S * v < value as real + 1.0
    && ySq as real <= S * Mul(y, y) < ySq as real + 1.0
  }

  lemma StartsHold(size: nat, price: nat, y0: nat, x0: nat)
    requires y0 > 0 && Md(y0, y0, SCALE) > 0 && Md(price, x0, PRICE) + y0 > 0
    ensures Starts(Md(price, size, PRICE), y0, Md(price, x0, PRICE) + y0, Md(y0, y0, SCALE),
                   Mul(PriceOf(price), Whole(size)), Whole(y0), ValueOf(price, y0, x0))
  {
    WholeSigns(price, y0, x0);
    WorthIs(price, size);
    WorthIs(price, x0);
    SquareIs(y0);
    WholeIs(y0);
    hide Over, Mul, Md, Whole, PriceOf;
  }

  lemma CubicIsEstimated(size: nat, price: nat, y0: nat, x0: nat)
    requires ShortCubic(size, price, y0, x0).Ok?
    ensures y0 > 0 && Md(y0, y0, SCALE) > 0 && Md(price, x0, PRICE) + y0 > 0
    ensures CubicIs(ShortCubic(size, price, y0, x0).value, EstimatesOf(size, price, y0, x0))
  {
    DivisorsPositive(size, price, y0, x0);
    CubicIsChain(size, price, y0, x0);
    StartsHold(size, price, y0, x0);
    WholeSigns(price, y0, x0);
    hide ShortCubic, Over, Mul, Md, Whole, PriceOf, ValueOf, CubicIs, IsChain, Starts, ShortEstimates;
    ChainIs(Md(price, size, PRICE), y0, Md(price, x0, PRICE) + y0, Md(y0, y0, SCALE), Mul(PriceOf(price), Whole(size)),
            Whole(y0), ValueOf(price, y0, x0), ShortCubic(size, price, y0, x0).value);
  }

  /** The code's chain, step by step. */
  lemma ChainIs(worth: int, y0: int, value: int, ySq: int, e: real, y: real, v: real, q: Cubic)
    requires value > 0 && ySq > 0 && v > 0.0 && Mul(y, y) > 0.0
    requires Starts(worth, y0, value, ySq, e, y, v) && IsChain(q, worth, y0, value, ySq)
    ensures CubicIs(q, ShortEstimates(e, y, v, value, ySq))
  {
    hide TruncDiv, Over, Mul, Est.Times, Est.Per, Est.By;
    var lam, ys, gap := Est(e + y, 1.0), Est(Mul(y, y), 1.0), Est(e - y, 1.0);
    var lambda, rate := worth + y0, CURVE_B + CURVE_DECIMALS;
    var sq, part := TruncDiv(lambda * lambda, SCALE), TruncDiv(ySq * rate, CURVE_DECIMALS);
    TimesIs(lambda, lam, lambda, lam);
    PerIs(sq, lam.Times(lam), lambda, lam, Mul(y, y), ySq);
    PerIs(ySq, ys, lambda, lam, v, value);
    ByIs(sq, lam.Times(lam), 2 * CURVE_B + 3 * CURVE_DECIMALS, CURVE_DECIMALS, 3.2);
    ByIs(ySq, ys, rate, CURVE_DECIMALS, 1.1);
    ByIs(part, ys.By(1.1), rate, CURVE_DECIMALS, 1.1);
    PerIs(ySq, ys, worth - y0, gap, v, value);
    var c2 := TruncDiv(part * rate, CURVE_DECIMALS) + 2 * part;
    TimesIs(lambda, lam, TruncDiv(ySq * (worth - y0), value) + c2,
            ys.Per(gap, v, value).Plus(ys.By(1.1).By(1.1).Plus(ys.By(1.1).Multiple(2.0))));
    TimesIs(ySq, ys, ySq, ys);
    var d1 := TruncDiv(ySq * ySq, SCALE);
    TimesIs(d1, ys.Times(ys), B_PLUS, Exact(1.1));
    TimesIs(TruncDiv(d1 * B_PLUS, SCALE), ys.Times(ys).Times(Exact(1.1)), B_PLUS, Exact(1.1));
  }

  // ----- The estimates are of the curve -----

  lemma EstimatesAreOfCurve(size: nat, price: nat, y0: nat, x0: nat)
    requires y0 > 0 && Md(y0, y0, SCALE) > 0 && Md(price, x0, PRICE) + y0 > 0
    ensures Of(EstimatesOf(size, price, y0, x0), RealShort(size, price, y0, x0))
  {
    WholeSigns(price, y0, x0);
    hide Over, Whole, PriceOf, ValueOf, Md, Of, ShortEstimates;
    OfShort(PriceOf(price), Whole(size), Whole(y0), ValueOf(price, y0, x0), Md(price, x0, PRICE) + y0,
            Md(y0, y0, SCALE));
  }

  lemma OfShort(p: real, dx: real, y: real, v: real, value: int, ySq: int)
    requires v > 0.0 && y > 0.0 && Mul(y, y) > 0.0 && value > 0 && ySq > 0
    ensures Of(ShortEstimates(Mul(p, dx), y, v, value, ySq), CurveShape.ShortCubic(Over(1.0, v), p, y, 0.1, dx))
  {
    var e, w := Mul(p, dx), Over(1.0, v);
    var l, sq := e + y, Mul(y, y);
    ShortCoefficients(w, p, y, dx);
    Inverse(Mul(sq, l), v);
    Inverse(Mul(sq, e - y), v);
    ShortBIs(w, y, l);
    ShortCIs(w, y, l);
    ShortDIs(y);
    hide Over, Mul, CurveShape.ShortCubic, CurveShape.ShortB, CurveShape.ShortC, CurveShape.ShortD;
  }

  lemma ShortCoefficients(w: real, p: real, u: real, dx: real)
    requires u > 0.0
    ensures var q, e := CurveShape.ShortCubic(w, p, u, 0.1, dx), Mul(p, dx);
            var l := e + u;
            && Mul(u, u) != 0.0 && q.a == Over(Mul(Mul(l, l), l), Mul(u, u)) && q.b == CurveShape.ShortB(w, u, 0.1, l)
            && q.c == CurveShape.ShortC(w, e, u, 0.1, l) && q.d == CurveShape.ShortD(u, 0.1)
  {
    assert CurveShape.Times(u, u) == Mul(u, u);
    hide CurveShape.ShortB, CurveShape.ShortC, CurveShape.ShortD;
    var l := Mul(p, dx) + u;
    assert l * l * l == Mul(Mul(l, l), l);
  }

  lemma ShortBIs(w: real, u: real, l: real)
    ensures CurveShape.ShortB(w, u, 0.1, l) == Mul(w, Mul(Mul(u, u), l)) - 3.2 * Mul(l, l)
  {
    assert l * l * (2.0 * 0.1 + 3.0) == 3.2 * (l * l);
    assert w * (u * u) * l == w * (u * u * l);
  }

  lemma ShortCIs(w: real, u: real, l: real)
    ensures CurveShape.ShortC(w, l - u, u, 0.1, l)
            == Mul(l, Mul(w, Mul(Mul(u, u), l - 2.0 * u)) + (1.1 * (1.1 * Mul(u, u)) + 2.0 * (1.1 * Mul(u, u))))
  {
    var square := u * u;
    assert square * (0.1 + 1.0) == 1.1 * square;
    assert w * square * (l - 2.0 * u) == w * (square * (l - 2.0 * u));
  }

  lemma ShortDIs(u: real)
    ensures CurveShape.ShortD(u, 0.1) == -Mul(Mul(Mul(Mul(u, u), Mul(u, u)), 1.1), 1.1)
  {}

  // ----- The results -----

  /** Each integer coefficient of a short is the real one, but for what the code's own truncations can take. */
  lemma ShortRoundsTheCurve(size: nat, price: nat, y0: nat, x0: nat)
    requires ShortCubic(size, price, y0, x0).Ok?
    ensures y0 > 0 && Md(y0, y0, SCALE) > 0 && Md(price, x0, PRICE) + y0 > 0
    ensures var q, r, w := ShortCubic(size, price, y0, x0).value, RealShort(size, price, y0, x0),
            EstimatesOf(size, price, y0, x0);
            && Near(q.a as real, S * r.a, w.a.e) && Near(q.b as real, S * r.b, w.b.e)
            && Near(q.c as real, S * r.c, w.c.e) && Near(q.d as real, S * r.d, w.d.e)
  {
    hide ShortCubic, EstimatesOf, RealShort, Md;
    CubicIsEstimated(size, price, y0, x0);
    EstimatesAreOfCurve(size, price, y0, x0);
  }

  /** The answer of a short leaves stable that nearly solves the curve: it is within 1e10 of a point where the real
      cubic is within (1e10+1)/1e18 of its slope from zero. */
  lemma ShortAnswerSolvesTheCurve(size: nat, price: nat, guess: nat, y0: nat, x0: nat) returns (xPrev: int)
    requires ShortReturn(size, price, guess, y0, x0).Ok?
    ensures y0 > 0 && Md(y0, y0, SCALE) > 0 && Md(price, x0, PRICE) + y0 > 0
    ensures Abs(y0 - ShortReturn(size, price, guess, y0, x0).value - xPrev) <= CONVERGENCE_THRESHOLD
    ensures NearlySolves(RealShort(size, price, y0, x0), EstimatesOf(size, price, y0, x0), Whole(xPrev))
  {
    xPrev := ShortAnswerIsNearlyARoot(size, price, guess, y0, x0);
    hide ShortCubic, EstimatesOf, RealShort, SignedValue, SignedSlope, SolveSigned, FreeStep, NearlySolves, CubicIs, Of,
         Md;
    CubicIsEstimated(size, price, y0, x0);
    EstimatesAreOfCurve(size, price, y0, x0);
    SmallResidual(ShortCubic(size, price, y0, x0).value, EstimatesOf(size, price, y0, x0),
                  RealShort(size, price, y0, x0),
                  xPrev);
  }
}
