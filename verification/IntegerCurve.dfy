/** The curve as the engine computes it, for trades on either side: the integer coefficients of the cubic in the order
    of the code's truncating divisions, at the curve parameters the engine passes, and the solver run on them. */
module IntegerCurve {
  import opened Arith
  import opened Newton

  const CURVE_A: nat := 100_000_000
  const CURVE_B: nat := 10_000_000
  const CURVE_DECIMALS: nat := 100_000_000
  const PRICE_DECIMALS: nat := 100_000_000

  lemma LeadingIsNat(lambda: nat, ySq: nat)
    requires ySq > 0
    ensures TruncDiv(TruncDiv(lambda * lambda, SCALE) * lambda, ySq) >= 0
  {
    MulMonotone(lambda, 0, lambda);
    TruncDivBounds(lambda * lambda, SCALE);
    MulMonotone(lambda, 0, TruncDiv(lambda * lambda, SCALE));
    TruncDivBounds(TruncDiv(lambda * lambda, SCALE) * lambda, ySq);
  }

  /** The cubic a short solves for the stable left: size and price in, anchors y0 (stable) and x0 (asset). */
  function ShortCubic(size: nat, price: nat, y0: nat, x0: nat): Result<Cubic>
  {
    var worth: nat := Md(price, size, PRICE_DECIMALS);
    var lambda: nat := worth + y0;
    var value: nat := Md(price, x0, PRICE_DECIMALS) + y0;
    var ySq: nat := Md(y0, y0, SCALE);
    if ySq == 0 || value == 0 then Err("DIV0")
    else
      LeadingIsNat(lambda, ySq);
      var lambdaSq := TruncDiv(lambda * lambda, SCALE);
      var base := TruncDiv(ySq * CURVE_A, CURVE_DECIMALS);
      var part := TruncDiv(ySq * (CURVE_B + CURVE_DECIMALS), CURVE_DECIMALS);
      var c2 := TruncDiv(part * (CURVE_B + CURVE_DECIMALS), CURVE_DECIMALS) + 2 * part;
      var c1 := TruncDiv(base * (worth - y0), value);
      var bPlus := TruncDiv((CURVE_B + CURVE_DECIMALS) * SCALE, CURVE_DECIMALS);
      Ok(Cubic(TruncDiv(lambdaSq * lambda, ySq),
               TruncDiv(base * lambda, value) - TruncDiv(lambdaSq * (2 * CURVE_B + 3 * CURVE_DECIMALS), CURVE_DECIMALS),
               TruncDiv(lambda * (c1 + c2), SCALE),
               -TruncDiv(TruncDiv(TruncDiv(ySq * ySq, SCALE) * bPlus, SCALE) * bPlus, SCALE)))
  }

  /** What a short of `size` pays out: the stable anchor less the root the solver stops at, which must not exceed it. */
  function ShortReturn(size: nat, price: nat, guess: nat, y0: nat, x0: nat): Result<nat>
  {
    var q :- ShortCubic(size, price, y0, x0);
    var left :- SolveSigned(q, guess, MAX_STEPS);
    if left > y0 then Err("U256") else Ok(y0 - left)
  }

  /** The answer of a short leaves stable that is nearly a root of the integer cubic: one step of at most 1e10 away from
      an iterate where |f|*1e18 < (1e10+1)*|f'|. */
  lemma ShortAnswerIsNearlyARoot(size: nat, price: nat, guess: nat, y0: nat, x0: nat) returns (xPrev: int)
    requires ShortReturn(size, price, guess, y0, x0).Ok?
    ensures var q, left := ShortCubic(size, price, y0, x0).value, y0 - ShortReturn(size, price, guess, y0, x0).value;
            && FreeStep(q, xPrev) == Ok(left) && Abs(left - xPrev) <= CONVERGENCE_THRESHOLD
            && Abs(SignedValue(q, xPrev)) * SCALE < (CONVERGENCE_THRESHOLD + 1) * Abs(SignedSlope(q, xPrev))
  {
    hide ShortCubic, SignedValue, SignedSlope, FreeStep, SolveSigned;
    xPrev := SignedReturnIsNearlyARoot(ShortCubic(size, price, y0, x0).value, guess, MAX_STEPS);
  }

  /** The cubic a long solves for the asset left: size in stable and price in, anchors y0 (stable) and x0 (asset). */
  function LongCubic(size: nat, price: nat, y0: nat, x0: nat): Result<Cubic>
  {
    var lambda: nat := Md(price, x0, PRICE_DECIMALS) + size;
    var xSq: nat := Md(x0, x0, SCALE);
    var sp: nat := Md(price, SCALE, PRICE_DECIMALS);
    var worth: nat := Md(sp, x0, SCALE);
    if xSq == 0 || worth + y0 == 0 then Err("DIV0")
    else
      LeadingIsNat(lambda, xSq);
      var lambdaSq := TruncDiv(lambda * lambda, SCALE);
      var sp3 := TruncDiv(TruncDiv(sp * sp, SCALE) * sp, SCALE);
      var n1 := TruncDiv(xSq * sp3, SCALE);
      var num := TruncDiv(TruncDiv(CURVE_A * lambda, CURVE_DECIMALS) * n1, SCALE);
      var b1 := TruncDiv(num * SCALE, worth + y0);
      var b2 := TruncDiv(TruncDiv(lambdaSq * sp, SCALE) * (2 * CURVE_B + 3 * CURVE_DECIMALS), CURVE_DECIMALS);
      var bPlus := TruncDiv((CURVE_B + CURVE_DECIMALS) * SCALE, CURVE_DECIMALS);
      var priced := TruncDiv(TruncDiv(xSq * sp, SCALE) * sp, SCALE);
      var c2 := TruncDiv(TruncDiv(priced * bPlus, SCALE) * (bPlus + 2 * SCALE), SCALE);
      var weighed := TruncDiv(TruncDiv(TruncDiv(xSq * CURVE_A, CURVE_DECIMALS) * sp, SCALE) * sp, SCALE);
      var c1 := TruncDiv(weighed * (size - worth), worth + y0);
      var d2 := TruncDiv(TruncDiv(TruncDiv(priced * sp, SCALE) * x0, SCALE) * x0, SCALE);
      Ok(Cubic(TruncDiv(lambdaSq * lambda, xSq), b1 - b2, TruncDiv(lambda * (c1 + c2), SCALE),
               -TruncDiv(TruncDiv(d2 * bPlus, SCALE) * bPlus, SCALE)))
  }

  /** What a long of `size` pays out: the asset anchor less the root the solver stops at, which must not exceed it. */
  function LongReturn(size: nat, price: nat, guess: nat, y0: nat, x0: nat): Result<nat>
  {
    var q :- LongCubic(size, price, y0, x0);
    var left :- SolveSigned(q, guess, MAX_STEPS);
    if left > x0 then Err("U256") else Ok(x0 - left)
  }

  /** The same of a long, for the asset it leaves. */
  lemma LongAnswerIsNearlyARoot(size: nat, price: nat, guess: nat, y0: nat, x0: nat) returns (xPrev: int)
    requires LongReturn(size, price, guess, y0, x0).Ok?
    ensures var q, left := LongCubic(size, price, y0, x0).value, x0 - LongReturn(size, price, guess, y0, x0).value;
            && FreeStep(q, xPrev) == Ok(left) && Abs(left - xPrev) <= CONVERGENCE_THRESHOLD
            && Abs(SignedValue(q, xPrev)) * SCALE < (CONVERGENCE_THRESHOLD + 1) * Abs(SignedSlope(q, xPrev))
  {
    hide LongCubic, SignedValue, SignedSlope, FreeStep, SolveSigned;
    xPrev := SignedReturnIsNearlyARoot(LongCubic(size, price, y0, x0).value, guess, MAX_STEPS);
  }

  // ----- Running the solver by its quotients -----

  /** `q` is n/d truncated toward zero, said without division. */
  predicate IsQuotient(n: int, d: int, q: int)
  {
    d > 0 && if n >= 0 then 0 <= q && d * q <= n < d * q + d else q <= 0 && d * q - d < n <= d * q
  }

  lemma QuotientIs(n: int, d: int, q: int)
    requires IsQuotient(n, d, q)
    ensures d != 0 && TruncDiv(n, d) == q
  {
    if n >= 0 { QuotientUnique(n, d, q, n - d * q); } else { QuotientUnique(-n, d, -q, d * q - n); }
  }

  /** One iteration with every quotient it computes: the square and cube of x, the three terms of f, the two of f', and
      the move. */
  datatype Iteration = Iteration(x: int, x2: int, x3: int, fa: int, fb: int, fc: int, sa: int, sb: int, move: int)

  predicate Computes(q: Cubic, t: Iteration)
  {
    && IsQuotient(t.x * t.x, SCALE, t.x2) && IsQuotient(t.x2 * t.x, SCALE, t.x3)
    && IsQuotient(q.a * t.x3, SCALE, t.fa) && IsQuotient(q.b * t.x2, SCALE, t.fb)
       && IsQuotient(q.c * t.x, SCALE, t.fc)
    && IsQuotient(3 * q.a * t.x2, SCALE, t.sa) && IsQuotient(2 * q.b * t.x, SCALE, t.sb)
    && IsQuotient((t.fa + t.fb + t.fc + q.d) * SCALE, t.sa + t.sb + q.c, t.move)
  }

  lemma IterationSteps(q: Cubic, t: Iteration)
    requires Computes(q, t)
    ensures FreeStep(q, t.x) == Ok(t.x - t.move)
  {
    QuotientIs(t.x * t.x, SCALE, t.x2);
    QuotientIs(t.x2 * t.x, SCALE, t.x3);
    QuotientIs(q.a * t.x3, SCALE, t.fa);
    QuotientIs(q.b * t.x2, SCALE, t.fb);
    QuotientIs(q.c * t.x, SCALE, t.fc);
    QuotientIs(3 * q.a * t.x2, SCALE, t.sa);
    QuotientIs(2 * q.b * t.x, SCALE, t.sb);
    QuotientIs((t.fa + t.fb + t.fc + q.d) * SCALE, t.sa + t.sb + q.c, t.move);
    hide IsQuotient, TruncDiv;
  }

  lemma GoesOn(q: Cubic, t: Iteration, fuel: nat, root: int)
    requires Computes(q, t) && Abs(t.move) > CONVERGENCE_THRESHOLD && fuel > 0
    requires SolveSigned(q, t.x - t.move, fuel - 1) == Ok(root)
    ensures SolveSigned(q, t.x, fuel) == Ok(root)
  {
    hide FreeStep, Computes;
    IterationSteps(q, t);
  }

  lemma Stops(q: Cubic, t: Iteration, fuel: nat)
    requires Computes(q, t) && Abs(t.move) <= CONVERGENCE_THRESHOLD && fuel > 0
    ensures SolveSigned(q, t.x, fuel) == Ok(t.x - t.move)
  {
    hide FreeStep, Computes;
    IterationSteps(q, t);
  }

  /** The quotients of the coefficients of a short: lambda^2, a, the two parts of b and of c, c, and the chain to d. */
  datatype Chain = Chain(lambdaSq: int, ySq: nat, a: nat, b1: int, b2: int, part: int, c2: int, c1: int, c: int,
                         d1: int,
                         d2: int, d3: int)

  const B_PLUS: int := 1_100_000_000_000_000_000

  predicate ChainComputes(lambda: nat, diff: int, value: nat, y0: nat, w: Chain)
  {
    && value > 0 && w.ySq > 0
    && IsQuotient(y0 * y0, SCALE, w.ySq) && IsQuotient(lambda * lambda, SCALE, w.lambdaSq)
    && IsQuotient(w.lambdaSq * lambda, w.ySq, w.a)
    && IsQuotient(w.ySq * lambda, value, w.b1)
    && IsQuotient(w.lambdaSq * (2 * CURVE_B + 3 * CURVE_DECIMALS), CURVE_DECIMALS, w.b2)
    && IsQuotient(w.ySq * (CURVE_B + CURVE_DECIMALS), CURVE_DECIMALS, w.part)
    && IsQuotient(w.part * (CURVE_B + CURVE_DECIMALS), CURVE_DECIMALS, w.c2)
    && IsQuotient(w.ySq * diff, value, w.c1)
    && IsQuotient(lambda * (w.c1 + (w.c2 + 2 * w.part)), SCALE, w.c)
    && IsQuotient(w.ySq * w.ySq, SCALE, w.d1) && IsQuotient(w.d1 * B_PLUS, SCALE, w.d2)
    && IsQuotient(w.d2 * B_PLUS, SCALE, w.d3)
  }

  function ChainCubic(w: Chain): Cubic { Cubic(w.a, w.b1 - w.b2, w.c, -w.d3) }

  /** At the price that makes one asset worth one stable, the chain is the cubic of the short. */
  lemma ChainIsCubic(size: nat, y0: nat, x0: nat, w: Chain)
    requires ChainComputes(size + y0, size - y0, x0 + y0, y0, w)
    ensures ShortCubic(size, PRICE_DECIMALS, y0, x0) == Ok(ChainCubic(w))
  {
    var lambda, value := size + y0, x0 + y0;
    UnitPrice(size);
    UnitPrice(x0);
    QuotientIs(y0 * y0, SCALE, w.ySq);
    NatQuotient(y0, SCALE);
    assert Md(y0, y0, SCALE) == w.ySq;
    QuotientIs(lambda * lambda, SCALE, w.lambdaSq);
    QuotientIs(w.lambdaSq * lambda, w.ySq, w.a);
    UnitParameter(w.ySq);
    QuotientIs(w.ySq * lambda, value, w.b1);
    QuotientIs(w.lambdaSq * (2 * CURVE_B + 3 * CURVE_DECIMALS), CURVE_DECIMALS, w.b2);
    QuotientIs(w.ySq * (CURVE_B + CURVE_DECIMALS), CURVE_DECIMALS, w.part);
    QuotientIs(w.part * (CURVE_B + CURVE_DECIMALS), CURVE_DECIMALS, w.c2);
    QuotientIs(w.ySq * (size - y0), value, w.c1);
    QuotientIs(lambda * (w.c1 + (w.c2 + 2 * w.part)), SCALE, w.c);
    QuotientIs((CURVE_B + CURVE_DECIMALS) * SCALE, CURVE_DECIMALS, B_PLUS);
    QuotientIs(w.ySq * w.ySq, SCALE, w.d1);
    QuotientIs(w.d1 * B_PLUS, SCALE, w.d2);
    QuotientIs(w.d2 * B_PLUS, SCALE, w.d3);
    hide IsQuotient, TruncDiv, Md;
  }

  lemma UnitPrice(x: nat)
    ensures Md(PRICE_DECIMALS, x, PRICE_DECIMALS) == x
  {
    DivCancel(x, PRICE_DECIMALS);
  }

  lemma UnitParameter(x: nat)
    ensures TruncDiv(x * CURVE_A, CURVE_DECIMALS) == x
  {
    QuotientIs(x * CURVE_A, CURVE_DECIMALS, x);
  }

  lemma NatQuotient(x: nat, d: nat)
    requires d > 0
    ensures Md(x, x, d) == TruncDiv(x * x, d)
  {
    MulMonotone(x, 0, x);
  }
}
