/** The cubic solver of the standalone ABI: eight sign branches, a zero clamp, and a stopping test. */
module Newton {
  import opened Arith

  const SCALE: int := 1_000_000_000_000_000_000
  const CONVERGENCE_THRESHOLD: int := 10_000_000_000
  const MAX_STEPS: nat := 255

  /** A cubic a*x^3 + b*x^2 + c*x + d. */
  datatype Cubic = Cubic(a: nat, b: int, c: int, d: int)

  /** |lhs - rhs|, and whether lhs is at least rhs. */
  function DiffSigned(lhs: int, rhs: int): (int, bool)
  {
    if lhs >= rhs then (lhs - rhs, true) else (rhs - lhs, false)
  }

  function ApplyNewtonStep(x: int, fx: int, fxSign: bool, fpx: int, fpxSign: bool, requirePositive: bool): Result<int>
  {
    if fpx == 0 then Err("DIV0")
    else
      var step := TruncDiv(fx * SCALE, fpx);
      if fxSign == fpxSign then
        if x > step then Ok(x - step)
        else if requirePositive then Err("NM1") else Ok(0)
      else Ok(x + step)
  }

  /** The fixed-point terms every branch shares; b, c and d enter by magnitude. */
  datatype Terms = Terms(ax2: int, ax3: int, bx2: int, bx: int, cx: int)

  function TermsAt(q: Cubic, x: int): Terms
  {
    var x2 := TruncDiv(x * x, SCALE);
    var x3 := TruncDiv(x2 * x, SCALE);
    Terms(TruncDiv(q.a * x2, SCALE), TruncDiv(q.a * x3, SCALE),
          TruncDiv(Abs(q.b) * x2, SCALE), TruncDiv(Abs(q.b) * x, SCALE), TruncDiv(Abs(q.c) * x, SCALE))
  }

  /** One iteration, branch by branch. */
  function BranchStep(q: Cubic, x: int, t: Terms): Result<int>
  {
    var b, c, d := Abs(q.b), Abs(q.c), Abs(q.d);
    var bSign, cSign, dSign := q.b >= 0, q.c >= 0, q.d >= 0;
    if bSign && cSign && dSign then
      ApplyNewtonStep(x, t.ax3 + t.bx2 + t.cx + d, true, 3 * t.ax2 + 2 * t.bx + c, true, true)
    else if bSign && !cSign && dSign then
      var (fx, fs) := DiffSigned(t.ax3 + t.bx2 + d, t.cx);
      var (fpx, fps) := DiffSigned(3 * t.ax2 + 2 * t.bx, c);
      ApplyNewtonStep(x, fx, fs, fpx, fps, false)
    else if !bSign && cSign && dSign then
      var (fx, fs) := DiffSigned(t.ax3 + t.cx + d, t.bx2);
      var (fpx, fps) := DiffSigned(3 * t.ax2 + c, 2 * t.bx);
      ApplyNewtonStep(x, fx, fs, fpx, fps, true)
    else if !bSign && !cSign && dSign then
      var (fx, fs) := DiffSigned(t.ax3 + d, t.bx2 + t.cx);
      var (fpx, fps) := DiffSigned(3 * t.ax2, 2 * t.bx + c);
      ApplyNewtonStep(x, fx, fs, fpx, fps, false)
    else if bSign && cSign && !dSign then
      var (fx, fs) := DiffSigned(t.ax3 + t.bx2 + t.cx, d);
      ApplyNewtonStep(x, fx, fs, 3 * t.ax2 + 2 * t.bx + c, true, false)
    else if bSign && !cSign && !dSign then
      var (fx, fs) := DiffSigned(t.ax3 + t.bx2, d + t.cx);
      var (fpx, fps) := DiffSigned(3 * t.ax2 + 2 * t.bx, c);
      ApplyNewtonStep(x, fx, fs, fpx, fps, false)
    else if !bSign && cSign && !dSign then
      var (fx, fs) := DiffSigned(t.ax3 + t.cx, d + t.bx2);
      var (fpx, fps) := DiffSigned(3 * t.ax2 + c, 2 * t.bx);
      ApplyNewtonStep(x, fx, fs, fpx, fps, false)
    else
      var (fx, fs) := DiffSigned(t.ax3, d + t.bx2 + t.cx);
      var (fpx, fps) := DiffSigned(3 * t.ax2, 2 * t.bx + c);
      ApplyNewtonStep(x, fx, fs, fpx, fps, false)
  }

  // ----- The one step that all eight branches are -----

  function SignOf(v: int): int { if v >= 0 then 1 else -1 }

  /** The signed value of the cubic at x, in the engine's fixed point. */
  function Value(q: Cubic, t: Terms): int
  {
    t.ax3 + SignOf(q.b) * t.bx2 + SignOf(q.c) * t.cx + q.d
  }

  /** The signed derivative at x. */
  function Slope(q: Cubic, t: Terms): int
  {
    3 * t.ax2 + SignOf(q.b) * (2 * t.bx) + q.c
  }

  /** The two sign patterns that revert rather than clamp. */
  predicate Reverting(q: Cubic) { q.c >= 0 && q.d >= 0 }

  /** The unbranched step: x - trunc(f*1e18/f'), clamped at zero. A zero value on the positive side moves nowhere. */
  function SignedStep(q: Cubic, x: int, f: int, fp: int): Result<int>
  {
    if fp == 0 then Err("DIV0")
    else
      var next := x - TruncDiv(f * SCALE, fp);
      if next > 0 then Ok(next)
      else if Reverting(q) && (f >= 0) == (fp >= 0) then Err("NM1")
      else Ok(0)
  }

  predicate NonNegative(t: Terms)
  {
    t.ax2 >= 0 && t.ax3 >= 0 && t.bx2 >= 0 && t.bx >= 0 && t.cx >= 0
  }

  lemma ScaledProductNonNegative(x: int, y: int)
    requires x >= 0 && y >= 0
    ensures TruncDiv(x * y, SCALE) >= 0
  {
    MulMonotone(x, 0, y);
    TruncDivBounds(x * y, SCALE);
  }

  lemma TermsAreNonNegative(q: Cubic, x: int)
    requires x >= 0
    ensures NonNegative(TermsAt(q, x))
  {
    hide TruncDiv;
    var x2 := TruncDiv(x * x, SCALE);
    ScaledProductNonNegative(x, x);
    ScaledProductNonNegative(x2, x);
    var x3 := TruncDiv(x2 * x, SCALE);
    ScaledProductNonNegative(q.a, x2);
    ScaledProductNonNegative(q.a, x3);
    ScaledProductNonNegative(Abs(q.b), x2);
    ScaledProductNonNegative(Abs(q.b), x);
    ScaledProductNonNegative(Abs(q.c), x);
  }

  /** A quotient of magnitudes, signed, is the truncated quotient of the signed values. */
  lemma SignedQuotient(f: int, fp: int)
    requires fp != 0
    ensures TruncDiv(Abs(f) * SCALE, Abs(fp)) >= 0
    ensures TruncDiv(f * SCALE, fp)
            == if (f >= 0) == (fp >= 0) then TruncDiv(Abs(f) * SCALE, Abs(fp)) else -TruncDiv(Abs(f) * SCALE, Abs(fp))
  {
    DivMod(Abs(f) * SCALE, Abs(fp));
    assert Abs(f * SCALE) == Abs(f) * SCALE;
  }

  /** Every branch hands the step the magnitude and the sign of the same f and f'. */
  lemma BranchComputesValueAndSlope(q: Cubic, x: int, t: Terms)
    requires NonNegative(t)
    ensures var f, fp := Value(q, t), Slope(q, t);
            BranchStep(q, x, t) == ApplyNewtonStep(x, Abs(f), f >= 0, Abs(fp), fp >= 0, Reverting(q))
  {
    hide ApplyNewtonStep;
  }

  lemma StepIsSigned(q: Cubic, x: int, f: int, fp: int)
    requires x >= 0
    ensures ApplyNewtonStep(x, Abs(f), f >= 0, Abs(fp), fp >= 0, Reverting(q)) == SignedStep(q, x, f, fp)
  {
    hide TruncDiv;
    if fp != 0 {
      SignedQuotient(f, fp);
    }
  }

  function Step(q: Cubic, x: int): Result<int> { BranchStep(q, x, TermsAt(q, x)) }

  /** All eight branches are one step: the same signed f and f', truncated and clamped at zero,
      except that the two branches with c >= 0 and d >= 0 revert where the others clamp. */
  lemma EightBranchesAreOneStep(q: Cubic, x: int)
    requires x >= 0
    ensures var t := TermsAt(q, x);
            Step(q, x) == SignedStep(q, x, Value(q, t), Slope(q, t))
    ensures Step(q, x).Ok? ==> Step(q, x).value >= 0
  {
    hide TermsAt;
    hide BranchStep;
    hide ApplyNewtonStep;
    hide Value;
    hide Slope;
    var t := TermsAt(q, x);
    TermsAreNonNegative(q, x);
    BranchComputesValueAndSlope(q, x, t);
    StepIsSigned(q, x, Value(q, t), Slope(q, t));
  }

  /** The solver: step until a move is at most the threshold, at most `fuel` times. */
  function Solve(q: Cubic, x: int, fuel: nat): Result<int>
    decreases fuel
  {
    if fuel == 0 then Err("NM2")
    else
      var next :- Step(q, x);
      if Abs(next - x) <= CONVERGENCE_THRESHOLD then Ok(next) else Solve(q, next, fuel - 1)
  }

  /** Where the iteration stands after n steps, none of which stopped it. */
  function Orbit(q: Cubic, guess: int, n: nat): Result<int>
  {
    if n == 0 then Ok(guess)
    else
      var x :- Orbit(q, guess, n - 1);
      var next :- Step(q, x);
      if Abs(next - x) <= CONVERGENCE_THRESHOLD then Err("STOPPED") else Ok(next)
  }

  method NewtonCubic(guess: nat, q: Cubic) returns (r: Result<int>)
    ensures r == Solve(q, guess, MAX_STEPS)
  {
    hide Step;
    var x: int := guess;
    for i := 0 to MAX_STEPS
      invariant Solve(q, guess, MAX_STEPS) == Solve(q, x, MAX_STEPS - i)
    {
      var xPrev := x;
      var step := Step(q, xPrev);
      if step.Err? {
        return Err(step.code);
      }
      x := step.value;
      var diff := if x > xPrev then x - xPrev else xPrev - x;
      if diff <= CONVERGENCE_THRESHOLD {
        return Ok(x);
      }
    }
    return Err("NM2");
  }

  /** A quotient within the threshold bounds its numerator. */
  lemma NumeratorBound(n: int, d: int, move: int)
    requires d > 0 && n >= 0 && move == TruncDiv(n, d) && move <= CONVERGENCE_THRESHOLD
    ensures n < (CONVERGENCE_THRESHOLD + 1) * d
  {
    TruncDivBounds(n, d);
    hide TruncDiv;
    MulMonotone(d, move + 1, CONVERGENCE_THRESHOLD + 1);
    assert d * (move + 1) == d * move + d;
  }

  /** A step that was not clamped and moved at most the threshold leaves f small against f'. */
  lemma SmallMoveSmallResidual(f: int, fp: int, move: int)
    requires fp != 0 && move == TruncDiv(f * SCALE, fp) && Abs(move) <= CONVERGENCE_THRESHOLD
    ensures Abs(f) * SCALE < (CONVERGENCE_THRESHOLD + 1) * Abs(fp)
  {
    hide TruncDiv;
    SignedQuotient(f, fp);
    NumeratorBound(Abs(f) * SCALE, Abs(fp), TruncDiv(Abs(f) * SCALE, Abs(fp)));
  }

  /** What a returned value means: it is non-negative, and it is one step of at most 1e10 away from a
      non-negative iterate; unless that step was clamped at zero, |f|*1e18 < (1e10+1)*|f'| there. */
  lemma {:induction false} ReturnedValueIsNearlyARoot(q: Cubic, guess: nat, fuel: nat) returns (n: nat, xPrev: int)
    requires Solve(q, guess, fuel).Ok?
    ensures n < fuel && Orbit(q, guess, n) == Ok(xPrev) && xPrev >= 0
    ensures var x := Solve(q, guess, fuel).value;
            && x >= 0 && Step(q, xPrev) == Ok(x) && Abs(x - xPrev) <= CONVERGENCE_THRESHOLD
    ensures var f, fp := Value(q, TermsAt(q, xPrev)), Slope(q, TermsAt(q, xPrev));
            && fp != 0
            && (xPrev - TruncDiv(f * SCALE, fp) >= 0
                ==> Abs(f) * SCALE < (CONVERGENCE_THRESHOLD + 1) * Abs(fp))
    decreases fuel
  {
    hide TermsAt;
    hide BranchStep;
    hide Value;
    hide Slope;
    hide TruncDiv;
    EightBranchesAreOneStep(q, guess);
    var next := Step(q, guess).value;
    if Abs(next - guess) <= CONVERGENCE_THRESHOLD {
      n, xPrev := 0, guess;
      var f, fp := Value(q, TermsAt(q, xPrev)), Slope(q, TermsAt(q, xPrev));
      if xPrev - TruncDiv(f * SCALE, fp) >= 0 {
        SmallMoveSmallResidual(f, fp, TruncDiv(f * SCALE, fp));
      }
    } else {
      n, xPrev := ReturnedValueIsNearlyARoot(q, next, fuel - 1);
      OrbitShift(q, guess, next, n);
      n := n + 1;
    }
  }

  lemma {:induction false} OrbitShift(q: Cubic, guess: int, next: int, n: nat)
    requires Step(q, guess) == Ok(next) && Abs(next - guess) > CONVERGENCE_THRESHOLD
    ensures Orbit(q, guess, n + 1) == Orbit(q, next, n)
  {
    hide Step;
    if n > 0 {
      OrbitShift(q, guess, next, n - 1);
    } else {
      assert Orbit(q, guess, 0) == Ok(guess);
    }
  }

  // ----- The solver of the four curve functions -----

  /** The value the unbranched solver computes, with signed coefficients throughout. */
  function SignedValue(q: Cubic, x: int): int
  {
    var x2 := TruncDiv(x * x, SCALE);
    var x3 := TruncDiv(x2 * x, SCALE);
    TruncDiv(q.a * x3, SCALE) + TruncDiv(q.b * x2, SCALE) + TruncDiv(q.c * x, SCALE) + q.d
  }

  /** Its slope, which multiplies by three and by two before it truncates. */
  function SignedSlope(q: Cubic, x: int): int
  {
    var x2 := TruncDiv(x * x, SCALE);
    TruncDiv(3 * q.a * x2, SCALE) + TruncDiv(2 * q.b * x, SCALE) + q.c
  }

  /** One step: no branches, no clamp, and iterates may go negative. */
  function FreeStep(q: Cubic, x: int): Result<int>
  {
    if SignedSlope(q, x) == 0 then Err("DIV0") else Ok(x - TruncDiv(SignedValue(q, x) * SCALE, SignedSlope(q, x)))
  }

  function SolveSigned(q: Cubic, x: int, fuel: nat): Result<int>
    decreases fuel
  {
    if fuel == 0 then Err("NM2")
    else
      var next :- FreeStep(q, x);
      if Abs(next - x) <= CONVERGENCE_THRESHOLD then Ok(next) else SolveSigned(q, next, fuel - 1)
  }

  method NewtonCubicSigned(guess: int, q: Cubic) returns (r: Result<int>)
    ensures r == SolveSigned(q, guess, MAX_STEPS)
  {
    hide SignedValue, SignedSlope;
    var x := guess;
    for i := 0 to MAX_STEPS
      invariant SolveSigned(q, guess, MAX_STEPS) == SolveSigned(q, x, MAX_STEPS - i)
    {
      var xPrev := x;
      var fx, fpx := SignedValue(q, xPrev), SignedSlope(q, xPrev);
      if fpx == 0 {
        return Err("DIV0");
      }
      x := xPrev - TruncDiv(fx * SCALE, fpx);
      var diff := if x > xPrev then x - xPrev else xPrev - x;
      if diff <= CONVERGENCE_THRESHOLD {
        return Ok(x);
      }
    }
    return Err("NM2");
  }

  /** What the engine's solver returns is one step of at most 1e10 away from an iterate where |f|*1e18 < (1e10+1)*|f'|,
      with no exception, because nothing is clamped. */
  lemma {:induction false} SignedReturnIsNearlyARoot(q: Cubic, guess: int, fuel: nat) returns (xPrev: int)
    requires SolveSigned(q, guess, fuel).Ok?
    ensures var x := SolveSigned(q, guess, fuel).value;
            FreeStep(q, xPrev) == Ok(x)
            && Abs(x - xPrev) <= CONVERGENCE_THRESHOLD
    ensures SignedSlope(q, xPrev) != 0
    ensures Abs(SignedValue(q, xPrev)) * SCALE < (CONVERGENCE_THRESHOLD + 1) * Abs(SignedSlope(q, xPrev))
    decreases fuel
  {
    hide SignedValue, SignedSlope, TruncDiv;
    var next := FreeStep(q, guess).value;
    if Abs(next - guess) <= CONVERGENCE_THRESHOLD {
      xPrev := guess;
      SmallMoveSmallResidual(SignedValue(q, guess), SignedSlope(q, guess),
                             TruncDiv(SignedValue(q, guess) * SCALE, SignedSlope(q, guess)));
    } else {
      xPrev := SignedReturnIsNearlyARoot(q, next, fuel - 1);
    }
  }

  lemma SignedTerm(k: int, y: int)
    requires y >= 0
    ensures TruncDiv(k * y, SCALE) == SignOf(k) * TruncDiv(Abs(k) * y, SCALE)
  {
    MulMonotone(y, 0, Abs(k));
    assert Abs(k * y) == Abs(k) * y;
    DivCancel(0, SCALE);
  }

  /** Multiplying before truncating instead of after gains less than the multiplier. */
  lemma ScaledTruncation(n: int, m: nat)
    requires n >= 0 && m > 0
    ensures m * n >= 0 && 0 <= TruncDiv(m * n, SCALE) - m * TruncDiv(n, SCALE) < m
  {
    hide TruncDiv;
    var low := TruncDiv(n, SCALE);
    TruncDivBounds(n, SCALE);
    ProductBounds(n, m, low);
    TruncDivBounds(m * n, SCALE);
  }

  lemma ProductBounds(n: int, m: nat, low: int)
    requires n >= 0 && SCALE * low <= n < SCALE * low + SCALE
    ensures m * n >= 0 && SCALE * (m * low) <= m * n <= SCALE * (m * low) + SCALE * m - m
  {
    MulMonotone(m, 0, n);
    MulMonotone(m, SCALE * low, n);
    MulMonotone(m, n, SCALE * low + SCALE - 1);
  }

  lemma SlopeTerm(m: nat, k: int, y: int)
    requires y >= 0 && m > 0
    ensures Abs(TruncDiv(m * k * y, SCALE) - SignOf(k) * (m * TruncDiv(Abs(k) * y, SCALE))) < m
  {
    hide TruncDiv;
    MulMonotone(y, 0, Abs(k));
    SignedTerm(m * k, y);
    assert Abs(m * k) * y == m * (Abs(k) * y);
    ScaledTruncation(Abs(k) * y, m);
    if k == 0 {
      assert m * k == 0;
    } else {
      SameSign(m, k);
    }
  }

  lemma SameSign(m: nat, k: int)
    requires m > 0 && k != 0
    ensures SignOf(m * k) == SignOf(k) && Abs(m * k) == m * Abs(k)
  {
    MulMonotone(m, 1, Abs(k));
  }

  /** At a non-negative point the two solvers see the same value of the cubic, and slopes at most three units apart. */
  lemma SolversSeeTheSameCubic(q: Cubic, x: int)
    requires x >= 0
    ensures SignedValue(q, x) == Value(q, TermsAt(q, x))
    ensures Abs(SignedSlope(q, x) - Slope(q, TermsAt(q, x))) <= 3
  {
    hide TruncDiv;
    var x2 := TruncDiv(x * x, SCALE);
    ScaledProductNonNegative(x, x);
    SignedTerm(q.b, x2);
    SignedTerm(q.c, x);
    SlopeTerm(3, q.a, x2);
    SlopeTerm(2, q.b, x);
  }
}
