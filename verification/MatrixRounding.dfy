/** Rounding of the epoch matrices: every update rounds against the LPs, and never below zero. */
module MatrixRounding {
  import opened Arith
  import opened Reals
  import opened FusedMulDiv
  import opened EngineState
  import opened EngineSpec

  const D: int := M_DECIMALS

  predicate NonNegativeMat(m: Mat) { m.m00 >= 0 && m.m01 >= 0 && m.m10 >= 0 && m.m11 >= 0 }

  /** A trade or fee as the matrices see it. */
  datatype MatrixStep = MatrixStep(aX: nat, aY: nat, kind: UpdateKind) {
    /** The side that shrinks never loses more than all of it. */
    predicate Ok() { (kind == LongUpdate ==> aX <= D) && (kind == ShortUpdate ==> aY <= D) }
  }

  lemma GrowTerm(a: int, m: int)
    requires a >= 0 && m >= 0
    ensures var q := TruncDiv(a * m, D); q >= 0 && D * q <= a * m < D * q + D
  {
    MulMonotone(a, 0, m);
    TruncDivBounds(a * m, D);
  }

  lemma ShrinkTerm(a: int, m: int)
    requires 0 <= a <= D && m >= 0
    ensures var c := DivCeil(a * m, D); 0 <= c <= m && D * c - D < a * m <= D * c
  {
    MulMonotone(a, 0, m);
    MulMonotone(m, a, D);
    TruncDivBounds(a * m, D);
    var q := TruncDiv(a * m, D);
    if q > m { MulMonotone(D, m + 1, q); }
    if q == m { assert a * m == D * m; }
  }

  /** The coefficients of the exact update, at matrix scale: the factor on an entry's own row and on the other row. */
  datatype RowFactors = RowFactors(own0: int, other0: int, own1: int, other1: int)

  function Factors(st: MatrixStep): RowFactors
  {
    match st.kind
    case LongUpdate => RowFactors(D, st.aY, D - st.aX, 0)
    case ShortUpdate => RowFactors(D - st.aY, 0, D, st.aX)
    case FeeUpdate => RowFactors(D + st.aX, st.aY, D, 0)
  }

  /** `rounded` is the exact value n/D rounded down by less than one unit. */
  predicate RoundsDown(rounded: int, n: int) { D * rounded <= n < D * rounded + D }

  /** What one column of one step owes: no negative entry, and each entry the exact one rounded down. */
  predicate ColumnOk(st: MatrixStep, x: int, y: int)
  {
    var m := StepMatrix(Mat(x, x, y, y), st.aX, st.aY, st.kind);
    var f := Factors(st);
    && m.m00 == m.m01 >= 0 && m.m10 == m.m11 >= 0
    && RoundsDown(m.m00, f.own0 * x + f.other0 * y) && RoundsDown(m.m10, f.own1 * y + f.other1 * x)
  }

  lemma LongColumn(st: MatrixStep, x: int, y: int)
    requires st.Ok() && x >= 0 && y >= 0 && st.kind == LongUpdate
    ensures ColumnOk(st, x, y)
  {
    hide TruncDiv, DivCeil;
    GrowTerm(st.aY, y);
    ShrinkTerm(st.aX, y);
    assert (D - st.aX) * y == D * y - st.aX * y;
  }

  lemma ShortColumn(st: MatrixStep, x: int, y: int)
    requires st.Ok() && x >= 0 && y >= 0 && st.kind == ShortUpdate
    ensures ColumnOk(st, x, y)
  {
    hide TruncDiv, DivCeil;
    GrowTerm(st.aX, x);
    ShrinkTerm(st.aY, x);
    assert (D - st.aY) * x == D * x - st.aY * x;
  }

  lemma FeeColumn(st: MatrixStep, x: int, y: int)
    requires st.Ok() && x >= 0 && y >= 0 && st.kind == FeeUpdate
    ensures ColumnOk(st, x, y)
  {
    hide TruncDiv, DivCeil;
    MulMonotone(st.aY, 0, y);
    MulMonotone(st.aX, 0, x);
    TruncDivBounds(st.aY * y + st.aX * x, D);
    assert (D + st.aX) * x == D * x + st.aX * x;
  }

  /** One column of one step: stable entry x, asset entry y. */
  lemma ColumnStep(st: MatrixStep, x: int, y: int)
    requires st.Ok() && x >= 0 && y >= 0
    ensures ColumnOk(st, x, y)
  {
    hide ColumnOk;
    match st.kind
    case LongUpdate => LongColumn(st, x, y);
    case ShortUpdate => ShortColumn(st, x, y);
    case FeeUpdate => FeeColumn(st, x, y);
  }

  /** One step keeps every entry non-negative, and rounds every entry of the exact product A*M down by less than one
      unit. */
  lemma StepRoundsAgainstLps(st: MatrixStep, m: Mat)
    requires st.Ok() && NonNegativeMat(m)
    ensures var r := StepMatrix(m, st.aX, st.aY, st.kind);
            var f := Factors(st);
            && NonNegativeMat(r)
            && RoundsDown(r.m00, f.own0 * m.m00 + f.other0 * m.m10)
               && RoundsDown(r.m01, f.own0 * m.m01 + f.other0 * m.m11)
            && RoundsDown(r.m10, f.own1 * m.m10 + f.other1 * m.m00)
               && RoundsDown(r.m11, f.own1 * m.m11 + f.other1 * m.m01)
  {
    hide TruncDiv, DivCeil, RoundsDown;
    ColumnStep(st, m.m00, m.m10);
    ColumnStep(st, m.m01, m.m11);
  }

  // ----- Whole runs -----

  predicate AllOk(steps: seq<MatrixStep>) { forall i :: 0 <= i < |steps| ==> steps[i].Ok() }

  function RunMatrix(steps: seq<MatrixStep>): Mat
  {
    if steps == [] then IDENTITY
    else
      var last := steps[|steps| - 1];
      StepMatrix(RunMatrix(steps[..|steps| - 1]), last.aX, last.aY, last.kind)
  }

  /** The exact product of the same coefficients, without rounding, at matrix scale. */
  datatype ExactMat = ExactMat(m00: real, m01: real, m10: real, m11: real)

  function Frac(n: int): real { n as real / D as real }

  function ExactStep(f: RowFactors, m: ExactMat): ExactMat
  {
    ExactMat(Frac(f.own0) * m.m00 + Frac(f.other0) * m.m10, Frac(f.own0) * m.m01 + Frac(f.other0) * m.m11,
             Frac(f.own1) * m.m10 + Frac(f.other1) * m.m00, Frac(f.own1) * m.m11 + Frac(f.other1) * m.m01)
  }

  function ExactRun(steps: seq<MatrixStep>): ExactMat
  {
    if steps == [] then ExactMat(D as real, 0.0, 0.0, D as real)
    else ExactStep(Factors(steps[|steps| - 1]), ExactRun(steps[..|steps| - 1]))
  }

  lemma EntryBelow(r: int, own: int, other: int, x: int, y: int, ex: real, ey: real)
    requires own >= 0 && other >= 0 && x as real <= ex && y as real <= ey
    requires RoundsDown(r, own * x + other * y)
    ensures r as real <= Frac(own) * ex + Frac(other) * ey
  {
    ScaledEntry(own, x, ex);
    ScaledEntry(other, y, ey);
    assert (own * x + other * y) as real == (own * x) as real + (other * y) as real;
    assert (D * r) as real <= (own * x + other * y) as real;
  }

  lemma ScaledEntry(k: int, x: int, ex: real)
    requires k >= 0 && x as real <= ex
    ensures (k * x) as real <= D as real * (Frac(k) * ex)
  {
    var f := Frac(k);
    assert D as real * f == k as real;
    assert D as real * (f * ex) == (D as real * f) * ex;
    RealMonotone(k as real, x as real, ex);
    assert (k * x) as real == k as real * x as real;
  }

  lemma FactorsNonNegative(st: MatrixStep)
    requires st.Ok()
    ensures var f := Factors(st); f.own0 >= 0 && f.other0 >= 0 && f.own1 >= 0 && f.other1 >= 0
  {}

  predicate Below(m: Mat, e: ExactMat)
  {
    m.m00 as real <= e.m00 && m.m01 as real <= e.m01 && m.m10 as real <= e.m10 && m.m11 as real <= e.m11
  }

  /** A row rounded down from entries below the exact ones is below the exact row. */
  lemma RowBelow(r0: int, r1: int, own: int, other: int, x0: int, x1: int, y0: int, y1: int, ex0: real, ex1: real,
                 ey0: real, ey1: real)
    requires own >= 0 && other >= 0
    requires x0 as real <= ex0 && y0 as real <= ey0 && x1 as real <= ex1 && y1 as real <= ey1
    requires RoundsDown(r0, own * x0 + other * y0) && RoundsDown(r1, own * x1 + other * y1)
    ensures r0 as real <= Frac(own) * ex0 + Frac(other) * ey0
    ensures r1 as real <= Frac(own) * ex1 + Frac(other) * ey1
  {
    hide Frac, RoundsDown;
    EntryBelow(r0, own, other, x0, y0, ex0, ey0);
    EntryBelow(r1, own, other, x1, y1, ex1, ey1);
  }

  lemma StepStaysBelow(st: MatrixStep, m: Mat, e: ExactMat)
    requires st.Ok() && NonNegativeMat(m) && Below(m, e)
    ensures Below(StepMatrix(m, st.aX, st.aY, st.kind), ExactStep(Factors(st), e))
  {
    hide StepMatrix, Frac, RoundsDown, Factors;
    FactorsNonNegative(st);
    StepRoundsAgainstLps(st, m);
    var f, r := Factors(st), StepMatrix(m, st.aX, st.aY, st.kind);
    RowBelow(r.m00, r.m01, f.own0, f.other0, m.m00, m.m01, m.m10, m.m11, e.m00, e.m01, e.m10, e.m11);
    RowBelow(r.m10, r.m11, f.own1, f.other1, m.m10, m.m11, m.m00, m.m01, e.m10, e.m11, e.m00, e.m01);
  }

  /** From the identity, over every run, the integer matrix has no negative entry and never exceeds
      the exact product of the same coefficients in any entry: rounding never favours the LPs. */
  lemma {:induction false} RunNeverFavoursLps(steps: seq<MatrixStep>)
    requires AllOk(steps)
    ensures NonNegativeMat(RunMatrix(steps)) && Below(RunMatrix(steps), ExactRun(steps))
  {
    hide StepMatrix, ExactStep, Factors;
    if steps != [] {
      var init, last := steps[..|steps| - 1], steps[|steps| - 1];
      RunNeverFavoursLps(init);
      StepRoundsAgainstLps(last, RunMatrix(init));
      StepStaysBelow(last, RunMatrix(init), ExactRun(init));
    }
  }

  // ----- The matrices an engine can hold -----

  /** An epoch slot's matrix: empty, or what some run of steps makes of the identity. */
  ghost predicate Woven(m: Mat) { m == ZERO_MAT || exists steps :: AllOk(steps) && m == RunMatrix(steps) }

  lemma IdentityIsWoven()
    ensures Woven(IDENTITY)
  {
    assert AllOk([]) && RunMatrix([]) == IDENTITY;
  }

  lemma StepIsWoven(st: MatrixStep, m: Mat)
    requires st.Ok() && Woven(m) && m != ZERO_MAT
    ensures Woven(StepMatrix(m, st.aX, st.aY, st.kind))
  {
    hide StepMatrix;
    var steps :| AllOk(steps) && m == RunMatrix(steps);
    var longer := steps + [st];
    assert longer[..|longer| - 1] == steps && AllOk(longer);
    assert RunMatrix(longer) == StepMatrix(m, st.aX, st.aY, st.kind);
  }
}
