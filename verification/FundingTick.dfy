/** What a tick is: how far the cumulative rate moves for a price, an exposure and a pool, and what a rate move charges
    a user for the asset it holds. */
module FundingTick {
  import opened Arith
  import opened Reals
  import opened FusedMulDiv
  import opened EngineState
  import opened EngineSpec
  import opened MatrixRounding
  import opened Settlement
  import opened Ledger
  import opened ClaimDrift

  // ----- The rate -----

  /** The price of one asset in whole stable. */
  function Price(price: nat): real { Ratio(price, ORACLE_DECIMALS) }

  /** The pool's value in stable at the price, its asset side rounded down to a unit. */
  predicate IsValue(pool: Pool, price: nat, value: int)
  {
    && value >= pool.stable
    && (value - pool.stable) * ORACLE_DECIMALS <= pool.asset * price
    && pool.asset * price < (value - pool.stable + 1) * ORACLE_DECIMALS
  }

  /** The exact move: price times the share the exposure's value is of the pool's, per 1e5 parts of the funding
      constant, times the intervals elapsed, at rate scale. */
  function ExactMove(env: Env, exposure: nat, price: nat, value: int, elapsed: nat): real
    requires value > 0 && env.cfg.fundingC > 0 && env.cfg.fundingInterval > 0
  {
    var worth := exposure as real * Price(price);
    Price(price) * (worth * Scale(env, value) * Ratio(elapsed, env.cfg.fundingInterval))
  }

  /** One unit of exposed value as a coefficient: 1e5 * 1e18 over the funding constant and the pool's value. */
  function Scale(env: Env, value: int): real
    requires value > 0 && env.cfg.fundingC > 0
  {
    MulMonotone(value, 1, env.cfg.fundingC);
    Ratio(100_000 * WAD, env.cfg.fundingC * value)
  }

  /** What the four truncations can take from a move. */
  function MoveSlack(env: Env, price: nat, value: int, elapsed: nat): real
    requires value > 0 && env.cfg.fundingC > 0 && env.cfg.fundingInterval > 0
  {
    Price(price) * ((Scale(env, value) + 1.0) * Ratio(elapsed, env.cfg.fundingInterval) + 1.0) + 1.0
  }

  lemma RatioNonNegative(n: nat, d: nat)
    requires d > 0
    ensures Ratio(n, d) >= 0.0
  {}

  /** x rounded down, in reals. */
  predicate RoundsTo(q: nat, x: real) { q as real <= x < q as real + 1.0 }

  /** A floor of a product with a rounded factor: between the exact product and that product with one unit less, less
      one. */
  lemma FloorTimes(q: nat, n: nat, k: real, x: real, slack: real)
    requires k >= 0.0 && x - slack <= n as real <= x && q as real <= n as real * k < q as real + 1.0
    ensures x * k - (slack * k + 1.0) <= q as real <= x * k
  {
    RealMonotone(k, n as real, x);
    RealMonotone(k, x - slack, n as real);
    assert k * (x - slack) == x * k - slack * k;
    assert n as real * k == k * n as real && k * x == x * k;
  }

  /** The four floors of a rate, from the inside out: the exposed value, the coefficient, the elapsed share, the
      price. */
  lemma MoveWithin(P: real, K: real, T: real, E: real, a: nat, c: nat, n: nat, m: nat)
    requires P >= 0.0 && K >= 0.0 && T >= 0.0
    requires RoundsTo(a, E * P) && RoundsTo(c, a as real * K) && RoundsTo(n, c as real * T)
             && RoundsTo(m, n as real * P)
    ensures var exact := P * (E * P * K * T); var slack := P * ((K + 1.0) * T + 1.0) + 1.0;
            exact - slack <= m as real <= exact
  {
    var w := E * P;
    FloorTimes(c, a, K, w, 1.0);
    FloorTimes(n, c, T, w * K, K + 1.0);
    FloorTimes(m, n, P, w * K * T, (K + 1.0) * T + 1.0);
    assert w * K * T * P == P * (w * K * T);
    assert ((K + 1.0) * T + 1.0) * P == P * ((K + 1.0) * T + 1.0);
  }

  lemma RoundedRatio(n: nat, d: nat)
    requires d > 0
    ensures RoundsTo(n / d, Ratio(n, d))
  {
    FloorOf(n, d);
  }

  lemma RatioOfProduct(x: int, y: int, d: int)
    requires d != 0
    ensures Ratio(x * y, d) == x as real * Ratio(y, d)
  {
    assert (x * y) as real == x as real * y as real;
  }

  /** A product over a scale, rounded down, is the floor of the product with the unscaled factor. */
  lemma FloorByRatio(x: nat, y: nat, d: nat)
    requires d > 0
    ensures RoundsTo(Md(x, y, d), x as real * Ratio(y, d))
  {
    MdIsNat(x, y, d);
    RoundedRatio(x * y, d);
    RatioOfProduct(x, y, d);
  }

  /** The price at WAD scale is ten powers of ten up, with no rounding, so multiplying by it is multiplying by the
      price. */
  lemma PriceScale(price: nat, x: nat)
    ensures Md(price, WAD, ORACLE_DECIMALS) == price * 10_000_000_000
    ensures Md(x, Md(price, WAD, ORACLE_DECIMALS), WAD) == Md(x, price, ORACLE_DECIMALS)
    ensures Md(Md(price, WAD, ORACLE_DECIMALS), x, WAD) == Md(x, price, ORACLE_DECIMALS)
  {
    DivCancel(price * 10_000_000_000, ORACLE_DECIMALS);
    assert price * WAD == price * 10_000_000_000 * ORACLE_DECIMALS;
    var t := x * price;
    DivMod(t, ORACLE_DECIMALS);
    QuotientUnique(t * 10_000_000_000, WAD, t / ORACLE_DECIMALS, t % ORACLE_DECIMALS * 10_000_000_000);
    assert x * (price * 10_000_000_000) == t * 10_000_000_000;
    assert price * 10_000_000_000 * x == t * 10_000_000_000;
  }

  /** A rate that was computed, as its four floors. */
  lemma RateFloors(env: Env, s: State, price: nat) returns (value: int, a: nat, c: nat, n: nat)
    requires FundingRate(env, s, price, s.lastOp).Ok? && (s.pool.stable > 0 || s.pool.asset > 0)
    ensures s.lastOp <= env.now && IsValue(s.pool, price, value) && value > 0
    ensures env.cfg.fundingC > 0 && env.cfg.fundingInterval > 0 && env.cfg.fundingC * value > 0
    ensures a == Md(s.exposure.mag, price, ORACLE_DECIMALS) && c == a * (100_000 * WAD) / (env.cfg.fundingC * value)
    ensures n == Md(c, env.now - s.lastOp, env.cfg.fundingInterval)
    ensures FundingRate(env, s, price, s.lastOp) == Ok(Signed(Md(n, price, ORACLE_DECIMALS), s.exposure.pos))
  {
    var priceO := Md(price, WAD, ORACLE_DECIMALS);
    PriceScale(price, s.exposure.mag);
    PriceScale(price, s.pool.asset);
    var worth := Md(s.pool.asset, price, ORACLE_DECIMALS);
    DivMod(s.pool.asset * price, ORACLE_DECIMALS);
    value := worth + s.pool.stable;
    a := Md(s.exposure.mag, price, ORACLE_DECIMALS);
    hide Md;
    var denom := env.cfg.fundingC * value;
    assert denom != 0;
    PositiveFactors(env.cfg.fundingC, value);
    DivMod(a * (100_000 * WAD), denom);
    c := a * (100_000 * WAD) / denom;
    assert a * 100_000 * WAD == a * (100_000 * WAD);
    n := Md(c, env.now - s.lastOp, env.cfg.fundingInterval);
    PriceScale(price, n);
  }

  lemma PositiveFactors(x: nat, y: int)
    requires x * y != 0 && y >= 0
    ensures x > 0 && y > 0 && x * y > 0
  {
    if y > 0 && x > 0 { MulMonotone(y, 1, x); }
  }

  /** A tick, for every price, exposure and pool: the cumulative rate moves in the direction of the exposure, by the
      exact move rounded down by no more than the slack, and not at all on an empty pool or without exposure. */
  lemma TickMovesRate(env: Env, s: State, price: nat) returns (value: int)
    requires UpdateFG(env, s, price).Ok? && s.lastOp != env.now
    ensures s.lastOp < env.now
    ensures var move := UpdateFG(env, s, price).value.rate.Val() - s.rate.Val();
            && (s.exposure.Val() > 0 ==> move >= 0) && (s.exposure.Val() < 0 ==> move <= 0)
            && (s.exposure.Val() == 0 || s.pool == Pool(0, 0) ==> move == 0)
            && (s.pool != Pool(0, 0) ==>
                && IsValue(s.pool, price, value) && value > 0 && env.cfg.fundingC > 0 && env.cfg.fundingInterval > 0
                && var exact := ExactMove(env, Abs(s.exposure.Val()), price, value, env.now - s.lastOp);
                   exact - MoveSlack(env, price, value, env.now - s.lastOp) <= Abs(move) as real <= exact)
  {
    hide AccrueAll, FundingB, FundingRate;
    var rate := FundingRate(env, s, price, s.lastOp).value;
    assert s.lastOp <= env.now by { hide *; RateNeedsPast(env, s, price); }
    value := 1;
    if s.pool == Pool(0, 0) {
      EmptyPoolRate(env, s, price);
    } else {
      value := RateWithin(env, s, price);
    }
  }

  lemma RateNeedsPast(env: Env, s: State, price: nat)
    requires FundingRate(env, s, price, s.lastOp).Ok?
    ensures s.lastOp <= env.now
  {
    hide Md, DivR, MdR;
  }

  lemma EmptyPoolRate(env: Env, s: State, price: nat)
    requires FundingRate(env, s, price, s.lastOp).Ok? && s.pool == Pool(0, 0)
    ensures FundingRate(env, s, price, s.lastOp).value.Val() == 0
  {
    hide Md, DivR, MdR;
  }

  lemma RateWithin(env: Env, s: State, price: nat) returns (value: int)
    requires FundingRate(env, s, price, s.lastOp).Ok? && s.pool != Pool(0, 0)
    ensures s.lastOp <= env.now && IsValue(s.pool, price, value) && value > 0
    ensures env.cfg.fundingC > 0 && env.cfg.fundingInterval > 0
    ensures var rate := FundingRate(env, s, price, s.lastOp).value;
            var exact := ExactMove(env, s.exposure.mag, price, value, env.now - s.lastOp);
            && rate.pos == s.exposure.pos && (s.exposure.mag == 0 ==> rate.mag == 0)
            && exact - MoveSlack(env, price, value, env.now - s.lastOp) <= rate.mag as real <= exact
  {
    hide FundingRate, IsValue;
    var a, c, n;
    value, a, c, n := RateFloors(env, s, price);
    var elapsed := env.now - s.lastOp;
    var P, K, T := Price(price), Scale(env, value), Ratio(elapsed, env.cfg.fundingInterval);
    var E := s.exposure.mag as real;
    RatioNonNegative(price, ORACLE_DECIMALS);
    RatioNonNegative(100_000 * WAD, env.cfg.fundingC * value);
    RatioNonNegative(elapsed, env.cfg.fundingInterval);
    FloorByRatio(s.exposure.mag, price, ORACLE_DECIMALS);
    CoefficientFloor(a, 100_000 * WAD, env.cfg.fundingC * value);
    FloorByRatio(c, elapsed, env.cfg.fundingInterval);
    FloorByRatio(n, price, ORACLE_DECIMALS);
    MoveWithin(P, K, T, E, a, c, n, Md(n, price, ORACLE_DECIMALS));
    if s.exposure.mag == 0 { NothingMoves(price, env.cfg.fundingC * value, elapsed, env.cfg.fundingInterval); }
    hide Md, Ratio, RoundsTo;
  }

  lemma CoefficientFloor(a: nat, k: nat, d: int)
    requires d > 0 && a * k >= 0
    ensures RoundsTo(a * k / d, a as real * Ratio(k, d))
  {
    FloorByRatio(a, k, d);
  }

  lemma NothingMoves(price: nat, d: int, elapsed: nat, interval: nat)
    requires d > 0 && interval > 0
    ensures Md(0, price, ORACLE_DECIMALS) == 0 && 0 * (100_000 * WAD) / d == 0 && Md(0, elapsed, interval) == 0
  {
    DivCancel(0, ORACLE_DECIMALS);
    DivCancel(0, d);
    DivCancel(0, interval);
  }

  // ----- What a move of the rate charges -----

  /** The trader part of a user's funding is its net asset, LP debt included, times the move of the rate since it was
      stamped, truncated toward zero. */
  lemma TraderFundingIs(s: State, user: Address, rate: Signed)
    ensures TraderFunding(s, user, rate).Val()
            == TruncDiv((AssetNet(s.Pos(user)) - s.Lp(user).debtAsset)
                        * (rate.Val() - s.Pos(user).initialFundingRate.Val()), WAD)
  {
    hide Md, TruncDiv, SignedSum, AssetNet, State.Pos, State.Lp;
    var p, lp := s.Pos(user), s.Lp(user);
    var delta := SignedSum(rate, p.initialFundingRate.Neg());
    var exposure := SignedSum(Signed(p.balanceAsset, true), Signed(p.debtAsset + lp.debtAsset, false));
    assert TraderFunding(s, user, rate) == Signed(Md(exposure.mag, delta.mag, WAD), delta.pos == exposure.pos);
    hide TraderFunding;
    ExposedNet(p, lp.debtAsset);
    MovedRate(rate, p.initialFundingRate);
    SignedProduct(exposure, delta, AssetNet(p) - lp.debtAsset, rate.Val() - p.initialFundingRate.Val());
  }

  lemma ExposedNet(p: Position, owed: nat)
    ensures SignedSum(Signed(p.balanceAsset, true), Signed(p.debtAsset + owed, false)).Val() == AssetNet(p) - owed
  {}

  lemma MovedRate(x: Signed, y: Signed)
    ensures SignedSum(x, y.Neg()).Val() == x.Val() - y.Val()
  {}

  lemma SignedProduct(x: Signed, y: Signed, a: int, b: int)
    requires x.Val() == a && y.Val() == b
    ensures Signed(Md(x.mag, y.mag, WAD), y.pos == x.pos).Val() == TruncDiv(a * b, WAD)
  {
    var n := x.mag * y.mag;
    MulMonotone(x.mag, 0, y.mag);
    DivCancel(0, WAD);
    if y.pos == x.pos { assert a * b == n; } else { assert a * b == -n; }
  }

  /** A rate move at row scale is the move times a million, exactly. */
  lemma RowScale(delta: Signed)
    ensures FundingB(delta) == delta.Val() * 1_000_000
  {
    DivCancel(delta.mag * 1_000_000, WAD);
    assert delta.mag * G_DECIMALS == delta.mag * 1_000_000 * WAD;
  }

  lemma TruncatedWithin(n: int, d: int)
    requires d > 0
    ensures Apart(TruncDiv(n, d) as real, Ratio(n, d)) <= 1.0
  {
    TruncDivBounds(n, d);
    if n >= 0 { RatioBetween(n, d, TruncDiv(n, d)); } else { NegatedRatio(n, d); RatioBetween(-n, d, -TruncDiv(n, d)); }
    hide TruncDiv, Ratio;
  }

  lemma NegatedRatio(n: int, d: int)
    requires d != 0
    ensures Ratio(-n, d) == -Ratio(n, d)
  {
    assert (-n) as real == -(n as real);
  }

  /** What a tick adds to the row, against the exact product with row 1 of the matrix. */
  lemma PendingWithin(b: int, entry: int)
    ensures Abs(b * entry - D * PendingG(b, entry)) < D
  {
    TruncDivBounds(b * entry, D);
  }

  lemma RowChargeWithin(lp: LpPosition, b: int, m10: int, m11: int)
    ensures var u := Unwound(lp);
            Abs(RowNumerator(lp, PendingG(b, m10), PendingG(b, m11)) - b * Row(m10, m11, u))
                <= D * (Abs(u.0) + Abs(u.1))
  {
    hide PendingG;
    var u, p0, p1 := Unwound(lp), PendingG(b, m10), PendingG(b, m11);
    PendingWithin(b, m10);
    PendingWithin(b, m11);
    ErrorTimes(b * m10 - D * p0, u.0);
    ErrorTimes(b * m11 - D * p1, u.1);
    ChargeError(b, m10, m11, p0, p1, u.0, u.1);
    assert D * (Abs(u.0) + Abs(u.1)) == D * Abs(u.0) + D * Abs(u.1);
    assert RowNumerator(lp, p0, p1) == (p0 * u.0 + p1 * u.1) * D;
  }

  lemma ErrorTimes(e: int, u: int)
    requires Abs(e) < D
    ensures Abs(e * u) <= D * Abs(u)
  {
    MulMonotone(Abs(u), Abs(e), D);
    assert Abs(e * u) == Abs(e) * Abs(u);
  }

  lemma ChargeError(b: int, x: int, y: int, p: int, q: int, u: int, v: int)
    ensures b * (x * u + y * v) - (p * u + q * v) * D == (b * x - D * p) * u + (b * y - D * q) * v
  {
    calc {
      (b * x - D * p) * u + (b * y - D * q) * v;
      { Distributes(u, b * x, -(D * p)); Distributes(v, b * y, -(D * q)); }
      b * x * u - D * p * u + (b * y * v - D * q * v);
      b * (x * u) + b * (y * v) - (p * u * D + q * v * D);
      b * (x * u + y * v) - (p * u + q * v) * D;
    }
  }

  /** An amount of asset times a move of the rate, unscaled. */
  function Charge(move: int, asset: real): real { Ratio(move, WAD) * asset }

  /** A snapshot's slack at row scale. */
  function ChargeSlack(slack: real): real { Ratio(D, G_DECIMALS) * slack }

  /** A rate move charges an LP its claimed asset times the move, up to the slack of its snapshot and two
      truncations. */
  lemma TickChargesClaim(s: State, user: Address, delta: Signed)
    requires s.Lp(user).snap.RawDet() > 0 && (s.Lp(user).initialStable != 0 || s.Lp(user).initialAsset != 0)
    ensures LpFunding(s, user, FundingB(delta)).Ok? && LpFunding(s, user, 0).Ok?
    ensures Apart((LpFunding(s, user, FundingB(delta)).value - LpFunding(s, user, 0).value) as real,
                  Charge(delta.Val(), Claim(s, user).asset))
            <= ChargeSlack(Slack(s, user)) + 2.0
  {
    hide LpFunding, RowNumerator, RowDenominator, PendingG, FundingB, TruncDiv, Ratio, Apart, Row, Unwound, Claim,
         Slack,
         Charge, ChargeSlack, Mat.RawDet;
    var lp, e, b := s.Lp(user), s.ep.At(s.EpochOf(user)), FundingB(delta);
    RowScale(delta);
    LpFundingValue(s, user, b);
    LpFundingValue(s, user, 0);
    PendingZero(e.m.m10);
    PendingZero(e.m.m11);
    var base := RowNumerator(lp, e.g0 - lp.g0, e.g1 - lp.g1);
    var added := RowNumerator(lp, PendingG(b, e.m.m10), PendingG(b, e.m.m11));
    RowAdds(lp, e.g0 - lp.g0, e.g1 - lp.g1, PendingG(b, e.m.m10), PendingG(b, e.m.m11));
    var den, u := RowDenominator(lp), Unwound(lp);
    AddedWithin(base, added, den);
    RowChargeWithin(lp, b, e.m.m10, e.m.m11);
    ClaimOf(s, user);
    ChargeRatio(added, b, delta.Val(), Row(e.m.m10, e.m.m11, u), lp.snap.RawDet(), Abs(u.0) + Abs(u.1),
                Claim(s, user).asset, Slack(s, user));
    assert RowDenominator(lp) == lp.snap.RawDet() * G_DECIMALS by { hide *; DenominatorIs(lp); }
    ApartChains((TruncDiv(base + added, den) - TruncDiv(base, den)) as real, Ratio(added, den),
                Charge(delta.Val(), Claim(s, user).asset));
  }

  lemma ClaimOf(s: State, user: Address)
    requires s.Lp(user).snap.RawDet() > 0
    ensures var u, det, m := Unwound(s.Lp(user)), s.Lp(user).snap.RawDet(), s.ep.At(s.EpochOf(user)).m;
            Claim(s, user).asset == Ratio(Row(m.m10, m.m11, u), det)
                && Slack(s, user) == Ratio(Abs(u.0) + Abs(u.1), det)
  {
    hide Ratio, Row, Unwound;
  }

  lemma DenominatorIs(lp: LpPosition)
    ensures RowDenominator(lp) == lp.snap.RawDet() * G_DECIMALS
  {}

  lemma ApartChains(x: real, y: real, z: real)
    ensures Apart(x, z) <= Apart(x, y) + Apart(y, z)
  {}

  lemma AddedWithin(n: int, k: int, d: int)
    requires d > 0
    ensures Apart((TruncDiv(n + k, d) - TruncDiv(n, d)) as real, Ratio(k, d)) <= 2.0
  {
    TruncatedWithin(n + k, d);
    TruncatedWithin(n, d);
    RatioAdds(n, k, d);
    hide TruncDiv, Ratio;
  }

  lemma RatioAdds(n: int, k: int, d: int)
    requires d != 0
    ensures Ratio(n + k, d) == Ratio(n, d) + Ratio(k, d)
  {}

  /** The added numerator over its denominator, against the move times the claim. */
  lemma ChargeRatio(added: int, b: int, move: int, row: int, det: int, bound: nat, claim: real, slack: real)
    requires det > 0 && b == move * 1_000_000 && Abs(added - b * row) <= D * bound
    requires claim == Ratio(row, det) && slack == Ratio(bound, det)
    ensures det * G_DECIMALS > 0
    ensures Apart(Ratio(added, det * G_DECIMALS), Charge(move, claim)) <= ChargeSlack(slack)
  {
  }
}
