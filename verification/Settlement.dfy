/** Funding settlement: what a user is shown before it equals what is written by it, refreshing a
    snapshot moves no value, and realising a profit leaves exactly none. */
module Settlement {
  import opened Arith
  import opened FusedMulDiv
  import opened EngineState
  import opened EngineSpec
  import opened EngineOps
  import opened Pinning

  /** Two results agree when both revert alike, or both succeed with the same signed value. */
  predicate Agree(a: Result<Signed>, b: Result<Signed>)
  {
    if a.Ok? then b.Ok? && a.value.Val() == b.value.Val() else b.Err? && b.code == a.code
  }

  // ----- Values, not pairs -----

  lemma MdZero(x: nat, y: nat, c: nat)
    requires c > 0 && (x == 0 || y == 0)
    ensures Md(x, y, c) == 0
  {
    DivCancel(0, c);
  }

  lemma FundingBByValue(x: Signed, y: Signed)
    requires x.Val() == y.Val()
    ensures FundingB(x) == FundingB(y)
    ensures x.Val() == 0 ==> FundingB(x) == 0
  {
    SameValue(x, y);
    if x.mag == 0 { MdZero(0, G_DECIMALS, WAD); }
  }

  lemma PendingZero(entry: int)
    ensures PendingG(0, entry) == 0
  {
    DivCancel(0, M_DECIMALS);
  }

  lemma TraderFundingByValue(s: State, user: Address, x: Signed, y: Signed)
    requires x.Val() == y.Val()
    ensures TraderFunding(s, user, x).Val() == TraderFunding(s, user, y).Val()
    ensures x.Val() == s.Pos(user).initialFundingRate.Val() ==> TraderFunding(s, user, x).Val() == 0
  {
    hide Md, SignedSum;
    var p, lp := s.Pos(user), s.Lp(user);
    var dx, dy := SignedSum(x, p.initialFundingRate.Neg()), SignedSum(y, p.initialFundingRate.Neg());
    var exposure := SignedSum(Signed(p.balanceAsset, true), Signed(p.debtAsset + lp.debtAsset, false));
    SameValue(dx, dy);
    if dx.mag == 0 { MdZero(exposure.mag, 0, WAD); }
  }

  /** The fee depends on the rate's value alone. */
  lemma FundingFeeByValue(s: State, user: Address, x: Signed, y: Signed)
    requires x.Val() == y.Val()
    ensures Agree(FundingFeeWith(s, user, x), FundingFeeWith(s, user, y))
  {
    hide LpFunding, TraderFunding, SignedSum, FundingB;
    FundingBByValue(SignedSum(x, s.rate.Neg()), SignedSum(y, s.rate.Neg()));
    TraderFundingByValue(s, user, x, y);
  }

  lemma PnlByValue(env: Env, pool: Pool, bs: nat, ba: nat, ds: nat, da: nat, x: Signed, y: Signed, price: nat,
                   useSpot: bool)
    requires x.Val() == y.Val()
    ensures Agree(CalcPnl(env, pool, bs, ba, ds, da, x, price, useSpot),
                  CalcPnl(env, pool, bs, ba, ds, da, y, price, useSpot))
  {
    hide AssetValue, SignedSum;
  }

  lemma MarginByValue(env: Env, pool: Pool, bs: nat, ba: nat, ds: nat, da: nat, x: Signed, y: Signed, price: nat,
                      collateral: nat)
    requires x.Val() == y.Val()
    ensures HypotheticalMr(env, pool, bs, ba, ds, da, x, price, collateral)
            == HypotheticalMr(env, pool, bs, ba, ds, da, y, price, collateral)
  {
    hide CalcPnl, SignedSum, Md, MdR;
    PnlByValue(env, pool, bs, ba, ds, da, x, y, price, true);
    var p, q := CalcPnl(env, pool, bs, ba, ds, da, x, price, true), CalcPnl(env, pool, bs, ba, ds, da, y, price, true);
    if p.Ok? {
      SameValue(SignedSum(Signed(collateral, true), p.value), SignedSum(Signed(collateral, true), q.value));
    }
  }

  // ----- Funding settled in this block accrues nothing more -----

  lemma SettledRateIsZero(env: Env, s: State, price: nat)
    requires FundingRate(env, s, price, env.now).Ok?
    ensures FundingRate(env, s, price, env.now).value.Val() == 0
  {
    hide Md, DivR;
    if s.pool.asset + s.pool.stable != 0 {
      var priceO := Md(price, WAD, ORACLE_DECIMALS);
      var raw := Md(s.exposure.mag, priceO, WAD) * 100_000 * WAD;
      var denom := env.cfg.fundingC * (Md(s.pool.asset, priceO, WAD) + s.pool.stable);
      MdZero(DivR(raw, denom).value, 0, env.cfg.fundingInterval);
      MdZero(priceO, 0, WAD);
    }
  }

  /** Once a rate can be computed for one past timestamp it can be computed for every other: only the elapsed time
      differs. */
  lemma RateStillComputes(env: Env, s: State, t: State, price: nat, timestamp: nat)
    requires FundingRate(env, s, price, timestamp).Ok? && t.pool == s.pool && t.exposure == s.exposure
    ensures FundingRate(env, t, price, env.now).Ok?
  {
    hide Md;
  }

  // ----- Preview equals settlement -----

  /** The epoch an LP is pinned to has not decayed to an uninitialised corner. Vacuous for a pure trader. */
  predicate EpochUsable(s: State, user: Address)
  {
    (s.Lp(user).initialStable != 0 || s.Lp(user).initialAsset != 0) ==> s.ep.At(s.EpochOf(user)).m.m00 != 0
  }

  /** A pinned, usable epoch is live, so the fan-out of a tick reaches it. */
  lemma PinnedEpochIsLive(s: State, user: Address)
    requires Inv(s) && s.Active(user) && s.ep.At(s.EpochOf(user)).m.m00 != 0
    ensures s.ep.InWindow(s.EpochOf(user)) && s.ep.Live(s.EpochOf(user))
  {
    PinnedIsReferenced(s, user);
  }

  /** What accrual writes into a user's epoch is what the preview adds on top of it. */
  lemma AccrualWritesPending(s: State, t: State, user: Address, b: int)
    requires Inv(s) && EpochUsable(s, user)
    requires t.lps == s.lps && t.lpEpoch == s.lpEpoch && t.ep == AccrueAll(s.ep, b)
    ensures LpFunding(t, user, 0) == LpFunding(s, user, b)
  {
    hide RecoverFundingStar, PendingG, Inv, WindowOk;
    var lp := s.Lp(user);
    if lp.initialStable != 0 || lp.initialAsset != 0 {
      SnapshotIsOk(s, user);
      PinnedEpochIsLive(s, user);
      var e := s.ep.At(s.EpochOf(user));
      assert t.ep.At(t.EpochOf(user)) == AccrueEpoch(e, b);
      PendingZero(e.m.m10);
      PendingZero(e.m.m11);
    }
  }

  lemma SnapshotIsOk(s: State, user: Address)
    requires Inv(s)
    ensures SnapshotOk(s.Lp(user)) && WindowOk(s.ep)
  {}

  /** The trader part reads the net asset position and the stamped rate, nothing else. */
  lemma TraderFundingFrame(s: State, t: State, user: Address, rate: Signed)
    requires t.Pos(user).balanceAsset == s.Pos(user).balanceAsset && t.Pos(user).debtAsset == s.Pos(user).debtAsset
    requires t.Pos(user).initialFundingRate == s.Pos(user).initialFundingRate
             && t.Lp(user).debtAsset == s.Lp(user).debtAsset
    ensures TraderFunding(t, user, rate) == TraderFunding(s, user, rate)
  {
    hide Md, SignedSum;
  }

  lemma MatricesUnmoved(s: State, t: State, user: Address, b: int)
    requires t.lps == s.lps && t.lpEpoch == s.lpEpoch && t.pool == s.pool && t.ep == AccrueAll(s.ep, b)
    ensures LpBalance(t, user) == LpBalance(s, user)
  {
    hide RecoverLpBalance, PendingG;
    var id := s.EpochOf(user);
    assert t.ep.At(id).m == s.ep.At(id).m;
  }

  /** The unsettled fee at the brought-up rate, before and after the tick is written. */
  lemma FeePreviewEqualsSettlement(env: Env, s: State, user: Address, price: nat)
    requires Inv(s) && EpochUsable(s, user) && UpdateFG(env, s, price).Ok?
    ensures Agree(FundingAt(env, s, user, price), FundingAt(env, UpdateFG(env, s, price).value, user, price))
  {
    hide FundingRate, SignedSum, FundingB, AccrueAll, LpFunding, TraderFunding;
    var t := UpdateFG(env, s, price).value;
    if s.lastOp != env.now {
      var tick := FundingRate(env, s, price, s.lastOp).value;
      RateStillComputes(env, s, t, price, s.lastOp);
      SettledRateIsZero(env, t, price);
      var nothing := FundingRate(env, t, price, env.now).value;
      var before, after := SignedSum(s.rate, tick), SignedSum(t.rate, nothing);
      FundingBByValue(SignedSum(before, s.rate.Neg()), tick);
      FundingBByValue(SignedSum(after, t.rate.Neg()), SignedSum(after, t.rate.Neg()));
      AccrualWritesPending(s, t, user, FundingB(tick));
      TraderFundingByValue(s, user, before, after);
      TraderFundingFrame(s, t, user, after);
    }
  }

  /** What writing the tick into the rows must have done for a user's LP part: exactly what the preview adds. */
  predicate TickWritten(env: Env, s: State, user: Address, price: nat)
    requires UpdateFG(env, s, price).Ok? && s.lastOp != env.now
  {
    LpFunding(UpdateFG(env, s, price).value, user, 0)
    == LpFunding(s, user, FundingB(FundingRate(env, s, price, s.lastOp).value))
  }

  /** The fee the margin check reads: at the rate brought up to now before the tick, at the stored rate after it. */
  lemma MarginFeePreview(env: Env, s: State, user: Address, price: nat)
    requires s.lastOp != env.now && UpdateFG(env, s, price).Ok? && TickWritten(env, s, user, price)
    ensures var t := UpdateFG(env, s, price).value;
            Agree(FundingFeeWith(s, user, t.rate), FundingFeeWith(t, user, t.rate))
  {
    hide FundingRate, SignedSum, FundingB, AccrueAll, LpFunding, TraderFunding;
    var t := UpdateFG(env, s, price).value;
    var tick := FundingRate(env, s, price, s.lastOp).value;
    FundingBByValue(SignedSum(t.rate, s.rate.Neg()), tick);
    FundingBByValue(SignedSum(t.rate, t.rate.Neg()), SignedSum(t.rate, t.rate.Neg()));
    TraderFundingFrame(s, t, user, t.rate);
  }

  lemma MarginPreview(env: Env, s: State, user: Address, price: nat, collateral: nat)
    requires s.lastOp != env.now && UpdateFG(env, s, price).Ok? && TickWritten(env, s, user, price)
    ensures CalcMr(env, s, user, price, collateral) == CalcMr(env, UpdateFG(env, s, price).value, user, price,
                                                              collateral)
  {
    hide TickWritten, LpBalance, FundingFeeWith, HypotheticalMr, FundingRate, AccrueAll, FundingB, SignedSum;
    var t := UpdateFG(env, s, price).value;
    MatricesUnmoved(s, t, user, FundingB(FundingRate(env, s, price, s.lastOp).value));
    MarginFeePreview(env, s, user, price);
    var x, y := FundingFeeWith(s, user, t.rate), FundingFeeWith(t, user, t.rate);
    if LpBalance(s, user).Ok? && x.Ok? {
      var balance, p, lp := LpBalance(s, user).value, s.Pos(user), s.Lp(user);
      MarginByValue(env, s.pool, balance.0 + p.balanceStable, balance.1 + p.balanceAsset, p.debtStable + lp.debtStable,
                    p.debtAsset + lp.debtAsset, SignedSum(p.fundingFee, x.value), SignedSum(p.fundingFee, y.value),
                    price, collateral);
    }
  }

  lemma UsableTickIsWritten(env: Env, s: State, user: Address, price: nat)
    requires Inv(s) && EpochUsable(s, user) && s.lastOp != env.now && UpdateFG(env, s, price).Ok?
    ensures TickWritten(env, s, user, price)
  {
    hide FundingRate, SignedSum, FundingB, AccrueAll, LpFunding, EpochUsable, Inv;
    AccrualWritesPending(s, UpdateFG(env, s, price).value, user, FundingB(FundingRate(env, s, price, s.lastOp).value));
  }

  /** On a decayed epoch the margin ratio is unchanged when the tick adds nothing to the LP part. */
  lemma DecayedMargin(env: Env, s: State, user: Address, price: nat, collateral: nat)
    requires !EpochUsable(s, user) && s.lastOp != env.now && UpdateFG(env, s, price).Ok?
    ensures LpFunding(s, user, FundingB(FundingRate(env, s, price, s.lastOp).value)) == LpFunding(s, user, 0) ==>
              CalcMr(env, UpdateFG(env, s, price).value, user, price, collateral)
                  == CalcMr(env, s, user, price, collateral)
  {
    hide FundingRate, SignedSum, FundingB, AccrueAll, LpFunding, EpochUsable, CalcMr;
    var b := FundingB(FundingRate(env, s, price, s.lastOp).value);
    DecayedEpochKeepsRow(s, UpdateFG(env, s, price).value, user, b);
    if LpFunding(s, user, b) == LpFunding(s, user, 0) {
      MarginPreview(env, s, user, price, collateral);
    }
  }

  /** A user's profit read through fees of the same value is the same, when nothing else it reads moved. */
  lemma PnlFrame(env: Env, s: State, t: State, user: Address, price: nat, spotFallback: bool)
    requires t.pool == s.pool && LpBalance(t, user) == LpBalance(s, user)
    requires Agree(FundingAt(env, s, user, price), FundingAt(env, t, user, price))
    requires t.Pos(user).(fundingFee := ZERO_SIGNED, initialFundingRate := ZERO_SIGNED)
             == s.Pos(user).(fundingFee := ZERO_SIGNED, initialFundingRate := ZERO_SIGNED)
    requires t.Lp(user).debtStable == s.Lp(user).debtStable && t.Lp(user).debtAsset == s.Lp(user).debtAsset
    ensures Agree(CalcPnlUserInternal(env, s, user, price, spotFallback),
                  CalcPnlUserInternal(env, t, user, price, spotFallback))
  {
    hide LpBalance, FundingAt, CalcPnl;
    var p, q := s.Pos(user), t.Pos(user);
    assert p.balanceStable == q.balanceStable && p.balanceAsset == q.balanceAsset
           && p.debtStable == q.debtStable && p.debtAsset == q.debtAsset by {
      var z := p.(fundingFee := ZERO_SIGNED, initialFundingRate := ZERO_SIGNED);
      assert z == q.(fundingFee := ZERO_SIGNED, initialFundingRate := ZERO_SIGNED);
      assert z.balanceStable == p.balanceStable && z.debtStable == p.debtStable;
    }
    if LpBalance(s, user).Ok? && FundingAt(env, s, user, price).Ok? {
      var balance, lp := LpBalance(s, user).value, s.Lp(user);
      var useSpot := spotFallback && p.debtAsset + lp.debtAsset > p.balanceAsset + balance.1
                     && p.debtAsset + lp.debtAsset - (p.balanceAsset + balance.1) > s.pool.asset;
      PnlByValue(env, s.pool, p.balanceStable + balance.0, p.balanceAsset + balance.1, p.debtStable + lp.debtStable,
                 p.debtAsset + lp.debtAsset, FundingAt(env, s, user, price).value, FundingAt(env, t, user, price).value,
                     price, useSpot);
    }
  }

  /** Previewed funding equals settled funding, exactly: in every reachable state, settling the tick at a price and
      block leaves every user's signed profit and margin ratio at that price and block unchanged, on the curve and at
      spot, provided the user's epoch has not decayed to a zero corner. */
  lemma PreviewEqualsSettlement(calls: seq<Call>, env: Env, user: Address, price: nat, collateral: nat,
                                spotFallback: bool)
    requires var s := Run(INITIAL_STATE, calls); EpochUsable(s, user) && UpdateFG(env, s, price).Ok?
    ensures var s := Run(INITIAL_STATE, calls);
            var t := UpdateFG(env, s, price).value;
            && Agree(CalcPnlUserInternal(env, s, user, price, spotFallback),
                     CalcPnlUserInternal(env, t, user, price, spotFallback))
            && CalcMr(env, s, user, price, collateral) == CalcMr(env, t, user, price, collateral)
  {
    hide Run, Inv, EpochUsable, CalcPnlUserInternal, CalcMr, UpdateFG;
    EveryRunIsOk(calls);
    PreviewEqualsSettlementFrom(env, Run(INITIAL_STATE, calls), user, price, collateral, spotFallback);
  }

  lemma PreviewEqualsSettlementFrom(env: Env, s: State, user: Address, price: nat, collateral: nat, spotFallback: bool)
    requires Inv(s) && EpochUsable(s, user) && UpdateFG(env, s, price).Ok?
    ensures var t := UpdateFG(env, s, price).value;
            && Agree(CalcPnlUserInternal(env, s, user, price, spotFallback),
                     CalcPnlUserInternal(env, t, user, price, spotFallback))
            && CalcMr(env, s, user, price, collateral) == CalcMr(env, t, user, price, collateral)
  {
    hide Inv, EpochUsable, CalcPnlUserInternal, CalcMr, LpBalance, FundingAt, FundingRate, AccrueAll, FundingB,
         SignedSum,
         TickWritten;
    var t := UpdateFG(env, s, price).value;
    FeePreviewEqualsSettlement(env, s, user, price);
    if s.lastOp != env.now {
      MatricesUnmoved(s, t, user, FundingB(FundingRate(env, s, price, s.lastOp).value));
      UsableTickIsWritten(env, s, user, price);
      MarginPreview(env, s, user, price, collateral);
    }
    PnlFrame(env, s, t, user, price, spotFallback);
  }

  /** On a decayed epoch the tick is previewed but never written: settling lowers the user's fee by exactly the
      LP part the tick would have added, so preview and settlement agree there only when that part is nothing. */
  lemma DecayedEpochDropsTick(env: Env, s: State, user: Address, price: nat)
    requires !EpochUsable(s, user) && s.lastOp != env.now && UpdateFG(env, s, price).Ok?
             && FundingAt(env, s, user, price).Ok?
    ensures var t := UpdateFG(env, s, price).value;
            var b := FundingB(FundingRate(env, s, price, s.lastOp).value);
            && LpFunding(s, user, b).Ok? && LpFunding(s, user, 0).Ok? && FundingAt(env, t, user, price).Ok?
            && FundingAt(env, t, user, price).value.Val()
               == FundingAt(env, s, user, price).value.Val() - (LpFunding(s, user, b).value
                                                                - LpFunding(s, user, 0).value)
  {
    hide FundingRate, SignedSum, FundingB, AccrueAll, LpFunding, TraderFunding;
    var t := UpdateFG(env, s, price).value;
    var tick := FundingRate(env, s, price, s.lastOp).value;
    RateStillComputes(env, s, t, price, s.lastOp);
    SettledRateIsZero(env, t, price);
    var nothing := FundingRate(env, t, price, env.now).value;
    var before, after := SignedSum(s.rate, tick), SignedSum(t.rate, nothing);
    FundingBByValue(SignedSum(before, s.rate.Neg()), tick);
    FundingBByValue(SignedSum(after, t.rate.Neg()), SignedSum(after, t.rate.Neg()));
    TraderFundingByValue(s, user, before, after);
    TraderFundingFrame(s, t, user, after);
    DecayedEpochKeepsRow(s, t, user, FundingB(tick));
    LpFundingFailsAlike(s, user, FundingB(tick));
  }

  // ----- When the dropped tick matters -----

  /** The numerator of a recovered funding amount: a row of increments against the snapshot's adjugate and initial
      balances. */
  function RowNumerator(lp: LpPosition, g0: int, g1: int): int
  {
    var m, p, q := lp.snap, lp.initialStable, lp.initialAsset;
    (g0 * (m.m11 * p - m.m01 * q) + g1 * (-m.m10 * p + m.m00 * q)) * M_DECIMALS
  }

  function RowDenominator(lp: LpPosition): int { lp.snap.RawDet() * G_DECIMALS }

  lemma DenominatorPositive(lp: LpPosition)
    requires lp.snap.RawDet() > 0
    ensures RowDenominator(lp) > 0
  {
    MulMonotone(G_DECIMALS, 1, lp.snap.RawDet());
  }

  lemma RecoveredRow(lp: LpPosition, g0: int, g1: int)
    requires lp.snap.RawDet() > 0
    ensures RowDenominator(lp) > 0
    ensures RecoverFundingStar(g0, g1, lp.snap, lp.initialStable, lp.initialAsset, M_DECIMALS, G_DECIMALS)
            == Ok(TruncDiv(RowNumerator(lp, g0, g1), RowDenominator(lp)))
  {
    hide TruncDiv;
    DenominatorPositive(lp);
  }

  lemma LpFundingValue(s: State, user: Address, b: int)
    requires s.Lp(user).snap.RawDet() > 0 && (s.Lp(user).initialStable != 0 || s.Lp(user).initialAsset != 0)
    ensures var lp, e := s.Lp(user), s.ep.At(s.EpochOf(user));
            && RowDenominator(lp) > 0
            && LpFunding(s, user, b)
               == Ok(TruncDiv(RowNumerator(lp, e.g0 - lp.g0 + PendingG(b, e.m.m10),
                                           e.g1 - lp.g1 + PendingG(b, e.m.m11)), RowDenominator(lp)))
  {
    hide PendingG, TruncDiv, RecoverFundingStar, RowNumerator, RowDenominator;
    var lp, e := s.Lp(user), s.ep.At(s.EpochOf(user));
    RecoveredRow(lp, e.g0 - lp.g0 + PendingG(b, e.m.m10), e.g1 - lp.g1 + PendingG(b, e.m.m11));
  }

  lemma RowAdds(lp: LpPosition, g0: int, g1: int, h0: int, h1: int)
    ensures RowNumerator(lp, g0 + h0, g1 + h1) == RowNumerator(lp, g0, g1) + RowNumerator(lp, h0, h1)
  {
    var m, p, q := lp.snap, lp.initialStable, lp.initialAsset;
    Distributes(m.m11 * p - m.m01 * q, g0, h0);
    Distributes(-m.m10 * p + m.m00 * q, g1, h1);
  }

  lemma Distributes(k: int, x: int, y: int)
    ensures (x + y) * k == x * k + y * k
  {}

  /** Numerators two divisors apart have different quotients. */
  lemma FarQuotientsDiffer(x: int, y: int, d: int)
    requires d > 0 && Abs(y) >= 2 * d
    ensures TruncDiv(x + y, d) != TruncDiv(x, d)
  {
    TruncDivBounds(x + y, d);
    TruncDivBounds(x, d);
    hide TruncDiv;
  }

  lemma SmallPendingIsNothing(b: int, entry: int)
    requires Abs(b * entry) < M_DECIMALS
    ensures PendingG(b, entry) == 0
  {
    QuotientUnique(Abs(b * entry), M_DECIMALS, 0, Abs(b * entry));
  }

  /** What the tick would add to the LP part is nothing when both products with row 1 of the epoch's matrix are below
      the matrix scale, and something when the row it adds is worth two units of the result. */
  lemma DecayedTickMatters(s: State, user: Address, b: int)
    requires s.Lp(user).snap.RawDet() > 0 && (s.Lp(user).initialStable != 0 || s.Lp(user).initialAsset != 0)
    ensures var lp, e := s.Lp(user), s.ep.At(s.EpochOf(user));
            && (Abs(b * e.m.m10) < M_DECIMALS && Abs(b * e.m.m11) < M_DECIMALS
                ==> LpFunding(s, user, b) == LpFunding(s, user, 0))
            && (Abs(RowNumerator(lp, PendingG(b, e.m.m10), PendingG(b, e.m.m11))) >= 2 * RowDenominator(lp)
                ==> LpFunding(s, user, b) != LpFunding(s, user, 0))
  {
    hide LpFunding, PendingG, RowNumerator, RowDenominator, TruncDiv;
    var lp, e := s.Lp(user), s.ep.At(s.EpochOf(user));
    LpFundingValue(s, user, b);
    LpFundingValue(s, user, 0);
    PendingZero(e.m.m10);
    PendingZero(e.m.m11);
    if Abs(b * e.m.m10) < M_DECIMALS && Abs(b * e.m.m11) < M_DECIMALS {
      SmallPendingIsNothing(b, e.m.m10);
      SmallPendingIsNothing(b, e.m.m11);
    }
    var h0, h1 := PendingG(b, e.m.m10), PendingG(b, e.m.m11);
    RowAdds(lp, e.g0 - lp.g0, e.g1 - lp.g1, h0, h1);
    if Abs(RowNumerator(lp, h0, h1)) >= 2 * RowDenominator(lp) {
      FarQuotientsDiffer(RowNumerator(lp, e.g0 - lp.g0, e.g1 - lp.g1), RowNumerator(lp, h0, h1), RowDenominator(lp));
    }
  }

  /** Profit moves by exactly what the fee moves, the other way. */
  lemma PnlByFee(env: Env, pool: Pool, bs: nat, ba: nat, ds: nat, da: nat, x: Signed, y: Signed, price: nat,
                 useSpot: bool)
    ensures var p, q := CalcPnl(env, pool, bs, ba, ds, da, x, price, useSpot),
            CalcPnl(env, pool, bs, ba, ds, da, y, price, useSpot);
            if p.Ok? then q.Ok? && q.value.Val() - p.value.Val() == x.Val() - y.Val() else q == p
  {
    hide AssetValue;
  }

  lemma UserPnlByFee(env: Env, s: State, t: State, user: Address, price: nat)
    requires t.pool == s.pool && t.positions == s.positions && t.lps == s.lps
             && LpBalance(t, user) == LpBalance(s, user)
    requires FundingAt(env, s, user, price).Ok? && FundingAt(env, t, user, price).Ok?
    ensures var p, q := CalcPnlUser(env, s, user, price), CalcPnlUser(env, t, user, price);
            if p.Ok?
            then q.Ok? && q.value.Val() - p.value.Val()
                          == FundingAt(env, s, user, price).value.Val() - FundingAt(env, t, user, price).value.Val()
            else q == p
  {
    hide LpBalance, FundingAt, CalcPnl;
    assert t.Pos(user) == s.Pos(user) && t.Lp(user) == s.Lp(user);
    if LpBalance(s, user).Ok? {
      var balance, p, lp := LpBalance(s, user).value, s.Pos(user), s.Lp(user);
      PnlByFee(env, s.pool, p.balanceStable + balance.0, p.balanceAsset + balance.1, p.debtStable + lp.debtStable,
               p.debtAsset + lp.debtAsset, FundingAt(env, s, user, price).value, FundingAt(env, t, user, price).value,
                   price, false);
    }
  }

  lemma TickFrame(env: Env, s: State, user: Address, price: nat)
    requires UpdateFG(env, s, price).Ok?
    ensures var t := UpdateFG(env, s, price).value;
            t.pool == s.pool && t.positions == s.positions && t.lps == s.lps && LpBalance(t, user) == LpBalance(s, user)
  {
    hide FundingRate, FundingB, SignedSum, AccrueAll, LpBalance;
    if s.lastOp != env.now {
      MatricesUnmoved(s, UpdateFG(env, s, price).value, user, FundingB(FundingRate(env, s, price, s.lastOp).value));
    }
  }

  /** Exactly when the previewed funding of a user is the settled one, and so is its profit: in every reachable state,
      if and only if its epoch has not decayed, or the LP part this tick would add to it is nothing. Its margin ratio is
      then the same too. */
  lemma PreviewAgreesIff(calls: seq<Call>, env: Env, user: Address, price: nat, collateral: nat)
    requires var s := Run(INITIAL_STATE, calls);
             s.lastOp != env.now && UpdateFG(env, s, price).Ok?
             && FundingAt(env, s, user, price).Ok?
    ensures var s := Run(INITIAL_STATE, calls); var t := UpdateFG(env, s, price).value;
            var b := FundingB(FundingRate(env, s, price, s.lastOp).value);
            var agrees := EpochUsable(s, user) || LpFunding(s, user, b) == LpFunding(s, user, 0);
            && FundingAt(env, t, user, price).Ok?
            && (FundingAt(env, t, user, price).value.Val() == FundingAt(env, s, user, price).value.Val() <==> agrees)
            && (CalcPnlUser(env, s, user, price).Ok? <==> CalcPnlUser(env, t, user, price).Ok?)
            && (CalcPnlUser(env, s, user, price).Ok?
                ==> (CalcPnlUser(env, t, user, price).value.Val() == CalcPnlUser(env, s, user, price).value.Val()
                     <==> agrees))
            && (agrees ==> CalcMr(env, t, user, price, collateral) == CalcMr(env, s, user, price, collateral))
  {
    hide Run, Inv, UpdateFG, FundingAt, LpFunding, EpochUsable, FundingB, FundingRate, LpBalance, CalcPnlUser, CalcMr,
         TickWritten;
    EveryRunIsOk(calls);
    var s := Run(INITIAL_STATE, calls);
    if EpochUsable(s, user) {
      FeePreviewEqualsSettlement(env, s, user, price);
      UsableTickIsWritten(env, s, user, price);
      MarginPreview(env, s, user, price, collateral);
    } else {
      DecayedEpochDropsTick(env, s, user, price);
      DecayedMargin(env, s, user, price, collateral);
    }
    TickFrame(env, s, user, price);
    UserPnlByFee(env, s, UpdateFG(env, s, price).value, user, price);
  }

  lemma DecayedEpochKeepsRow(s: State, t: State, user: Address, b: int)
    requires !EpochUsable(s, user) && t.lps == s.lps && t.lpEpoch == s.lpEpoch && t.ep == AccrueAll(s.ep, b)
    ensures LpFunding(t, user, 0) == LpFunding(s, user, 0)
  {
    hide RecoverFundingStar, PendingG;
    var id := s.EpochOf(user);
    assert t.ep.At(id) == s.ep.At(id);
  }

  /** Whether the LP part can be computed does not depend on the tick. */
  lemma LpFundingFailsAlike(s: State, user: Address, b: int)
    ensures LpFunding(s, user, b).Ok? <==> LpFunding(s, user, 0).Ok?
  {
    hide TruncDiv, PendingG;
    var lp := s.Lp(user);
    if lp.snap.RawDet() > 0 {
      MulMonotone(G_DECIMALS, 1, lp.snap.RawDet());
      assert lp.snap.RawDet() * G_DECIMALS == G_DECIMALS * lp.snap.RawDet() != 0;
    }
  }
}
