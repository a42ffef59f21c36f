/** What a user is worth: profit and margin ratio as balances less debts, and what the margin guards therefore
    promise. */
module Equity {
  import opened Arith
  import opened EngineState
  import opened EngineSpec
  import opened EngineOps
  import opened Pinning
  import opened Settlement
  import opened Ledger
  import opened Liquidations
  import opened LedgerRuns
  import opened Margin

  // ----- Equity -----

  /** A user's net stable, LP balance and LP debt included. */
  function StableOf(s: State, user: Address): int
    requires LpBalance(s, user).Ok?
  {
    LpBalance(s, user).value.0 + StableNet(s.Pos(user)) - s.Lp(user).debtStable
  }

  /** What a net asset amount is worth in stable: nothing within the dust of a valuation; at spot; or on the curve, what
      selling a net long returns and what buying back a net short costs, which the pool must be able to hold. */
  predicate Worth(env: Env, pool: Pool, net: int, price: nat, spot: bool, w: int)
  {
    && price > 0
    && if Abs(net) <= Md(PNL_DUST, ORACLE_DECIMALS, price) then w == 0
       else if spot then
         Abs(w) == Md(Abs(net), price, ORACLE_DECIMALS) && (w > 0 ==> net > 0) && (w < 0 ==> net < 0)
       else if net > 0 then
         env.curve.short(net, price, pool.stable, pool.stable, pool.asset) == Ok(Abs(w)) && w >= 0
       else
         && -net <= pool.asset && w <= 0
         && env.curve.exactInLong(-net, price, pool.stable, pool.stable, pool.asset) == Ok(Abs(w))
  }

  lemma ValueIsWorth(env: Env, pool: Pool, asset: Signed, price: nat, useSpot: bool)
    requires AssetValue(env, pool, asset, price, useSpot).Ok?
    ensures var v := AssetValue(env, pool, asset, price, useSpot).value;
            Worth(env, pool, asset.Val(), price, useSpot, Signed(v, asset.pos).Val())
  {
    hide Md;
    assert price > 0;
    if asset.mag > 0 { assert Abs(asset.Val()) == asset.mag; }
  }

  /** Profit is what a user holds less what it owes: net stable with LP balance and LP debt, less the funding due, plus
      the worth of its net asset, LP balance and LP debt included. */
  lemma ProfitIsEquity(env: Env, s: State, user: Address, price: nat, spotFallback: bool) returns (worth: int)
    requires CalcPnlUserInternal(env, s, user, price, spotFallback).Ok?
    ensures LpBalance(s, user).Ok? && FundingAt(env, s, user, price).Ok?
    ensures Worth(env, s.pool, NetOf(s, user), price, spotFallback && NetOf(s, user) < -(s.pool.asset as int), worth)
    ensures CalcPnlUserInternal(env, s, user, price, spotFallback).value.Val()
            == StableOf(s, user) - FundingAt(env, s, user, price).value.Val() + worth
  {
    hide LpBalance, FundingAt, Worth, CalcPnl, CalcPnlUserInternal, NetOf;
    var bs, ba, ds, da := UserSides(env, s, user, price, spotFallback);
    var useSpot := spotFallback && NetOf(s, user) < -(s.pool.asset as int);
    worth := PnlParts(env, s.pool, bs, ba, ds, da, FundingAt(env, s, user, price).value, price, useSpot);
  }

  /** The balances and debts a user's profit is computed from. */
  lemma UserSides(env: Env, s: State, user: Address, price: nat, spotFallback: bool)
    returns (bs: nat, ba: nat, ds: nat, da: nat)
    requires CalcPnlUserInternal(env, s, user, price, spotFallback).Ok?
    ensures LpBalance(s, user).Ok? && FundingAt(env, s, user, price).Ok?
    ensures bs - ds == StableOf(s, user) && ba - da == NetOf(s, user)
    ensures CalcPnlUserInternal(env, s, user, price, spotFallback)
            == CalcPnl(env, s.pool, bs, ba, ds, da, FundingAt(env, s, user, price).value, price,
                       spotFallback && NetOf(s, user) < -(s.pool.asset as int))
  {
    hide LpBalance, FundingAt, CalcPnl, NetOf, StableOf, State.Pos, State.Lp;
    var balance, p, lp := LpBalance(s, user).value, s.Pos(user), s.Lp(user);
    bs, ba := p.balanceStable + balance.0, p.balanceAsset + balance.1;
    ds, da := p.debtStable + lp.debtStable, p.debtAsset + lp.debtAsset;
    SidesAre(s, user);
    assert (da > ba && da - ba > s.pool.asset) == (ba - da < -(s.pool.asset as int));
  }

  lemma SidesAre(s: State, user: Address)
    requires LpBalance(s, user).Ok?
    ensures var balance, p, lp := LpBalance(s, user).value, s.Pos(user), s.Lp(user);
            && StableOf(s, user) == p.balanceStable + balance.0 - (p.debtStable + lp.debtStable)
            && NetOf(s, user) == p.balanceAsset + balance.1 - (p.debtAsset + lp.debtAsset)
  {
    hide LpBalance, State.Pos, State.Lp;
  }

  lemma PnlParts(env: Env, pool: Pool, bs: nat, ba: nat, ds: nat, da: nat, fee: Signed, price: nat, useSpot: bool)
    returns (worth: int)
    requires CalcPnl(env, pool, bs, ba, ds, da, fee, price, useSpot).Ok?
    ensures Worth(env, pool, ba - da, price, useSpot, worth)
    ensures CalcPnl(env, pool, bs, ba, ds, da, fee, price, useSpot).value.Val() == bs - ds - fee.Val() + worth
  {
    hide AssetValue, Worth;
    var asset := SignedSum(Signed(ba, true), Signed(da, false));
    ValueIsWorth(env, pool, asset, price, useSpot);
    worth := Signed(AssetValue(env, pool, asset, price, useSpot).value, asset.pos).Val();
  }

  // ----- The margin ratio -----

  /** `m` is collateral plus equity over the value of the position, in millionths and rounded down: 0 when that is
      negative, the whole when the position is worth nothing. */
  predicate RatioOf(m: nat, total: int, value: nat)
  {
    if total < 0 then m == 0
    else if value == 0 then m == MMR_DECIMALS
    else m * value <= total * MMR_DECIMALS < m * value + value
  }

  /** The value of a user's net asset at the price. */
  function PositionValue(s: State, user: Address, price: nat): nat
    requires LpBalance(s, user).Ok?
  {
    Md(Abs(NetOf(s, user)), price, ORACLE_DECIMALS)
  }

  /** The margin ratio of a user is that of everything it holds and owes: net stable with LP balance and LP debt, less
      the funding due, plus its net asset at spot. */
  lemma RatioIsEquity(env: Env, s: State, user: Address, price: nat, collateral: nat) returns (worth: int)
    requires CalcMr(env, s, user, price, collateral).Ok? && FundingAt(env, s, user, price).Ok?
    ensures LpBalance(s, user).Ok? && Worth(env, s.pool, NetOf(s, user), price, true, worth)
    ensures RatioOf(CalcMr(env, s, user, price, collateral).value,
                    collateral + StableOf(s, user) - FundingAt(env, s, user, price).value.Val() + worth,
                    PositionValue(s, user, price))
  {
    hide LpBalance, FundingAt, CalcMr, HypotheticalMr, Worth, Md, RatioOf, StableOf, NetOf, State.Pos, State.Lp;
    var fee := MarginFee(env, s, user, price, collateral);
    SidesAre(s, user);
    var balance, p, lp := LpBalance(s, user).value, s.Pos(user), s.Lp(user);
    worth := RatioParts(env, s.pool, balance.0 + p.balanceStable, balance.1 + p.balanceAsset,
                        p.debtStable + lp.debtStable,
                        p.debtAsset + lp.debtAsset, fee, price, collateral);
    assert DiffAbs(balance.1 + p.balanceAsset, p.debtAsset + lp.debtAsset) == Abs(NetOf(s, user));
  }

  /** The funding the margin check reads is the funding due. */
  lemma MarginFee(env: Env, s: State, user: Address, price: nat, collateral: nat) returns (fee: Signed)
    requires CalcMr(env, s, user, price, collateral).Ok? && FundingAt(env, s, user, price).Ok?
    ensures fee.Val() == FundingAt(env, s, user, price).value.Val() && LpBalance(s, user).Ok?
    ensures var balance, p, lp := LpBalance(s, user).value, s.Pos(user), s.Lp(user);
            CalcMr(env, s, user, price, collateral)
            == HypotheticalMr(env, s.pool, balance.0 + p.balanceStable, balance.1 + p.balanceAsset,
                              p.debtStable + lp.debtStable, p.debtAsset + lp.debtAsset, fee, price, collateral)
  {
    hide LpBalance, FundingFeeWith, FundingRate, HypotheticalMr, SignedSum;
    var previewed := SignedSum(s.rate, FundingRate(env, s, price, s.lastOp).value);
    var rate := if s.lastOp != env.now then previewed else s.rate;
    if s.lastOp == env.now {
      SettledRateIsZero(env, s, price);
      SumValue(s.rate, FundingRate(env, s, price, s.lastOp).value);
      FundingFeeByValue(s, user, previewed, rate);
    }
    fee := SignedSum(s.Pos(user).fundingFee, FundingFeeWith(s, user, rate).value);
    SumValue(s.Pos(user).fundingFee, FundingFeeWith(s, user, rate).value);
    SumValue(s.Pos(user).fundingFee, FundingFeeWith(s, user, previewed).value);
  }

  lemma RatioParts(env: Env, pool: Pool, bs: nat, ba: nat, ds: nat, da: nat, fee: Signed, price: nat, collateral: nat)
    returns (worth: int)
    requires HypotheticalMr(env, pool, bs, ba, ds, da, fee, price, collateral).Ok?
    ensures Worth(env, pool, ba - da, price, true, worth)
    ensures RatioOf(HypotheticalMr(env, pool, bs, ba, ds, da, fee, price, collateral).value,
                    collateral + (bs - ds - fee.Val() + worth), Md(DiffAbs(ba, da), price, ORACLE_DECIMALS))
  {
    hide CalcPnl, Worth, HypotheticalMr, Md;
    MarginRatioMeans(env, pool, bs, ba, ds, da, fee, price, collateral);
    worth := PnlParts(env, pool, bs, ba, ds, da, fee, price, true);
  }

  // ----- What the guards promise -----

  /** A trade that went through leaves its trader's equity, collateral included, above the maintenance ratio of its
      position: read in the state after the trade. */
  lemma TradeLeavesMargin(calls: seq<Call>, env: Env, t: TradeArgs, collateral: nat) returns (worth: int)
    requires var s := Run(INITIAL_STATE, calls);
             Trade(env, s, t, collateral).Ok? && FundingAt(env, Trade(env, s, t, collateral).value, t.user, t.price).Ok?
    ensures var r := Trade(env, Run(INITIAL_STATE, calls), t, collateral).value;
            && LpBalance(r, t.user).Ok? && Worth(env, r.pool, NetOf(r, t.user), t.price, true, worth)
            && var total := collateral + StableOf(r, t.user) - FundingAt(env, r, t.user, t.price).value.Val() + worth;
            && total >= 0 && total * MMR_DECIMALS >= (env.cfg.mmr + 1) * PositionValue(r, t.user, t.price)
  {
    hide Run, ExecuteTrade, CalcMr, LpBalance, FundingAt, Worth, PositionValue, NetOf, StableOf, RatioOf;
    var s := Run(INITIAL_STATE, calls);
    var r := Trade(env, s, t, collateral).value;
    worth := RatioIsEquity(env, r, t.user, t.price, collateral);
    var total := collateral + StableOf(r, t.user) - FundingAt(env, r, t.user, t.price).value.Val() + worth;
    AboveRatio(CalcMr(env, r, t.user, t.price, collateral).value, total, PositionValue(r, t.user, t.price),
               env.cfg.mmr);
  }

  lemma AboveRatio(m: nat, total: int, value: nat, mmr: nat)
    requires RatioOf(m, total, value) && m > mmr
    ensures total >= 0 && total * MMR_DECIMALS >= (mmr + 1) * value
  {
    MulMonotone(value, mmr + 1, m);
  }

  lemma BelowRatio(m: nat, total: int, value: nat, mmr: nat)
    requires RatioOf(m, total, value) && m <= mmr
    ensures total < 0 || total * MMR_DECIMALS < (mmr + 1) * value || (value == 0 && MMR_DECIMALS <= mmr)
  {
    MulMonotone(value, m + 1, mmr + 1);
  }

  /** Only a user at or below the maintenance ratio can be liquidated: once the tick is settled its equity, collateral
      included, is negative or less than a millionth above that ratio of its position. */
  lemma OnlyUnderMarginIsLiquidated(calls: seq<Call>, env: Env, liquidator: Address, user: Address, size: nat,
                                    price: nat,
                                    collateral: nat) returns (worth: int)
    requires var s := Run(INITIAL_STATE, calls);
             && LiquidateTransfer(env, s, liquidator, user, size, price, collateral).Ok?
             && FundingAt(env, s, user, price).Ok? && EpochUsable(s, user)
    ensures var s := Run(INITIAL_STATE, calls);
            && UpdateFG(env, s, price).Ok?
            && var t := UpdateFG(env, s, price).value;
            && LpBalance(t, user).Ok? && FundingAt(env, t, user, price).Ok?
            && Worth(env, t.pool, NetOf(t, user), price, true, worth)
            && var total := collateral + StableOf(t, user) - FundingAt(env, t, user, price).value.Val() + worth;
               (total < 0 || total * MMR_DECIMALS < (env.cfg.mmr + 1) * PositionValue(t, user, price)
                || (PositionValue(t, user, price) == 0 && MMR_DECIMALS <= env.cfg.mmr))
  {
    hide Run, LiquidateTransfer, BothSettled, HandsOver, CalcMr, LpBalance, FundingAt, UpdateFG, Worth, PositionValue,
         NetOf, StableOf, RatioOf, Inv, EpochUsable, FractionAllowed;
    EveryRunIsOk(calls);
    var s := Run(INITIAL_STATE, calls);
    var margin, fraction, discount := TransferPhases(env, s, liquidator, user, size, price, collateral);
    AllowedIs(env.cfg, margin, fraction);
    FeePreviewEqualsSettlement(env, s, user, price);
    var t := UpdateFG(env, s, price).value;
    worth := RatioIsEquity(env, t, user, price, collateral);
    var total := collateral + StableOf(t, user) - FundingAt(env, t, user, price).value.Val() + worth;
    BelowRatio(margin, total, PositionValue(t, user, price), env.cfg.mmr);
  }

  /** A liquidator that took a position over is above the maintenance ratio with it: read in the state after the
      transfer, before a full liquidation closes the user. */
  lemma LiquidatorKeepsMargin(env: Env, s: State, liquidator: Address, user: Address, size: nat, price: nat,
                              collateralUser: nat, collateral: nat) returns (worth: int)
    requires Liquidate(env, s, liquidator, user, size, price, collateralUser, collateral).Ok?
    ensures LiquidateTransfer(env, s, liquidator, user, size, price, collateralUser).Ok?
    ensures var r := LiquidateTransfer(env, s, liquidator, user, size, price, collateralUser).value.0;
            FundingAt(env, r, liquidator, price).Ok? ==>
              && LpBalance(r, liquidator).Ok? && Worth(env, r.pool, NetOf(r, liquidator), price, true, worth)
              && var total := collateral + StableOf(r, liquidator) - FundingAt(env, r, liquidator, price).value.Val()
                 + worth;
                 total >= 0 && total * MMR_DECIMALS >= (env.cfg.mmr + 1) * PositionValue(r, liquidator, price)
  {
    hide LiquidateTransfer, CalcMr, LpBalance, FundingAt, Worth, PositionValue, NetOf, StableOf, RatioOf, Close;
    var r := LiquidateTransfer(env, s, liquidator, user, size, price, collateralUser).value.0;
    worth := 0;
    if FundingAt(env, r, liquidator, price).Ok? {
      worth := RatioIsEquity(env, r, liquidator, price, collateral);
      var total := collateral + StableOf(r, liquidator) - FundingAt(env, r, liquidator, price).value.Val() + worth;
      AboveRatio(CalcMr(env, r, liquidator, price, collateral).value, total, PositionValue(r, liquidator, price),
                 env.cfg.mmr);
    }
  }

  /** A deposit that went through leaves its LP solvent and within its leverage: its equity covers any loss up to the
      collateral, and all it owes, LP debt and trader debt, is worth at most the collateral times the leverage
      allowed. */
  lemma DepositLeavesLeverage(env: Env, s: State, stable: nat, asset: nat, maxFee: nat, user: Address, price: nat,
                              collateral: nat) returns (worth: int)
    requires AddLiquidity(env, s, stable, asset, maxFee, user, price, collateral).Ok?
    ensures var r := AddLiquidity(env, s, stable, asset, maxFee, user, price, collateral).value;
            && Solvent(env, r, user, price, collateral, worth)
            && r.Lp(user).debtStable + r.Pos(user).debtStable
               + Md(r.Lp(user).debtAsset + r.Pos(user).debtAsset, price, ORACLE_DECIMALS)
               <= collateral * env.cfg.maxLpLeverage
  {
    hide AddLiquidityCore, DepositFee, ResetWindow, CalcPnlUser, Md, Solvent;
    var r := AddLiquidity(env, s, stable, asset, maxFee, user, price, collateral).value;
    worth := SolventIs(env, r, user, price, collateral);
  }

  /** And so does a withdrawal, on the solvency. */
  lemma WithdrawalLeavesSolvent(env: Env, s: State, stable: nat, asset: nat, user: Address, price: nat, maxFee: nat,
                                collateral: nat) returns (worth: int)
    requires RemoveLiquidity(env, s, stable, asset, user, price, maxFee, collateral).Ok?
    ensures Solvent(env, RemoveLiquidity(env, s, stable, asset, user, price, maxFee, collateral).value, user, price,
                    collateral, worth)
  {
    hide RemoveLiquidityCore, CalcPnlUser, Md, Solvent;
    var r := RemoveLiquidity(env, s, stable, asset, user, price, maxFee, collateral).value;
    worth := SolventIs(env, r, user, price, collateral);
  }

  /** What a user holds and owes, funding due included, is a profit or a loss below its collateral. */
  predicate Solvent(env: Env, s: State, user: Address, price: nat, collateral: nat, worth: int)
  {
    && LpBalance(s, user).Ok? && FundingAt(env, s, user, price).Ok?
    && Worth(env, s.pool, NetOf(s, user), price, false, worth)
    && var equity := StableOf(s, user) - FundingAt(env, s, user, price).value.Val() + worth;
       equity > -(collateral as int) || equity == 0
  }

  lemma SolventIs(env: Env, s: State, user: Address, price: nat, collateral: nat) returns (worth: int)
    requires CalcPnlUser(env, s, user, price).Ok?
    requires var pnl := CalcPnlUser(env, s, user, price).value; pnl.mag < collateral || pnl.pos
    ensures Solvent(env, s, user, price, collateral, worth)
  {
    hide LpBalance, FundingAt, Worth, NetOf, StableOf, CalcPnlUserInternal;
    worth := ProfitIsEquity(env, s, user, price, false);
  }
}
