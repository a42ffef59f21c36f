/** Trades, liquidity, closing, realising and liquidating, as functions of the storage value. */
module EngineOps {
  import opened Arith
  import opened EngineState
  import opened EngineSpec

  // ----- Profit and margin -----

  const PNL_DUST: nat := 10_000_000_000_000

  /** The value of a net asset amount: spot, or what the curve returns for it. */
  function AssetValue(env: Env, pool: Pool, asset: Signed, price: nat, useSpot: bool): Result<nat>
  {
    var threshold :- MdR(PNL_DUST, ORACLE_DECIMALS, price);
    if asset.mag <= threshold then Ok(0)
    else if useSpot then Ok(Md(asset.mag, price, ORACLE_DECIMALS))
    else if asset.pos then env.curve.short(asset.mag, price, pool.stable, pool.stable, pool.asset)
    else if asset.mag > pool.asset then Err("PNL1")
    else env.curve.exactInLong(asset.mag, price, pool.stable, pool.stable, pool.asset)
  }

  /** Profit of balances against debts, after the funding fee, with the net asset valued at the curve or at spot. */
  function CalcPnl(env: Env, pool: Pool, balanceStable: nat, balanceAsset: nat, debtStable: nat, debtAsset: nat,
                   fee: Signed, price: nat, useSpot: bool): Result<Signed>
  {
    var stable := SignedSum(SignedSum(Signed(balanceStable, true), Signed(debtStable, false)), fee.Neg());
    var asset := SignedSum(Signed(balanceAsset, true), Signed(debtAsset, false));
    var value :- AssetValue(env, pool, asset, price, useSpot);
    Ok(SignedSum(stable, Signed(value, asset.pos)))
  }

  /** The funding a user owes at a price: what is settled, plus what is accrued at the rate brought up to now. */
  function FundingAt(env: Env, s: State, user: Address, price: nat): Result<Signed>
  {
    var newRate :- FundingRate(env, s, price, s.lastOp);
    var fee :- FundingFeeWith(s, user, SignedSum(s.rate, newRate));
    Ok(SignedSum(s.Pos(user).fundingFee, fee))
  }

  function CalcPnlUserInternal(env: Env, s: State, user: Address, price: nat, spotFallback: bool): Result<Signed>
  {
    var balance :- LpBalance(s, user);
    var fee :- FundingAt(env, s, user, price);
    var p, lp := s.Pos(user), s.Lp(user);
    var useSpot := spotFallback && p.debtAsset + lp.debtAsset > p.balanceAsset + balance.1
                   && p.debtAsset + lp.debtAsset - (p.balanceAsset + balance.1) > s.pool.asset;
    CalcPnl(env, s.pool, p.balanceStable + balance.0, p.balanceAsset + balance.1,
            p.debtStable + lp.debtStable, p.debtAsset + lp.debtAsset, fee, price, useSpot)
  }

  function CalcPnlUser(env: Env, s: State, user: Address, price: nat): Result<Signed>
  {
    CalcPnlUserInternal(env, s, user, price, false)
  }

  /** Margin ratio of a position: 0 in bad debt, the whole when it holds no net asset. */
  function HypotheticalMr(env: Env, pool: Pool, balanceStable: nat, balanceAsset: nat, debtStable: nat, debtAsset: nat,
                          fee: Signed, price: nat, collateral: nat): Result<nat>
  {
    var pnl :- CalcPnl(env, pool, balanceStable, balanceAsset, debtStable, debtAsset, fee, price, true);
    var value := Md(DiffAbs(balanceAsset, debtAsset), price, ORACLE_DECIMALS);
    var total := SignedSum(Signed(collateral, true), pnl);
    if !total.pos && total.mag != 0 then Ok(0)
    else if value == 0 then Ok(MMR_DECIMALS)
    else MdR(total.mag, MMR_DECIMALS, value)
  }

  /** A user's margin ratio; the rate is brought up to now only when this block has not settled it. */
  function CalcMr(env: Env, s: State, user: Address, price: nat, collateral: nat): Result<nat>
  {
    var balance :- LpBalance(s, user);
    var rate :- if s.lastOp != env.now then
                  var newRate :- FundingRate(env, s, price, s.lastOp);
                  Ok(SignedSum(s.rate, newRate))
                else Ok(s.rate);
    var fee :- FundingFeeWith(s, user, rate);
    var p, lp := s.Pos(user), s.Lp(user);
    HypotheticalMr(env, s.pool, balance.0 + p.balanceStable, balance.1 + p.balanceAsset,
                   p.debtStable + lp.debtStable, p.debtAsset + lp.debtAsset,
                   SignedSum(p.fundingFee, fee), price, collateral)
  }

  // ----- Stable and asset primitives -----

  function DebitStable(p: Position, amount: nat): Position
  {
    var covered := p.balanceStable >= amount;
    p.(balanceStable := if covered then p.balanceStable - amount else 0,
       debtStable := if covered then p.debtStable else p.debtStable + (amount - p.balanceStable))
  }

  function CreditStableViaDebt(p: Position, amount: nat): Position
  {
    var owed := p.debtStable >= amount;
    p.(debtStable := if owed then p.debtStable - amount else 0,
       balanceStable := if owed then p.balanceStable else p.balanceStable + (amount - p.debtStable))
  }

  function DebitAsset(p: Position, amount: nat): Position
  {
    var covered := p.balanceAsset >= amount;
    p.(balanceAsset := if covered then p.balanceAsset - amount else 0,
       debtAsset := if covered then p.debtAsset else p.debtAsset + (amount - p.balanceAsset))
  }

  function CreditAssetViaDebt(p: Position, amount: nat): Position
  {
    var owed := p.debtAsset >= amount;
    p.(debtAsset := if owed then p.debtAsset - amount else 0,
       balanceAsset := if owed then p.balanceAsset else p.balanceAsset + (amount - p.debtAsset))
  }

  function CreditStable(s: State, user: Address, amount: nat): State
  {
    s.SetPos(user, s.Pos(user).(balanceStable := s.Pos(user).balanceStable + amount))
  }

  // ----- Trade -----

  datatype TradeArgs = TradeArgs(user: Address, direction: bool, size: nat, minReturn: nat, guess: nat,
                                 frontend: Address, price: nat)

  /** What a trade pays and gets, and the window it leaves. `total` is the curve output of a short. */
  datatype Quote = Quote(tradeReturn: nat, fee: nat, total: nat, window: Window)

  /** Reset the window when it has expired, turned, or seen another price. */
  function OpenWindow(env: Env, s: State, direction: bool, price: nat): Window
  {
    if env.now > s.window.lastUpdate + env.cfg.curveUpdateInterval || s.window.lastDirection != direction
       || s.window.lastPrice != price
    then s.window.(lastUpdate := env.now, lastDirection := direction, lastPrice := price, dx0 := 0, dy0 := 0)
    else s.window
  }

  function CalcSlip(p: nat, spot: nat, decimals: nat): Result<nat> { MdR(DiffAbs(p, spot), decimals, spot) }

  function CalcEma(p: nat, spot: nat, average: nat, emaParam: nat): Result<nat>
  {
    var slip :- CalcSlip(p, spot, ORACLE_DECIMALS);
    var rest :- SubR(ORACLE_DECIMALS, emaParam);
    Ok(Md(average, emaParam, ORACLE_DECIMALS) + Md(slip, rest, ORACLE_DECIMALS))
  }

  function TradeFee(env: Env, amount: nat): nat { Md(amount, env.cfg.tradingFee, WAD) + env.cfg.flatTradingFee }

  /** The share of a fee rebated when no frontend is named, and paid to the frontend otherwise. */
  function FrontendPart(env: Env, fee: nat): nat { Md(fee, env.cfg.feeFrontend, FEE_FRACTIONS) }

  /** What of `size` enters the curve in a long that is larger than its fee. */
  function LongInput(env: Env, t: TradeArgs, fee: nat): Result<nat>
  {
    if t.frontend == ZERO_ADDRESS then
      var kept :- SubR(fee, FrontendPart(env, fee));
      SubR(t.size, kept)
    else SubR(t.size, fee)
  }

  function LongGuess(t: TradeArgs, asset: nat, zeroSlippage: nat): nat
  {
    if asset <= zeroSlippage then 0
    else if t.guess > asset || t.guess < asset - zeroSlippage then asset - zeroSlippage
    else t.guess
  }

  function ShortGuess(t: TradeArgs, stable: nat, zeroSlippage: nat): nat
  {
    if stable <= zeroSlippage then 0
    else if t.guess > stable || t.guess < stable - zeroSlippage then stable - zeroSlippage
    else t.guess
  }

  function LongQuote(env: Env, s: State, t: TradeArgs, w: Window): Result<Quote>
  {
    var zeroSlippage :- MdR(t.size, ORACLE_DECIMALS, t.price);
    var guess := LongGuess(t, s.pool.asset, zeroSlippage);
    var fee := TradeFee(env, t.size);
    var q :- if t.size > fee then LongCurve(env, s, t, w, guess, fee) else Ok(Quote(0, t.size, 0, w));
    if t.minReturn <= q.tradeReturn <= zeroSlippage then Ok(q) else Err("T4")
  }

  function LongCurve(env: Env, s: State, t: TradeArgs, w: Window, guess: nat, fee: nat): Result<Quote>
    requires fee <= t.size
  {
    var input :- LongInput(env, t, fee);
    var stableAnchor :- SubR(s.pool.stable, w.dy0);
    var out :- env.curve.long(input + w.dy0, t.price, guess, stableAnchor, s.pool.asset + w.dx0);
    var tradeReturn :- SubR(out, w.dx0);
    var avg :- if s.lastOp != env.now then
                 var paid :- MdR(t.size - fee, ORACLE_DECIMALS, tradeReturn);
                 CalcEma(paid, t.price, w.avgSlippageL, env.cfg.emaParam)
               else Ok(w.avgSlippageL);
    Ok(Quote(tradeReturn, fee, 0, w.(dy0 := w.dy0 + input, dx0 := w.dx0 + tradeReturn, avgSlippageL := avg)))
  }

  function ShortCurve(env: Env, s: State, t: TradeArgs, w: Window, guess: nat): Result<(nat, Window)>
  {
    var assetAnchor :- SubR(s.pool.asset, w.dx0);
    var out :- env.curve.short(t.size + w.dx0, t.price, guess + w.dy0, s.pool.stable + w.dy0, assetAnchor);
    var total :- SubR(out, w.dy0);
    var avg :- if s.lastOp != env.now then
                 var paid :- MdR(total, ORACLE_DECIMALS, t.size);
                 CalcEma(paid, t.price, w.avgSlippageS, env.cfg.emaParam)
               else Ok(w.avgSlippageS);
    Ok((total, w.(dx0 := w.dx0 + t.size, dy0 := w.dy0 + total, avgSlippageS := avg)))
  }

  function ShortQuote(env: Env, s: State, t: TradeArgs, w: Window): Result<Quote>
  {
    var zeroSlippage := Md(t.size, t.price, ORACLE_DECIMALS);
    var out :- ShortCurve(env, s, t, w, ShortGuess(t, s.pool.stable, zeroSlippage));
    var (total, after) := out;
    var charged := TradeFee(env, total);
    var fee := if charged < total then charged else total;
    var rebate := if t.frontend == ZERO_ADDRESS then FrontendPart(env, fee) else 0;
    var tradeReturn := total - fee + rebate;
    if t.minReturn <= tradeReturn <= zeroSlippage then Ok(Quote(tradeReturn, fee, total, after)) else Err("T4")
  }

  /** A trader's position after the trade itself. */
  function TradedPosition(p: Position, direction: bool, size: nat, tradeReturn: nat): Position
  {
    if direction then DebitStable(p, size).(balanceAsset := p.balanceAsset + tradeReturn)
    else DebitAsset(p, size).(balanceStable := p.balanceStable + tradeReturn)
  }

  /** Funding, exposure and position of the trader. */
  function SettleTrader(s: State, t: TradeArgs, tradeReturn: nat): Result<State>
  {
    var fee :- FundingFee(s, t.user);
    var change := if t.direction then Signed(tradeReturn, true) else Signed(t.size, false);
    var r := StampRate(CreditFunding(RefreshFundingSnapshot(s, t.user), t.user, fee), t.user);
    var traded := TradedPosition(r.Pos(t.user), t.direction, t.size, tradeReturn);
    Ok(r.(exposure := SignedSum(s.exposure, change)).SetPos(t.user, traded))
  }

  /** The stable amount a long adds to the pool. */
  function LongPoolInput(env: Env, t: TradeArgs, fee: nat): Result<nat>
  {
    var adj :- SubR(t.size, Md(fee, FEE_FRACTIONS - env.cfg.feeLp, FEE_FRACTIONS));
    Ok(adj + (if t.frontend == ZERO_ADDRESS then FrontendPart(env, fee) else 0))
  }

  /** The stable amount a short takes from the pool. */
  function ShortPoolOutput(env: Env, q: Quote): Result<nat>
  {
    SubR(q.total, Md(q.fee, env.cfg.feeLp, FEE_FRACTIONS))
  }

  /** Fan the trade out over the epoch matrices, and move the pool. */
  function MovePool(env: Env, s: State, t: TradeArgs, q: Quote): Result<State>
  {
    if t.direction then
      var paid :- LongPoolInput(env, t, q.fee);
      var aY :- MdR(paid, M_DECIMALS, s.pool.asset);
      var aX :- MdR(q.tradeReturn, M_DECIMALS, s.pool.asset);
      var asset :- SubR(s.pool.asset, q.tradeReturn);
      Ok(s.(ep := ApplyMatrixUpdate(s.ep, aX, aY, LongUpdate), pool := Pool(s.pool.stable + paid, asset)))
    else
      var net :- ShortPoolOutput(env, q);
      var aX :- MdR(t.size, M_DECIMALS, s.pool.stable);
      var aY :- MdR(net, M_DECIMALS, s.pool.stable);
      var stable :- SubR(s.pool.stable, net);
      Ok(s.(ep := ApplyMatrixUpdate(s.ep, aX, aY, ShortUpdate), pool := Pool(stable, s.pool.asset + t.size)))
  }

  /** A protocol fee fills the insurance fund up to its cap; the rest goes to the protocol address. */
  function AssignProtocolFee(s: State, cap: nat, fee: nat, protocol: Address): (r: State)
    ensures r == s.(insurance := r.insurance, positions := r.positions)
  {
    if s.insurance.pos then
      if s.insurance.mag < cap then
        var capLeft := cap - s.insurance.mag;
        if fee <= capLeft then s.(insurance := Signed(s.insurance.mag + fee, true))
        else CreditStable(s.(insurance := Signed(cap, true)), protocol, fee - capLeft)
      else CreditStable(s, protocol, fee)
    else
      var capacity := cap + s.insurance.mag;
      if fee <= capacity then s.(insurance := SignedSum(s.insurance, Signed(fee, true)))
      else CreditStable(s.(insurance := Signed(cap, true)), protocol, fee - capacity)
  }

  function PayFees(env: Env, s: State, t: TradeArgs, fee: nat): (r: State)
    ensures r == s.(insurance := r.insurance, positions := r.positions)
  {
    var protocolFee := Md(fee, FEE_FRACTIONS - env.cfg.feeLp - env.cfg.feeFrontend, FEE_FRACTIONS);
    var r := AssignProtocolFee(s, env.cfg.insuranceFundCap, protocolFee, env.cfg.feeProtocolAddr);
    if t.frontend != ZERO_ADDRESS then CreditStable(r, t.frontend, FrontendPart(env, fee)) else r
  }

  predicate PoolDeepEnough(pool: Pool, price: nat)
  {
    pool.stable >= WAD && Md(pool.asset, price, ORACLE_DECIMALS) >= WAD
  }

  /** The quote of a trade in the window it opens or joins. */
  function TradeQuote(env: Env, s: State, t: TradeArgs): Result<Quote>
  {
    var w := OpenWindow(env, s, t.direction, t.price);
    if t.direction then LongQuote(env, s, t, w) else ShortQuote(env, s, t, w)
  }

  function ExecuteTrade(env: Env, s: State, t: TradeArgs): Result<(State, nat)>
  {
    var q :- TradeQuote(env, s, t);
    if !(if t.direction then q.tradeReturn < s.pool.asset else q.tradeReturn < s.pool.stable) then Err("T5")
    else
      var funded :- UpdateFG(env, s.(window := q.window), t.price);
      var settled :- SettleTrader(funded, t, q.tradeReturn);
      var moved :- MovePool(env, settled, t, q);
      var paid := PayFees(env, moved, t, q.fee);
      if PoolDeepEnough(paid.pool, t.price) then Ok((paid, q.tradeReturn)) else Err("T3")
  }

  /** The trade entry point: minimum size, the trade, then the trader's margin. */
  function Trade(env: Env, s: State, t: TradeArgs, collateral: nat): Result<State>
  {
    var worth := if t.direction then t.size else Md(t.size, t.price, ORACLE_DECIMALS);
    if worth < env.cfg.minimumTradeSize then Err("T2")
    else
      var r :- ExecuteTrade(env, s, t);
      var mr :- CalcMr(env, r.0, t.user, t.price, collateral);
      if mr > env.cfg.mmr then Ok(r.0) else Err("T1")
  }

  // ----- Liquidity -----

  /** The fee curve shared by deposits and withdrawals once its anchors are known. */
  function FeeCurve(p: nat, pPrime: nat, pSecond: nat, numFirst: nat, k: nat, maxFee: nat): Result<nat>
  {
    var d1 :- MdR(DiffAbs(pPrime, p), DiffAbs(pPrime, p), p);
    var d2 :- MdR(DiffAbs(pSecond, p), DiffAbs(pSecond, p), p);
    var rel1 :- MdR(d1, WAD, p);
    var rel2 :- MdR(d2, WAD, p);
    var tail := Md(rel2, LIQUIDITY_FEE_DECIMALS, WAD);
    MdR(Md(numFirst, WAD + rel1, WAD) + tail, maxFee, Md(k, WAD + rel1, WAD) + tail)
  }

  /** Deposit fee: none on an empty or one-sided pool. */
  function DepositFee(cfg: Config, stable: nat, asset: nat, pool: Pool, price: nat): Result<nat>
  {
    if pool.stable == 0 || pool.asset == 0 then Ok(0)
    else if cfg.liquidityMaxFee == 0 then Ok(0)
    else
      var stableHeavy := Md(pool.stable, WAD, pool.asset) > Md(price, WAD, ORACLE_DECIMALS);
      var p :- if stableHeavy then Ok(Md(price, WAD, ORACLE_DECIMALS)) else MdR(WAD, ORACLE_DECIMALS, price);
      var pPrime := if stableHeavy then Md(pool.stable, WAD, pool.asset) else Md(pool.asset, WAD, pool.stable);
      var pSecond :- if stableHeavy then MdR(pool.stable + stable, WAD, pool.asset + asset)
                     else MdR(pool.asset + asset, WAD, pool.stable + stable);
      if pSecond < pPrime && pSecond > p then Ok(cfg.liquidityMinFee)
      else FeeCurve(p, pPrime, pSecond, Md(cfg.liquidityMinFee, cfg.liquidityFeeK, cfg.liquidityMaxFee),
                    cfg.liquidityFeeK, cfg.liquidityMaxFee)
  }

  /** Withdrawal fee: waived on a one-sided pool and when almost nothing is left. */
  function RemovalFee(cfg: Config, stable: nat, asset: nat, pool: Pool, price: nat): Result<nat>
  {
    if cfg.liquidityMaxFee == 0 then Ok(0)
    else if pool.stable == 0 || pool.asset == 0 then Ok(0)
    else
      var stableLeft :- SubR(pool.stable, stable);
      var assetLeft :- SubR(pool.asset, asset);
      var waived :- if stableLeft < 10 * WAD then
                      var assetFloor :- MdR(10 * WAD, ORACLE_DECIMALS, price);
                      Ok(assetLeft < assetFloor)
                    else Ok(false);
      if waived then Ok(0)
      else
        var stableHeavy := Md(pool.stable, WAD, pool.asset) > Md(price, WAD, ORACLE_DECIMALS);
        if stableHeavy && assetLeft == 0 then Ok(cfg.liquidityMaxFee)
        else if !stableHeavy && stableLeft == 0 then Ok(0)
        else
          var p :- if stableHeavy then Ok(Md(price, WAD, ORACLE_DECIMALS)) else MdR(WAD, ORACLE_DECIMALS, price);
          var pPrime := if stableHeavy then Md(pool.stable, WAD, pool.asset) else Md(pool.asset, WAD, pool.stable);
          var pSecond :- if stableHeavy then MdR(stableLeft, WAD, assetLeft) else MdR(assetLeft, WAD, stableLeft);
          if pSecond < pPrime && pSecond > p then Ok(cfg.liquidityMinFee)
          else
            var minOverMax := Md(cfg.liquidityMinFee, LIQUIDITY_FEE_DECIMALS, cfg.liquidityMaxFee);
            FeeCurve(p, pPrime, pSecond, Md(minOverMax, cfg.liquidityFeeK, LIQUIDITY_FEE_DECIMALS),
                     cfg.liquidityFeeK, cfg.liquidityMaxFee)
  }

  /** Hand a liquidity fee to the LPs through row 0 of the matrices; a one-sided pool takes nothing. */
  function DistributeFee(s: State, fee: nat, price: nat): State
  {
    var total := s.pool.stable + Md(s.pool.asset, price, ORACLE_DECIMALS);
    if fee > 0 && s.pool.asset != 0 && s.pool.stable != 0 && total > 0 then
      DivMod(fee * s.pool.stable, total);
      FeeShare(fee, s.pool.stable, total);
      var feeStable := Md(fee, s.pool.stable, total);
      var aX := Md(feeStable, M_DECIMALS, s.pool.stable);
      var aY := Md(fee - feeStable, M_DECIMALS, s.pool.asset);
      s.(ep := ApplyMatrixUpdate(s.ep, aX, aY, FeeUpdate), pool := s.pool.(stable := s.pool.stable + fee))
    else s
  }

  lemma FeeShare(fee: nat, part: nat, total: nat)
    requires part <= total && total > 0
    ensures Md(fee, part, total) <= fee
  {
    MulMonotone(fee, part, total);
    DivMonotone(fee * part, fee * total, total);
    DivCancel(fee, total);
  }

  /** Take `fee` from a stable amount, overflowing into debt: what is left, and what is owed. */
  function TakeFee(stable: nat, fee: nat): (nat, nat)
  {
    if stable >= fee then (stable - fee, 0) else (0, fee - stable)
  }

  /** Repay an LP's debts out of what it withdrew and credit the rest to its trader balances. */
  function CreditWithdrawal(s: State, user: Address, stable: nat, asset: nat, owed: nat): State
  {
    var lp := s.Lp(user);
    var (rs, ds) := ReduceValue(stable, lp.debtStable);
    var (ra, da) := ReduceValue(asset, lp.debtAsset);
    var p := s.Pos(user);
    var paid := p.(debtStable := p.debtStable + owed, balanceStable := p.balanceStable + rs,
                   balanceAsset := p.balanceAsset + ra);
    s.SetLp(user, lp.(debtStable := ds, debtAsset := da)).SetPos(user, paid).(exposure := RaiseExposure(s.exposure, ra))
  }

  /** Exposure plus an asset amount, as the withdrawal writes it. */
  function RaiseExposure(e: Signed, amount: nat): Signed
  {
    if amount == 0 then e
    else if e.pos then Signed(e.mag + amount, true)
    else Signed(DiffAbs(e.mag, amount), e.mag < amount)
  }

  /** Exposure minus an asset amount, as the close writes it. */
  function LowerExposure(e: Signed, amount: nat): Signed
  {
    if amount == 0 then e
    else if !e.pos then Signed(e.mag + amount, false)
    else Signed(DiffAbs(e.mag, amount), e.mag > amount)
  }

  function ResetWindow(env: Env, s: State, price: nat): State
  {
    s.(window := s.window.(lastUpdate := env.now, lastPrice := price, dx0 := 0, dy0 := 0))
  }

  /** Pull liquidity out of an LP's position. Returns the state and the fee charged. */
  function RemoveLiquidityCore(env: Env, s: State, stable: nat, asset: nat, user: Address, price: nat,
                               maxFee: nat): Result<(State, nat)>
  {
    var balance :- LpBalance(s, user);
    if balance.0 < stable || balance.1 < asset then Err("L5")
    else
      var funded :- UpdateFG(env, s, price);
      var owes :- FundingFee(funded, user);
      var moved :- UpdateSnapshots(CreditFunding(funded, user, owes), user, balance.0 - stable, balance.1 - asset);
      TakeFromPool(env, moved, stable, asset, user, price, maxFee)
  }

  /** The withdrawal itself, once the LP has its new snapshot: fee, pool, and the user's debts and balances. */
  function TakeFromPool(env: Env, s: State, stable: nat, asset: nat, user: Address, price: nat,
                        maxFee: nat): Result<(State, nat)>
  {
    var rate :- RemovalFee(env.cfg, stable, asset, s.pool, price);
    var fee := Md(stable + Md(asset, price, ORACLE_DECIMALS), rate, LIQUIDITY_FEE_DECIMALS);
    if maxFee < fee && maxFee != 0 then Err("L6")
    else if s.pool.stable < stable || s.pool.asset < asset then Err("RLA")
    else
      var pulled := s.(pool := Pool(s.pool.stable - stable, s.pool.asset - asset));
      var shared := DistributeFee(pulled, fee, price);
      var (left, owed) := TakeFee(stable, fee);
      Ok((ResetWindow(env, CreditWithdrawal(shared, user, left, asset, owed), price), fee))
  }

  predicate MinimumMove(env: Env, stable: nat, asset: nat, price: nat)
  {
    stable + Md(asset, price, ORACLE_DECIMALS) >= env.cfg.minimumLiquidityMovement
  }

  /** Not in bad debt: the profit is positive, or the loss is below the collateral. */
  function RequireSolvent(env: Env, s: State, user: Address, price: nat, collateral: nat): (r: Result<State>)
    ensures r.Ok? ==> r.value == s
  {
    var pnl :- CalcPnlUser(env, s, user, price);
    if pnl.mag < collateral || pnl.pos then Ok(s) else Err("C1")
  }

  function RemoveLiquidity(env: Env, s: State, stable: nat, asset: nat, user: Address, price: nat, maxFee: nat,
                           collateral: nat): Result<State>
  {
    if !MinimumMove(env, stable, asset, price) then Err("L4")
    else
      var r :- RemoveLiquidityCore(env, s, stable, asset, user, price, maxFee);
      RequireSolvent(env, r.0, user, price, collateral)
  }

  /** Fold a deposit, and the LP's existing balance re-added, into the pool. */
  function AddLiquidityCore(env: Env, s: State, stable: nat, asset: nat, fee: nat, price: nat,
                            user: Address): Result<State>
  {
    var newRate :- FundingRate(env, s, price, s.lastOp);
    var owes :- FundingFeeWith(s, user, SignedSum(s.rate, newRate));
    var funded :- UpdateFG(env, CreditFunding(s, user, owes), price);
    var (left, owed) := TakeFee(stable, fee);
    var lp := funded.Lp(user);
    var indebted := funded.SetLp(user, lp.(debtStable := lp.debtStable + stable + owed,
                                           debtAsset := lp.debtAsset + asset));
    var shared := DistributeFee(indebted, fee, price);
    RejoinPool(shared, user, left, asset)
  }

  /** Take an LP's balance out of the pool and put it back with a deposit on top, under a fresh snapshot. */
  function RejoinPool(s: State, user: Address, stable: nat, asset: nat): Result<State>
  {
    var held :- LpBalance(s, user);
    var stableLeft :- if s.pool != Pool(0, 0) then SubR(s.pool.stable, held.0) else Ok(0);
    var assetLeft :- if s.pool != Pool(0, 0) then SubR(s.pool.asset, held.1) else Ok(0);
    var grown := s.(pool := Pool(stableLeft + (stable + held.0), assetLeft + (asset + held.1)));
    UpdateSnapshots(grown, user, stable + held.0, asset + held.1)
  }

  function AddLiquidity(env: Env, s: State, stable: nat, asset: nat, maxFee: nat, user: Address, price: nat,
                        collateral: nat): Result<State>
  {
    if !MinimumMove(env, stable, asset, price) then Err("L1")
    else
      var rate :- DepositFee(env.cfg, stable, asset, s.pool, price);
      var fee := Md(stable + Md(asset, price, ORACLE_DECIMALS), rate, LIQUIDITY_FEE_DECIMALS);
      if fee > maxFee && maxFee != 0 then Err("L2")
      else
        var added :- AddLiquidityCore(env, s, stable, asset, fee, price, user);
        var reset := ResetWindow(env, added, price);
        var solvent :- RequireSolvent(env, reset, user, price, collateral);
        var debtStable := solvent.Lp(user).debtStable + solvent.Pos(user).debtStable;
        var debtAsset := solvent.Lp(user).debtAsset + solvent.Pos(user).debtAsset;
        if debtStable + Md(debtAsset, price, ORACLE_DECIMALS) <= collateral * env.cfg.maxLpLeverage then Ok(solvent)
            else Err("L3")
  }

  // ----- Close -----

  const DUST: nat := 10_000_000_000
  const BPS: nat := 100_000

  /** Withdraw everything, and turn what LP debt remains into trader debt. */
  function CloseLp(env: Env, s: State, user: Address, price: nat, maxLiqFee: nat): Result<State>
  {
    var balance :- LpBalance(s, user);
    var lp := s.Lp(user);
    if balance.0 == 0 && balance.1 == 0 && lp.debtAsset == 0 && lp.debtStable == 0 then Ok(s.SetLp(user, EMPTY_LP))
    else
      var r :- RemoveLiquidityCore(env, s, balance.0, balance.1, user, price, maxLiqFee);
      var rest, p := r.0.Lp(user), r.0.Pos(user);
      var p' := p.(debtAsset := p.debtAsset + rest.debtAsset, debtStable := p.debtStable + rest.debtStable);
      Ok(r.0.SetPos(user, p').(exposure := LowerExposure(r.0.exposure, rest.debtAsset)).SetLp(user, EMPTY_LP))
  }

  /** The window a buy-back reads: reset when it has expired, turned, or seen another price. */
  function BuyBackInput(env: Env, s: State, debt: nat, frontend: Address, price: nat): Result<nat>
  {
    var w := s.window;
    var exactIn :- env.curve.exactInLong(debt + w.dx0, price, s.pool.stable, s.pool.stable, s.pool.asset);
    var amountIn :- SubR(exactIn, w.dy0);
    if frontend == ZERO_ADDRESS && env.cfg.feeFrontend > 0 then
      var charged := FEE_FRACTIONS - env.cfg.feeFrontend;
      var denominator :- SubR(WAD * FEE_FRACTIONS, env.cfg.tradingFee * charged);
      if denominator == 0 then Err("DIV0")
      else Ok(MdCeil(amountIn, WAD * FEE_FRACTIONS, denominator)
              + MdCeil(env.cfg.flatTradingFee * charged, WAD, denominator))
    else
      var rest :- SubR(WAD, env.cfg.tradingFee);
      MdR(amountIn + env.cfg.flatTradingFee, WAD, rest)
  }

  /** Sell a net long position. */
  function SellAll(env: Env, s: State, user: Address, frontend: Address, price: nat, maxSlippage: nat): Result<State>
    requires s.Pos(user).balanceAsset >= s.Pos(user).debtAsset
  {
    var p := s.Pos(user);
    var size := p.balanceAsset - p.debtAsset;
    var keep :- SubR(BPS, maxSlippage);
    var minReturn := Md(Md(size, price, ORACLE_DECIMALS), keep, BPS);
    var netted := s.SetPos(user, p.(balanceAsset := size, debtAsset := 0));
    var r :- ExecuteTrade(env, netted, TradeArgs(user, false, size, minReturn, s.pool.stable, frontend, price));
    Ok(r.0)
  }

  /** Buy back a net short position; what the inversion leaves must be within the C0 bound. */
  function BuyBack(env: Env, s: State, user: Address, frontend: Address, price: nat, maxSlippage: nat): Result<State>
  {
    var turned := s.(window := OpenWindow(env, s, true, price));
    var needed :- BuyBackInput(env, turned, s.Pos(user).debtAsset, frontend, price);
    var keep :- SubR(BPS, maxSlippage);
    var worth :- MdR(needed, ORACLE_DECIMALS, price);
    var r :- ExecuteTrade(env, turned, TradeArgs(user, true, needed, Md(worth, keep, BPS), s.pool.asset, frontend,
                                                 price));
    var p := r.0.Pos(user);
    if Md(DiffAbs(p.balanceAsset, p.debtAsset), price, ORACLE_DECIMALS) < CloseBound(r.0.pool) then Ok(r.0)
        else Err("C0")
  }

  /** The residual a buy-back may leave: dust, or a 1e-10 part of the pool. */
  function CloseBound(pool: Pool): nat
  {
    if pool.stable / DUST >= DUST then pool.stable / DUST else DUST
  }

  /** Bring the net asset of a position to nothing, or to a residual too small to trade. */
  function Flatten(env: Env, s: State, user: Address, frontend: Address, price: nat, maxSlippage: nat): Result<State>
  {
    var p := s.Pos(user);
    if Md(DiffAbs(p.balanceAsset, p.debtAsset), price, ORACLE_DECIMALS) < DUST then
      Ok(s.SetPos(user, p.(balanceAsset := p.debtAsset)))
    else
      var sold :- if p.balanceAsset > p.debtAsset then SellAll(env, s, user, frontend, price, maxSlippage)
                  else Ok(s.SetPos(user, p.(debtAsset := p.debtAsset - p.balanceAsset, balanceAsset := 0)));
      if sold.Pos(user).debtAsset > 0 then BuyBack(env, sold, user, frontend, price, maxSlippage) else Ok(sold)
  }

  function Close(env: Env, s: State, user: Address, maxSlippage: nat, maxLiqFee: nat, frontend: Address, price: nat,
                 collateral: nat, isSelfClose: bool): Result<(State, Signed)>
  {
    var exited :- CloseLp(env, s, user, price, maxLiqFee);
    var flat :- Flatten(env, exited, user, frontend, price, maxSlippage);
    var pnl :- CalcPnlUser(env, flat, user, price);
    if isSelfClose && !pnl.pos && pnl.mag >= collateral then Err("C1")
    else
      var cleared := flat.SetPos(user, EMPTY_POSITION);
      if collateral < pnl.mag && !pnl.pos
      then Ok((cleared.(insurance := SignedSum(cleared.insurance, Signed(pnl.mag - collateral, false))), pnl))
      else Ok((cleared, pnl))
  }

  /** Third-party close: the fee moves from the user to the caller, then the user is closed. */
  function AutoClose(env: Env, s: State, caller: Address, user: Address, maxSlippage: nat, maxLiqFee: nat,
                     frontend: Address,
                     price: nat, collateral: nat): Result<(State, Signed)>
  {
    Close(env, MoveAutoCloseFee(env, s, caller, user), user, maxSlippage, maxLiqFee, frontend, price, collateral, true)
  }

  function MoveAutoCloseFee(env: Env, s: State, caller: Address, user: Address): State
  {
    var charged := s.SetPos(user, s.Pos(user).(debtStable := s.Pos(user).debtStable + env.cfg.autoCloseFee));
    CreditStable(charged, caller, env.cfg.autoCloseFee)
  }

  /** Move a realised amount out of (or, for a loss, into) a position's stable side. */
  function TakePnl(p: Position, pnl: Signed): Position
  {
    if pnl.pos then DebitStable(p, pnl.mag) else CreditStableViaDebt(p, pnl.mag)
  }

  /** Settle a user's profit into collateral in place. Returns the state and the amount moved. */
  function RealizePnl(env: Env, s: State, user: Address, price: nat, collateral: nat): Result<(State, Signed)>
  {
    var funded :- UpdateFG(env, s, price);
    var pnl :- CalcPnlUser(env, funded, user, price);
    if !pnl.pos && pnl.mag >= collateral then Err("R1")
    else
      var settled :- SettleAndSnapshot(funded, user);
      Ok((settled.SetPos(user, TakePnl(settled.Pos(user), pnl)), pnl))
  }

  /** Settle funding and force an LP's snapshot into the current epoch. */
  function UpdateLpSnapshot(env: Env, s: State, user: Address, price: nat): Result<State>
  {
    if !s.Active(user) then Err("LS0")
    else
      var funded :- UpdateFG(env, s, price);
      SettleAndSnapshot(funded, user)
  }

  // ----- Liquidation -----

  function LiquidationDiscount(cfg: Config, marginRatio: nat): Result<nat>
  {
    var step1, step0 := cfg.mmr, cfg.mmr / 2;
    if marginRatio <= step0 then
      var part :- MdR(step0 - marginRatio, DUST, step0);
      Ok(Md(cfg.liquidationDiscount, DUST + part, DUST))
    else
      var gap :- SubR(step1, marginRatio);
      var part :- MdR(gap, DUST, step1 - step0);
      Ok(Md(cfg.liquidationDiscount / 2, DUST + part, DUST))
  }

  /** The price, in stable, at which a net long position changes hands. */
  function LongTransferValue(env: Env, s: State, amount: nat, price: nat): Result<nat>
  {
    var dy :- env.curve.short(amount, price, s.pool.stable, s.pool.stable, s.pool.asset);
    var paid :- MdR(dy, ORACLE_DECIMALS, amount);
    var slip :- CalcSlip(paid, price, ORACLE_DECIMALS);
    Ok(if slip > env.cfg.slipLiquidationTh * s.window.avgSlippageS then Md(amount, price, ORACLE_DECIMALS) else dy)
  }

  /** The price at which a net short position changes hands: spot when the pool cannot buy it back. */
  function ShortTransferValue(env: Env, s: State, user: Address, amount: nat, price: nat, collateral: nat): Result<nat>
  {
    var spot := Md(amount, price, ORACLE_DECIMALS);
    if amount > s.pool.asset then Ok(spot)
    else
      var exactIn :- env.curve.exactInLong(amount, price, s.pool.stable, s.pool.stable, s.pool.asset);
      var pnl0 :- CalcPnlUserInternal(env, s, user, price, true);
      var premium :- SubR(exactIn, spot);
      var pnl := SignedSum(pnl0, Signed(premium, false));
      var paid :- MdR(exactIn, ORACLE_DECIMALS, amount);
      var slip :- CalcSlip(paid, price, ORACLE_DECIMALS);
      Ok(if (pnl.mag > collateral && !pnl.pos) || slip > env.cfg.slipLiquidationTh * s.window.avgSlippageL then spot
         else exactIn)
  }

  /** Hand `amount` of a net long position to the liquidator for dy, and pay the insurance share. */
  function TransferLong(env: Env, s: State, user: Address, liquidator: Address, amount: nat, dy: nat,
                        share: nat): (r: Result<State>)
    ensures r.Ok? ==> r.value == s.(insurance := r.value.insurance, positions := r.value.positions)
  {
    var p := s.Pos(user);
    if p.balanceAsset < amount then Err("LQ1")
    else
      var s1 := s.SetPos(user, p.(balanceAsset := p.balanceAsset - amount));
      var l := s1.Pos(liquidator);
      var s2 := s1.SetPos(liquidator, l.(balanceAsset := l.balanceAsset + amount));
      var s3 := s2.SetPos(liquidator, DebitStable(s2.Pos(liquidator), dy));
      var s4 := s3.SetPos(user, CreditStableViaDebt(s3.Pos(user), dy));
      var s5 := s4.SetPos(liquidator, DebitStable(s4.Pos(liquidator), share));
      Ok(AssignProtocolFee(s5, env.cfg.insuranceFundCap, share, liquidator))
  }

  function TransferShort(env: Env, s: State, user: Address, liquidator: Address, amount: nat, dy: nat,
                         share: nat): (r: State)
    ensures r == s.(insurance := r.insurance, positions := r.positions)
  {
    var s1 := s.SetPos(user, DebitStable(s.Pos(user), dy));
    var s2 := CreditStable(s1, liquidator, dy);
    var s3 := s2.SetPos(liquidator, DebitAsset(s2.Pos(liquidator), amount));
    var s4 := s3.SetPos(user, CreditAssetViaDebt(s3.Pos(user), amount));
    var s5 := s4.SetPos(liquidator, DebitStable(s4.Pos(liquidator), share));
    AssignProtocolFee(s5, env.cfg.insuranceFundCap, share, liquidator)
  }

  function LiquidatePosition(env: Env, s: State, amount: nat, user: Address, discount: nat, direction: bool,
                             liquidator: Address, price: nat, collateral: nat): (r: Result<State>)
    ensures r.Ok? ==> r.value == s.(insurance := r.value.insurance, positions := r.value.positions)
  {
    var part :- DivR(discount, env.cfg.insFundFraction);
    if direction then
      var value :- LongTransferValue(env, s, amount, price);
      var keep :- SubR(LIQUIDATION_DECIMALS, discount);
      TransferLong(env, s, user, liquidator, amount, Md(keep, value, LIQUIDATION_DECIMALS),
                   Md(part, value, LIQUIDATION_DECIMALS))
    else
      var value :- ShortTransferValue(env, s, user, amount, price, collateral);
      Ok(TransferShort(env, s, user, liquidator, amount,
                       Md(LIQUIDATION_DECIMALS + discount, value, LIQUIDATION_DECIMALS),
                       Md(part, value, LIQUIDATION_DECIMALS)))
  }

  /** How much of an LP's liquidity a liquidation pulls out first. */
  function LiquidityToPull(s: State, user: Address, size: nat, fraction: nat, long: bool,
                           balance: (nat, nat)): Result<(nat, nat)>
  {
    var stable := Md(balance.0, fraction, LIQUIDATION_DECIMALS);
    var asset := Md(balance.1, fraction, LIQUIDATION_DECIMALS);
    var held := s.Pos(user).balanceAsset;
    if long && size > held then
      var required := s.Lp(user).debtAsset + size - held;
      var pull := if asset < required then required else asset;
      if pull <= balance.1 then Ok((stable, pull)) else Err("LQ1")
    else Ok((stable, asset))
  }

  function PullLiquidity(env: Env, s: State, user: Address, size: nat, fraction: nat, long: bool, balance: (nat, nat),
                         price: nat): Result<State>
  {
    if balance.0 == 0 && balance.1 == 0 then Ok(s)
    else
      var pull :- LiquidityToPull(s, user, size, fraction, long, balance);
      if pull.0 == 0 && pull.1 == 0 then Ok(s)
      else
        var r :- RemoveLiquidityCore(env, s, pull.0, pull.1, user, price, 0);
        Ok(r.0)
  }

  predicate FractionAllowed(cfg: Config, marginRatio: nat, fraction: nat)
  {
    if marginRatio <= cfg.mmr / 2 then fraction <= LIQUIDATION_DECIMALS
    else marginRatio <= cfg.mmr && fraction <= LIQUIDATION_DECIMALS / 2
  }

  /** The transfer part of a liquidation: funding, snapshots, liquidity, then the position. Returns the state and the
      fraction. */
  function LiquidateTransfer(env: Env, s: State, liquidator: Address, user: Address, size: nat, price: nat,
                             collateral: nat): Result<(State, nat)>
  {
    if user == liquidator then Err("LQ0")
    else
      var funded :- UpdateFG(env, s, price);
      var marginRatio :- CalcMr(env, funded, user, price, collateral);
      var before :- CalcPnlUserInternal(env, funded, user, price, true);
      var settled :- SettleAndSnapshot(funded, liquidator);
      var ready :- SettleAndSnapshot(settled, user);
      var balance :- LpBalance(ready, user);
      var held, owed := balance.1 + ready.Pos(user).balanceAsset, ready.Pos(user).debtAsset + ready.Lp(user).debtAsset;
      var fraction :- MdR(size, LIQUIDATION_DECIMALS, DiffAbs(held, owed));
      var pulled :- PullLiquidity(env, ready, user, size, fraction, held > owed, balance, price);
      if !FractionAllowed(env.cfg, marginRatio, fraction) then Err("LQ1")
      else
        var discount :- LiquidationDiscount(env.cfg, marginRatio);
        var moved :- LiquidatePosition(env, pulled, size, user, discount, held > owed, liquidator, price, collateral);
        Ok((StampRate(StampRate(moved, user), liquidator), fraction))
  }

  function Liquidate(env: Env, s: State, liquidator: Address, user: Address, size: nat, price: nat,
                     collateralUser: nat, collateralLiquidator: nat): Result<State>
  {
    var r :- LiquidateTransfer(env, s, liquidator, user, size, price, collateralUser);
    var mr :- CalcMr(env, r.0, liquidator, price, collateralLiquidator);
    if mr <= env.cfg.mmr then Err("LQ2")
    else
      var after :- CalcPnlUserInternal(env, r.0, user, price, true);
      if r.1 == LIQUIDATION_DECIMALS then
        var closed :- Close(env, r.0, user, BPS, LIQUIDITY_FEE_DECIMALS, liquidator, price, collateralUser, false);
        Ok(closed.0)
      else Ok(r.0)
  }

  // ----- Runs -----

  /** A call to one of the engine's entry points. */
  datatype Op =
    | TradeOp(t: TradeArgs, collateral: nat)
    | AddLiquidityOp(user: Address, stable: nat, asset: nat, maxFee: nat, price: nat, collateral: nat)
    | RemoveLiquidityOp(user: Address, stable: nat, asset: nat, maxFee: nat, price: nat, collateral: nat)
    | CloseOp(user: Address, maxSlippage: nat, maxLiqFee: nat, frontend: Address, price: nat, collateral: nat)
    | AutoCloseOp(caller: Address, user: Address, maxSlippage: nat, maxLiqFee: nat, frontend: Address, price: nat,
                  collateral: nat)
    | RealizePnlOp(user: Address, price: nat, collateral: nat)
    | LiquidateOp(liquidator: Address, user: Address, size: nat, price: nat, collateralUser: nat,
                  collateralLiquidator: nat)
    | UpdateLpSnapshotOp(user: Address, price: nat)
    | UpdateFGOp(price: nat)

  function Apply(env: Env, s: State, op: Op): Result<State>
  {
    match op
    case TradeOp(t, c) => Trade(env, s, t, c)
    case AddLiquidityOp(u, x, y, m, p, c) => AddLiquidity(env, s, x, y, m, u, p, c)
    case RemoveLiquidityOp(u, x, y, m, p, c) => RemoveLiquidity(env, s, x, y, u, p, m, c)
    case CloseOp(u, sl, lf, f, p, c) => var r :- Close(env, s, u, sl, lf, f, p, c, true); Ok(r.0)
    case AutoCloseOp(a, u, sl, lf, f, p, c) => var r :- AutoClose(env, s, a, u, sl, lf, f, p, c); Ok(r.0)
    case RealizePnlOp(u, p, c) => var r :- RealizePnl(env, s, u, p, c); Ok(r.0)
    case LiquidateOp(l, u, n, p, cu, cl) => Liquidate(env, s, l, u, n, p, cu, cl)
    case UpdateLpSnapshotOp(u, p) => UpdateLpSnapshot(env, s, u, p)
    case UpdateFGOp(p) => UpdateFG(env, s, p)
  }

  /** One transaction: a revert leaves the storage as it was. */
  function Step(env: Env, s: State, op: Op): State
  {
    var r := Apply(env, s, op);
    if r.Ok? then r.value else s
  }

  datatype Call = Call(env: Env, op: Op)

  function Run(s: State, calls: seq<Call>): State
  {
    if calls == [] then s
    else
      var last := |calls| - 1;
      Step(calls[last].env, Run(s, calls[..last]), calls[last].op)
  }
}
