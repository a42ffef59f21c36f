/** Liquidations and realised profit on the books, and what the books say on every run. */
module LedgerRuns {
  import opened Arith
  import opened EngineState
  import opened EngineSpec
  import opened EngineOps
  import opened MapSum
  import opened Ledger
  import opened LedgerClose

  // ----- Liquidation transfers -----

  lemma PrimitiveNets(p: Position, amount: nat)
    ensures AssetNet(DebitStable(p, amount)) == AssetNet(p)
            && StableNet(DebitStable(p, amount)) == StableNet(p) - amount
    ensures AssetNet(CreditStableViaDebt(p, amount)) == AssetNet(p)
            && StableNet(CreditStableViaDebt(p, amount)) == StableNet(p) + amount
    ensures AssetNet(DebitAsset(p, amount)) == AssetNet(p) - amount && StableNet(DebitAsset(p, amount)) == StableNet(p)
    ensures AssetNet(CreditAssetViaDebt(p, amount)) == AssetNet(p) + amount
            && StableNet(CreditAssetViaDebt(p, amount)) == StableNet(p)
  {}

  lemma AssetMoveNets(p: Position, amount: nat)
    ensures var q := p.(balanceAsset := p.balanceAsset + amount);
            AssetNet(q) == AssetNet(p) + amount
            && StableNet(q) == StableNet(p)
    ensures p.balanceAsset >= amount ==>
              var q := p.(balanceAsset := p.balanceAsset - amount);
                  AssetNet(q) == AssetNet(p) - amount
                  && StableNet(q) == StableNet(p)
  {}

  /** Handing over a net long position moves asset and stable between two users and the insurance fund, and creates
      none. */
  lemma TransferLongBooks(env: Env, s: State, user: Address, liquidator: Address, amount: nat, dy: nat, share: nat)
    requires TransferLong(env, s, user, liquidator, amount, dy, share).Ok?
    ensures Books(s, TransferLong(env, s, user, liquidator, amount, dy, share).value, 0, 0, 0)
  {
    hide SumOf, AssetNet, StableNet, DebitStable, CreditStableViaDebt, AssignProtocolFee, AssetTotal, ExposureGap,
         StableTotal;
    var p := s.Pos(user);
    AssetMoveNets(p, amount);
    var s1 := s.SetPos(user, p.(balanceAsset := p.balanceAsset - amount));
    NetBooks(s, user, p.(balanceAsset := p.balanceAsset - amount), -(amount as int), 0);
    var l := s1.Pos(liquidator);
    AssetMoveNets(l, amount);
    var s2 := s1.SetPos(liquidator, l.(balanceAsset := l.balanceAsset + amount));
    NetBooks(s1, liquidator, l.(balanceAsset := l.balanceAsset + amount), amount, 0);
    PrimitiveNets(s2.Pos(liquidator), dy);
    var s3 := s2.SetPos(liquidator, DebitStable(s2.Pos(liquidator), dy));
    NetBooks(s2, liquidator, DebitStable(s2.Pos(liquidator), dy), 0, -(dy as int));
    PrimitiveNets(s3.Pos(user), dy);
    var s4 := s3.SetPos(user, CreditStableViaDebt(s3.Pos(user), dy));
    NetBooks(s3, user, CreditStableViaDebt(s3.Pos(user), dy), 0, dy);
    PrimitiveNets(s4.Pos(liquidator), share);
    var s5 := s4.SetPos(liquidator, DebitStable(s4.Pos(liquidator), share));
    NetBooks(s4, liquidator, DebitStable(s4.Pos(liquidator), share), 0, -(share as int));
    ProtocolFeeBooks(s5, env.cfg.insuranceFundCap, share, liquidator);
  }

  /** So does handing over a net short position. */
  lemma TransferShortBooks(env: Env, s: State, user: Address, liquidator: Address, amount: nat, dy: nat, share: nat)
    ensures Books(s, TransferShort(env, s, user, liquidator, amount, dy, share), 0, 0, 0)
  {
    hide SumOf, AssetNet, StableNet, DebitStable, DebitAsset, CreditAssetViaDebt, CreditStable, AssignProtocolFee,
         AssetTotal, ExposureGap, StableTotal;
    PrimitiveNets(s.Pos(user), dy);
    var s1 := s.SetPos(user, DebitStable(s.Pos(user), dy));
    NetBooks(s, user, DebitStable(s.Pos(user), dy), 0, -(dy as int));
    var s2 := CreditStable(s1, liquidator, dy);
    StableCredit(s1, liquidator, dy);
    PrimitiveNets(s2.Pos(liquidator), amount);
    var s3 := s2.SetPos(liquidator, DebitAsset(s2.Pos(liquidator), amount));
    NetBooks(s2, liquidator, DebitAsset(s2.Pos(liquidator), amount), -(amount as int), 0);
    PrimitiveNets(s3.Pos(user), amount);
    var s4 := s3.SetPos(user, CreditAssetViaDebt(s3.Pos(user), amount));
    NetBooks(s3, user, CreditAssetViaDebt(s3.Pos(user), amount), amount, 0);
    PrimitiveNets(s4.Pos(liquidator), share);
    var s5 := s4.SetPos(liquidator, DebitStable(s4.Pos(liquidator), share));
    NetBooks(s4, liquidator, DebitStable(s4.Pos(liquidator), share), 0, -(share as int));
    ProtocolFeeBooks(s5, env.cfg.insuranceFundCap, share, liquidator);
  }

  /** A liquidation transfer keeps all three books exactly, whatever the discount and whichever price applies. */
  lemma LiquidatePositionBooks(env: Env, s: State, amount: nat, user: Address, discount: nat, direction: bool,
                               liquidator: Address, price: nat, collateral: nat)
    requires LiquidatePosition(env, s, amount, user, discount, direction, liquidator, price, collateral).Ok?
    ensures Books(s, LiquidatePosition(env, s, amount, user, discount, direction, liquidator, price, collateral).value,
                  0, 0, 0)
  {
    hide SumOf, TransferLong, TransferShort, LongTransferValue, ShortTransferValue, Md, Books;
    var part := DivR(discount, env.cfg.insFundFraction).value;
    if direction {
      var value := LongTransferValue(env, s, amount, price).value;
      TransferLongBooks(env, s, user, liquidator, amount,
                        Md(LIQUIDATION_DECIMALS - discount, value, LIQUIDATION_DECIMALS),
                        Md(part, value, LIQUIDATION_DECIMALS));
    } else {
      var value := ShortTransferValue(env, s, user, amount, price, collateral).value;
      TransferShortBooks(env, s, user, liquidator, amount,
                         Md(LIQUIDATION_DECIMALS + discount, value, LIQUIDATION_DECIMALS),
                         Md(part, value, LIQUIDATION_DECIMALS));
    }
  }

  /** What a liquidation loses when it pulls liquidity first. */
  function PullLoss(env: Env, s: State, user: Address, size: nat, fraction: nat, long: bool, balance: (nat, nat),
                    price: nat): nat
    requires PullLiquidity(env, s, user, size, fraction, long, balance, price).Ok?
  {
    if balance.0 == 0 && balance.1 == 0 then 0
    else
      var pull := LiquidityToPull(s, user, size, fraction, long, balance).value;
      if pull.0 == 0 && pull.1 == 0 then 0
      else RemovalLoss(env, s, pull.0, pull.1, user, price, 0)
  }

  lemma PullBooks(env: Env, s: State, user: Address, size: nat, fraction: nat, long: bool, balance: (nat, nat),
                  price: nat)
    requires PullLiquidity(env, s, user, size, fraction, long, balance, price).Ok?
    ensures CloseStep(s, PullLiquidity(env, s, user, size, fraction, long, balance, price).value, 0, 0,
                      PullLoss(env, s, user, size, fraction, long, balance, price))
  {
    hide SumOf, RemoveLiquidityCore, RemovalLoss, LiquidityToPull, AssetTotal, ExposureGap, StableTotal;
    if balance.0 != 0 || balance.1 != 0 {
      var pull := LiquidityToPull(s, user, size, fraction, long, balance).value;
      if pull.0 != 0 || pull.1 != 0 {
        RemoveBooks(env, s, pull.0, pull.1, user, price, 0);
      }
    }
  }

  // ----- Realised profit -----

  lemma TakePnlNets(p: Position, pnl: Signed)
    ensures AssetNet(TakePnl(p, pnl)) == AssetNet(p) && StableNet(TakePnl(p, pnl)) == StableNet(p) - pnl.Val()
  {}

  /** Realising profit moves exactly the realised amount from the books to the collateral. */
  lemma RealizeBooks(env: Env, s: State, user: Address, price: nat, collateral: nat)
    requires RealizePnl(env, s, user, price, collateral).Ok?
    ensures var (t, pnl) := RealizePnl(env, s, user, price, collateral).value; Books(s, t, 0, 0, -pnl.Val())
  {
    hide SumOf, UpdateFG, CalcPnlUser, SettleAndSnapshot, TakePnl, AssetTotal, ExposureGap, StableTotal, AssetNet,
         StableNet;
    var funded := UpdateFG(env, s, price).value;
    TickBooks(env, s, price);
    var pnl := CalcPnlUser(env, funded, user, price).value;
    SettleBooks(funded, user);
    var settled := SettleAndSnapshot(funded, user).value;
    TakePnlNets(settled.Pos(user), pnl);
    NetBooks(settled, user, TakePnl(settled.Pos(user), pnl), 0, -pnl.Val());
  }

  lemma AutoCloseFeeNets(p: Position, fee: nat)
    ensures var q := p.(debtStable := p.debtStable + fee);
            AssetNet(q) == AssetNet(p)
            && StableNet(q) == StableNet(p) - fee
  {}

  /** The auto-close fee moves from the user to the caller, even when they are the same account. */
  lemma AutoCloseFeeBooks(env: Env, s: State, caller: Address, user: Address)
    ensures Books(s, MoveAutoCloseFee(env, s, caller, user), 0, 0, 0)
  {
    hide SumOf, CreditStable, AssetTotal, ExposureGap, StableTotal, AssetNet, StableNet;
    var p, fee := s.Pos(user), env.cfg.autoCloseFee;
    AutoCloseFeeNets(p, fee);
    NetBooks(s, user, p.(debtStable := p.debtStable + fee), 0, -(fee as int));
    StableCredit(s.SetPos(user, p.(debtStable := p.debtStable + fee)), caller, fee);
  }

  // ----- Whole operations -----

  /** The state a liquidation works on: funding up to date, both users settled. */
  function BothSettled(env: Env, s: State, liquidator: Address, user: Address, price: nat): Result<State>
  {
    var funded :- UpdateFG(env, s, price);
    var settled :- SettleAndSnapshot(funded, liquidator);
    SettleAndSnapshot(settled, user)
  }

  lemma BothSettledBooks(env: Env, s: State, liquidator: Address, user: Address, price: nat)
    requires BothSettled(env, s, liquidator, user, price).Ok?
    ensures Books(s, BothSettled(env, s, liquidator, user, price).value, 0, 0, 0)
  {
    hide SumOf, UpdateFG, SettleAndSnapshot, AssetTotal, ExposureGap, StableTotal;
    var funded := UpdateFG(env, s, price).value;
    TickBooks(env, s, price);
    SettleBooks(funded, liquidator);
    SettleBooks(SettleAndSnapshot(funded, liquidator).value, user);
  }

  /** Net long or net short, as a liquidation sees it. */
  function Sides(s: State, user: Address): (nat, nat)
    requires LpBalance(s, user).Ok?
  {
    (LpBalance(s, user).value.1 + s.Pos(user).balanceAsset, s.Pos(user).debtAsset + s.Lp(user).debtAsset)
  }

  function LiquidationFraction(s: State, user: Address, size: nat): Result<nat>
    requires LpBalance(s, user).Ok?
  {
    MdR(size, LIQUIDATION_DECIMALS, DiffAbs(Sides(s, user).0, Sides(s, user).1))
  }

  /** The part of a liquidation before the transfer itself. */
  function Pulled(env: Env, s: State, user: Address, size: nat, price: nat): Result<State>
  {
    var balance :- LpBalance(s, user);
    var fraction :- LiquidationFraction(s, user, size);
    PullLiquidity(env, s, user, size, fraction, Sides(s, user).0 > Sides(s, user).1, balance, price)
  }

  function PulledLoss(env: Env, s: State, user: Address, size: nat, price: nat): nat
    requires Pulled(env, s, user, size, price).Ok?
  {
    PullLoss(env, s, user, size, LiquidationFraction(s, user, size).value, Sides(s, user).0 > Sides(s, user).1,
             LpBalance(s, user).value, price)
  }

  lemma LiquidationPhases(env: Env, s: State, liquidator: Address, user: Address, size: nat, price: nat,
                          collateral: nat) returns (discount: nat)
    requires LiquidateTransfer(env, s, liquidator, user, size, price, collateral).Ok?
    ensures BothSettled(env, s, liquidator, user, price).Ok?
    ensures var ready := BothSettled(env, s, liquidator, user, price).value;
            && Pulled(env, ready, user, size, price).Ok?
            && var moved := LiquidatePosition(env, Pulled(env, ready, user, size, price).value, size, user, discount,
                                              Sides(ready, user).0 > Sides(ready, user).1, liquidator, price,
                                                  collateral);
               moved.Ok? && LiquidateTransfer(env, s, liquidator, user, size, price, collateral).value.0
                            == StampRate(StampRate(moved.value, user), liquidator)
  {
    hide UpdateFG, CalcMr, CalcPnlUserInternal, SettleAndSnapshot, LpBalance, PullLiquidity, LiquidatePosition,
         LiquidationDiscount, StampRate,
         Md, FractionAllowed;
    discount := LiquidationDiscount(env.cfg, CalcMr(env, UpdateFG(env, s, price).value, user, price,
                                                    collateral).value).value;
  }

  lemma LiquidateTransferBooks(env: Env, s: State, liquidator: Address, user: Address, size: nat, price: nat,
                               collateral: nat)
    requires LiquidateTransfer(env, s, liquidator, user, size, price, collateral).Ok?
    ensures BothSettled(env, s, liquidator, user, price).Ok?
    ensures var ready := BothSettled(env, s, liquidator, user, price).value;
            && Pulled(env, ready, user, size, price).Ok?
            && CloseStep(s, LiquidateTransfer(env, s, liquidator, user, size, price, collateral).value.0, 0, 0,
                         PulledLoss(env, ready, user, size, price))
  {
    hide SumOf, LiquidateTransfer, BothSettled, LpBalance, PullLiquidity, PullLoss, LiquidatePosition, StampRate, Sides,
         LiquidationFraction,
         AssetTotal, ExposureGap, StableTotal;
    var discount := LiquidationPhases(env, s, liquidator, user, size, price, collateral);
    BothSettledBooks(env, s, liquidator, user, price);
    var ready := BothSettled(env, s, liquidator, user, price).value;
    var long := Sides(ready, user).0 > Sides(ready, user).1;
    PullBooks(env, ready, user, size, LiquidationFraction(ready, user, size).value, long, LpBalance(ready, user).value,
              price);
    var pulled := Pulled(env, ready, user, size, price).value;
    LiquidatePositionBooks(env, pulled, size, user, discount, long, liquidator, price, collateral);
    var moved := LiquidatePosition(env, pulled, size, user, discount, long, liquidator, price, collateral).value;
    StampBooks(moved, user);
    StampBooks(StampRate(moved, user), liquidator);
  }

  /** A deposit through the entry point keeps all three books exactly. */
  lemma DepositBooks(env: Env, s: State, stable: nat, asset: nat, maxFee: nat, user: Address, price: nat,
                     collateral: nat)
    requires AddLiquidity(env, s, stable, asset, maxFee, user, price, collateral).Ok?
    ensures Books(s, AddLiquidity(env, s, stable, asset, maxFee, user, price, collateral).value, 0, 0, 0)
  {
    hide SumOf, DepositFee, AddLiquidityCore, RequireSolvent, Md, AssetTotal, ExposureGap, StableTotal, MinimumMove,
         TwoSided;
    DepositFeeNeedsTwoSides(env.cfg, stable, asset, s.pool, price);
    var rate := DepositFee(env.cfg, stable, asset, s.pool, price).value;
    var value := stable + Md(asset, price, ORACLE_DECIMALS);
    var fee := Md(value, rate, LIQUIDITY_FEE_DECIMALS);
    NoRateNoFee(value);
    AddBooks(env, s, stable, asset, fee, price, user);
    var added := AddLiquidityCore(env, s, stable, asset, fee, price, user).value;
    WindowBooks(added, ResetWindow(env, added, price).window);
  }

  lemma NoRateNoFee(value: nat)
    ensures Md(value, 0, LIQUIDITY_FEE_DECIMALS) == 0
  {}

  // ----- Runs -----

  /** What one call does to the books: collateral paid out, funding and residual worth settled by a close, asset
      residual dropped, and the most its truncations and withdrawal fees may lose. */
  datatype Effect = Effect(payout: int, drift: int, residual: int, loss: nat)

  const NO_EFFECT := Effect(0, 0, 0, 0)

  function CloseEffect(env: Env, s: State, a: CloseArgs): Effect
  {
    if Closed(env, s, a).Err? then NO_EFFECT
    else
      ClosedIsFlat(env, s, a);
      Effect(ClosePayout(Closed(env, s, a).value.1, a.collateral), CloseDrift(env, s, a), CloseResidual(env, s, a),
             ExitLoss(env, s, a.user, a.price, a.maxLiqFee) + 2)
  }

  function FullLiquidationClose(liquidator: Address, user: Address, price: nat, collateral: nat): CloseArgs
  {
    CloseArgs(user, BPS, LIQUIDITY_FEE_DECIMALS, liquidator, price, collateral, false)
  }

  /** What a liquidation loses on the liquidity it pulls. */
  function LiquidationLoss(env: Env, s: State, liquidator: Address, user: Address, size: nat, price: nat): nat
  {
    var ready := BothSettled(env, s, liquidator, user, price);
    if ready.Err? || Pulled(env, ready.value, user, size, price).Err? then 0
        else PulledLoss(env, ready.value, user, size, price)
  }

  function LiquidateEffect(env: Env, s: State, liquidator: Address, user: Address, size: nat, price: nat,
                           collateral: nat): Effect
  {
    var loss := LiquidationLoss(env, s, liquidator, user, size, price);
    var r := LiquidateTransfer(env, s, liquidator, user, size, price, collateral);
    if r.Ok? && r.value.1 == LIQUIDATION_DECIMALS then
      var e := CloseEffect(env, r.value.0, FullLiquidationClose(liquidator, user, price, collateral));
      e.(loss := e.loss + loss)
    else NO_EFFECT.(loss := loss)
  }

  function Moved<T>(r: Result<(T, Signed)>): int { if r.Ok? then r.value.1.Val() else 0 }

  function EffectOf(env: Env, s: State, op: Op): Effect
  {
    if Apply(env, s, op).Err? then NO_EFFECT
    else
      match op
      case TradeOp(t, _) => NO_EFFECT.(loss := if t.direction then 1 else 2)
      case AddLiquidityOp(_, _, _, _, _, _) => NO_EFFECT
      case RemoveLiquidityOp(u, x, y, m, p, _) => NO_EFFECT.(loss := RemovalLoss(env, s, x, y, u, p, m))
      case CloseOp(u, sl, lf, f, p, c) => CloseEffect(env, s, CloseArgs(u, sl, lf, f, p, c, true))
      case AutoCloseOp(a, u, sl, lf, f, p, c) => CloseEffect(env, MoveAutoCloseFee(env, s, a, u),
                                                             CloseArgs(u, sl, lf, f, p, c, true))
      case RealizePnlOp(u, p, c) => NO_EFFECT.(payout := Moved(RealizePnl(env, s, u, p, c)))
      case LiquidateOp(l, u, n, p, cu, _) => LiquidateEffect(env, s, l, u, n, p, cu)
      case UpdateLpSnapshotOp(_, _) => NO_EFFECT
      case UpdateFGOp(_) => NO_EFFECT
  }

  /** The books moved by an effect: the asset side exactly, the stable side never above it and at most the loss
      below. */
  ghost predicate Accounts(s: State, t: State, e: Effect)
  {
    && AssetTotal(t) == AssetTotal(s) - e.residual && ExposureGap(t) == ExposureGap(s) + e.residual
    && StableTotal(s) - e.loss <= StableTotal(t) + e.payout - e.drift <= StableTotal(s)
  }

  lemma CloseAccounts(env: Env, s: State, a: CloseArgs)
    requires Closed(env, s, a).Ok?
    ensures Accounts(s, Closed(env, s, a).value.0, CloseEffect(env, s, a))
    ensures Residual(Closed(env, s, a).value.0.pool, CloseEffect(env, s, a).residual, a.price)
  {
    hide SumOf, Closed, CloseDrift, CloseResidual, ExitLoss, ClosePayout, Residual, Flattened, AssetTotal, ExposureGap,
         StableTotal;
    CloseBooks(env, s, a);
  }

  lemma LiquidateAccounts(env: Env, s: State, liquidator: Address, user: Address, size: nat, price: nat, cu: nat,
                          cl: nat)
    requires Liquidate(env, s, liquidator, user, size, price, cu, cl).Ok?
    ensures Accounts(s, Liquidate(env, s, liquidator, user, size, price, cu, cl).value,
                     LiquidateEffect(env, s, liquidator, user, size, price, cu))
  {
    hide SumOf, LiquidateTransfer, CalcMr, CalcPnlUserInternal, Close, CloseEffect, PulledLoss, AssetTotal, ExposureGap,
         StableTotal, BothSettled,
         Pulled;
    LiquidateTransferBooks(env, s, liquidator, user, size, price, cu);
    var r := LiquidateTransfer(env, s, liquidator, user, size, price, cu).value;
    if r.1 == LIQUIDATION_DECIMALS {
      CloseAccounts(env, r.0, FullLiquidationClose(liquidator, user, price, cu));
    }
  }

  lemma AutoCloseAccounts(env: Env, s: State, caller: Address, a: CloseArgs)
    requires Closed(env, MoveAutoCloseFee(env, s, caller, a.user), a).Ok?
    ensures var charged := MoveAutoCloseFee(env, s, caller, a.user); Accounts(s, Closed(env, charged, a).value.0,
          CloseEffect(env, charged, a))
  {
    hide SumOf, Closed, CloseEffect, MoveAutoCloseFee, AssetTotal, ExposureGap, StableTotal;
    AutoCloseFeeBooks(env, s, caller, a.user);
    CloseAccounts(env, MoveAutoCloseFee(env, s, caller, a.user), a);
  }

  lemma TradeAccounts(env: Env, s: State, t: TradeArgs, collateral: nat)
    requires Trade(env, s, t, collateral).Ok?
    ensures Accounts(s, Trade(env, s, t, collateral).value, NO_EFFECT.(loss := if t.direction then 1 else 2))
  {
    hide SumOf, ExecuteTrade, CalcMr, Md, AssetTotal, ExposureGap, StableTotal;
    TradeBooks(env, s, t);
  }

  lemma RemoveAccounts(env: Env, s: State, stable: nat, asset: nat, user: Address, price: nat, maxFee: nat,
                       collateral: nat)
    requires RemoveLiquidity(env, s, stable, asset, user, price, maxFee, collateral).Ok?
    ensures Accounts(s, RemoveLiquidity(env, s, stable, asset, user, price, maxFee, collateral).value,
                     NO_EFFECT.(loss := RemovalLoss(env, s, stable, asset, user, price, maxFee)))
  {
    hide SumOf, RemoveLiquidityCore, RemovalLoss, RequireSolvent, MinimumMove, AssetTotal, ExposureGap, StableTotal;
    RemoveBooks(env, s, stable, asset, user, price, maxFee);
  }

  lemma SnapshotAccounts(env: Env, s: State, user: Address, price: nat)
    requires UpdateLpSnapshot(env, s, user, price).Ok?
    ensures Accounts(s, UpdateLpSnapshot(env, s, user, price).value, NO_EFFECT)
  {
    hide SumOf, UpdateFG, SettleAndSnapshot, AssetTotal, ExposureGap, StableTotal;
    TickBooks(env, s, price);
    SettleBooks(UpdateFG(env, s, price).value, user);
  }

  /** One transaction, whatever it is and whether or not it reverts. */
  lemma StepAccounts(env: Env, s: State, op: Op)
    ensures Accounts(s, Step(env, s, op), EffectOf(env, s, op))
  {
    hide SumOf, Trade, AddLiquidity, RemoveLiquidity, RemoveLiquidityCore, RemovalLoss, Close, CloseEffect,
         MoveAutoCloseFee, RealizePnl, Liquidate,
         LiquidateEffect, UpdateLpSnapshot, UpdateFG, AssetTotal, ExposureGap, StableTotal;
    if Apply(env, s, op).Ok? {
      match op
      case TradeOp(t, c) => TradeAccounts(env, s, t, c);
      case AddLiquidityOp(u, x, y, m, p, c) => DepositBooks(env, s, x, y, m, u, p, c);
      case RemoveLiquidityOp(u, x, y, m, p, c) => RemoveAccounts(env, s, x, y, u, p, m, c);
      case CloseOp(u, sl, lf, f, p, c) => CloseAccounts(env, s, CloseArgs(u, sl, lf, f, p, c, true));
      case AutoCloseOp(a, u, sl, lf, f, p, c) => AutoCloseAccounts(env, s, a, CloseArgs(u, sl, lf, f, p, c, true));
      case RealizePnlOp(u, p, c) => RealizeBooks(env, s, u, p, c);
      case LiquidateOp(l, u, n, p, cu, cl) => LiquidateAccounts(env, s, l, u, n, p, cu, cl);
      case UpdateLpSnapshotOp(u, p) => SnapshotAccounts(env, s, u, p);
      case UpdateFGOp(p) => TickBooks(env, s, p);
    }
  }

  function Combine(a: Effect, b: Effect): Effect
  {
    Effect(a.payout + b.payout, a.drift + b.drift, a.residual + b.residual, a.loss + b.loss)
  }

  /** The effects of a run added up. */
  function RunEffect(s: State, calls: seq<Call>): Effect
  {
    if calls == [] then NO_EFFECT
    else
      var last := |calls| - 1;
      Combine(RunEffect(s, calls[..last]), EffectOf(calls[last].env, Run(s, calls[..last]), calls[last].op))
  }

  lemma {:induction false} RunAccounts(s: State, calls: seq<Call>)
    ensures Accounts(s, Run(s, calls), RunEffect(s, calls))
  {
    hide SumOf, EffectOf, Step, AssetTotal, ExposureGap, StableTotal;
    if calls != [] {
      var last := |calls| - 1;
      RunAccounts(s, calls[..last]);
      StepAccounts(calls[last].env, Run(s, calls[..last]), calls[last].op);
    }
  }

  lemma EmptyStart()
    ensures AssetTotal(INITIAL_STATE) == 0 && ExposureGap(INITIAL_STATE) == 0 && StableTotal(INITIAL_STATE) == 0
  {
    hide SumOf, AssetTotal, ExposureGap, StableTotal;
    EmptyBooks(INITIAL_STATE);
  }

  lemma AssetLedgerFrom(s: State, calls: seq<Call>)
    requires AssetTotal(s) == 0 && ExposureGap(s) == 0
    ensures var t := Run(s, calls); var dropped := RunEffect(s, calls).residual;
            && t.pool.asset + t.exposure.Val() == AssetOwed(t)
            && t.pool.asset + NetAsset(t) - AssetOwed(t) == -dropped
            && t.exposure.Val() - NetAsset(t) == dropped
  {
    hide SumOf, Run, RunEffect;
    RunAccounts(s, calls);
  }

  /** On every run from initialisation the pool's asset plus the recorded exposure is exactly what the LPs owe. Pool
      asset plus the traders' net asset, less what LPs owe, is exactly minus the residuals dropped by closes, and the
      recorded exposure is ahead of the traders' net asset by the same amount. */
  lemma AssetLedger(calls: seq<Call>)
    ensures var t := Run(INITIAL_STATE, calls); var dropped := RunEffect(INITIAL_STATE, calls).residual;
            && t.pool.asset + t.exposure.Val() == AssetOwed(t)
            && t.pool.asset + NetAsset(t) - AssetOwed(t) == -dropped
            && t.exposure.Val() - NetAsset(t) == dropped
  {
    hide SumOf, Run, RunEffect, AssetTotal, ExposureGap, StableTotal, NetAsset, AssetOwed;
    EmptyStart();
    AssetLedgerFrom(INITIAL_STATE, calls);
  }

  /** On every run from initialisation, the stable value in the engine plus everything paid out to collateral never
      exceeds what closes settled, and falls short of it by at most the declared losses: one unit a long, two a short,
      and the withdrawal fees nobody was left to receive. */
  lemma StableLedger(calls: seq<Call>)
    ensures var e := RunEffect(INITIAL_STATE, calls);
            -(e.loss as int) <= StableTotal(Run(INITIAL_STATE, calls)) + e.payout - e.drift <= 0
  {
    hide SumOf, Run, RunEffect, AssetTotal, ExposureGap, StableTotal;
    EmptyStart();
    RunAccounts(INITIAL_STATE, calls);
  }

  /** Operations that can end in a close. */
  predicate Closing(op: Op) { op.CloseOp? || op.AutoCloseOp? || op.LiquidateOp? }

  /** Without closes nothing is dropped and nothing drifts: the asset books are exact, and stable plus payouts only
      falls. */
  lemma WithoutClosesExact(calls: seq<Call>)
    requires forall i :: 0 <= i < |calls| ==> !Closing(calls[i].op)
    ensures var t := Run(INITIAL_STATE, calls); var e := RunEffect(INITIAL_STATE, calls);
            && t.pool.asset + NetAsset(t) == AssetOwed(t) && t.exposure.Val() == NetAsset(t)
            && -(e.loss as int) <= StableTotal(t) + e.payout <= 0
  {
    hide SumOf, Run, RunEffect, StableTotal;
    AssetLedger(calls);
    StableLedger(calls);
    NoCloseNoDrift(INITIAL_STATE, calls);
  }

  lemma NonClosingEffect(env: Env, s: State, op: Op)
    requires !Closing(op)
    ensures EffectOf(env, s, op).residual == 0 && EffectOf(env, s, op).drift == 0
  {
    hide Apply, RealizePnl, RemovalLoss, CloseEffect, LiquidateEffect, MoveAutoCloseFee;
  }

  lemma {:induction false} NoCloseNoDrift(s: State, calls: seq<Call>)
    requires forall i :: 0 <= i < |calls| ==> !Closing(calls[i].op)
    ensures RunEffect(s, calls).residual == 0 && RunEffect(s, calls).drift == 0
  {
    hide Run, EffectOf, Closing;
    if calls != [] {
      var last := |calls| - 1;
      NoCloseNoDrift(s, calls[..last]);
      NonClosingEffect(calls[last].env, Run(s, calls[..last]), calls[last].op);
    }
  }

  function PriceOf(op: Op): nat
  {
    match op
    case TradeOp(t, _) => t.price
    case AddLiquidityOp(_, _, _, _, p, _) => p
    case RemoveLiquidityOp(_, _, _, _, p, _) => p
    case CloseOp(_, _, _, _, p, _) => p
    case AutoCloseOp(_, _, _, _, _, p, _) => p
    case RealizePnlOp(_, p, _) => p
    case LiquidateOp(_, _, _, p, _, _) => p
    case UpdateLpSnapshotOp(_, p) => p
    case UpdateFGOp(p) => p
  }

  /** No transaction drops more than its close bound: 1e10 units of stable, or a 1e-10 part of the pool it leaves; and
      only a transaction that can close drops anything. */
  lemma ResidualIsBounded(env: Env, s: State, op: Op)
    ensures Residual(Step(env, s, op).pool, EffectOf(env, s, op).residual, PriceOf(op))
    ensures !Closing(op) ==> EffectOf(env, s, op).residual == 0
  {
    hide SumOf, Trade, AddLiquidity, RemoveLiquidity, RemoveLiquidityCore, RemovalLoss, Close, CloseEffect,
         MoveAutoCloseFee, RealizePnl,
         UpdateLpSnapshot, UpdateFG, Residual, LiquidateTransfer, CalcMr, CalcPnlUserInternal, LiquidationLoss;
    NothingIsResidual(Step(env, s, op).pool, PriceOf(op));
    if !Closing(op) { NonClosingEffect(env, s, op); }
    if Apply(env, s, op).Ok? {
      match op
      case CloseOp(u, sl, lf, f, p, c) => CloseAccounts(env, s, CloseArgs(u, sl, lf, f, p, c, true));
      case AutoCloseOp(a, u, sl, lf, f, p, c) => CloseAccounts(env, MoveAutoCloseFee(env, s, a, u),
                                                               CloseArgs(u, sl, lf, f, p, c, true));
      case LiquidateOp(l, u, n, p, cu, cl) =>
        var r := LiquidateTransfer(env, s, l, u, n, p, cu).value;
        if r.1 == LIQUIDATION_DECIMALS { CloseAccounts(env, r.0, FullLiquidationClose(l, u, p, cu)); }
      case _ =>
    }
  }
}
