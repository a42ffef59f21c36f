/** What a close does to the books, and the exact residual it drops. */
module LedgerClose {
  import opened Arith
  import opened FusedMulDiv
  import opened EngineState
  import opened EngineSpec
  import opened EngineOps
  import opened MapSum
  import opened Ledger

  // ----- A trade on the trader's asset side -----

  /** One user's asset side is the same in two states. */
  predicate SameAsset(s: State, t: State, u: Address)
  {
    t.Pos(u).balanceAsset == s.Pos(u).balanceAsset && t.Pos(u).debtAsset == s.Pos(u).debtAsset
  }

  lemma CreditKeepsAsset(s: State, user: Address, amount: nat, u: Address)
    ensures SameAsset(s, CreditStable(s, user, amount), u)
  {}

  lemma ProtocolKeepsAsset(s: State, cap: nat, fee: nat, protocol: Address, u: Address)
    ensures SameAsset(s, AssignProtocolFee(s, cap, fee, protocol), u)
  {
    hide CreditStable, SignedSum;
    var full := s.(insurance := Signed(cap, true));
    if s.insurance.pos {
      if s.insurance.mag < cap {
        if fee > cap - s.insurance.mag { CreditKeepsAsset(full, protocol, fee - (cap - s.insurance.mag), u); }
      } else {
        CreditKeepsAsset(s, protocol, fee, u);
      }
    } else if fee > cap + s.insurance.mag {
      CreditKeepsAsset(full, protocol, fee - (cap + s.insurance.mag), u);
    }
  }

  lemma FeesKeepAsset(env: Env, s: State, t: TradeArgs, fee: nat, u: Address)
    ensures SameAsset(s, PayFees(env, s, t, fee), u)
  {
    hide Md, FrontendPart, AssignProtocolFee, CreditStable;
    var protocolFee := ProtocolPart(env, fee);
    var r := AssignProtocolFee(s, env.cfg.insuranceFundCap, protocolFee, env.cfg.feeProtocolAddr);
    ProtocolKeepsAsset(s, env.cfg.insuranceFundCap, protocolFee, env.cfg.feeProtocolAddr, u);
    CreditKeepsAsset(r, t.frontend, FrontendPart(env, fee), u);
  }

  /** A position after a trade of this size and return, on the asset side. */
  predicate TradedAsset(p: Position, q: Position, direction: bool, size: nat, tradeReturn: nat)
  {
    && AssetNet(q) == AssetNet(p) + (if direction then tradeReturn else -(size as int))
    && (!direction && size <= p.balanceAsset ==> q.balanceAsset == p.balanceAsset - size && q.debtAsset == p.debtAsset)
  }

  lemma TradedPositionAsset(p: Position, direction: bool, size: nat, tradeReturn: nat)
    ensures TradedAsset(p, TradedPosition(p, direction, size, tradeReturn), direction, size, tradeReturn)
  {}

  lemma StampKeepsAsset(s: State, user: Address, fee: Signed)
    ensures SameAsset(s, CreditFunding(s, user, fee), user) && SameAsset(s, StampRate(s, user), user)
            && SameAsset(s, RefreshFundingSnapshot(s, user), user)
  {
    hide SignedSum;
  }

  lemma TradedFromSame(s: State, t: State, u: Address, q: Position, direction: bool, size: nat, tradeReturn: nat)
    requires SameAsset(s, t, u) && TradedAsset(t.Pos(u), q, direction, size, tradeReturn)
    ensures TradedAsset(s.Pos(u), q, direction, size, tradeReturn)
  {}

  lemma SameAssetChains(s: State, t: State, r: State, u: Address)
    requires SameAsset(s, t, u) && SameAsset(t, r, u)
    ensures SameAsset(s, r, u)
  {}

  lemma SettledAsset(s: State, t: TradeArgs, tradeReturn: nat)
    requires SettleTrader(s, t, tradeReturn).Ok?
    ensures TradedAsset(s.Pos(t.user), SettleTrader(s, t, tradeReturn).value.Pos(t.user), t.direction, t.size,
                        tradeReturn)
  {
    hide FundingFee, SignedSum, RefreshFundingSnapshot, CreditFunding, StampRate, TradedPosition, TradedAsset,
         SameAsset;
    var fee := FundingFee(s, t.user).value;
    StampKeepsAsset(s, t.user, fee);
    var s1 := RefreshFundingSnapshot(s, t.user);
    StampKeepsAsset(s1, t.user, fee);
    var s2 := CreditFunding(s1, t.user, fee);
    StampKeepsAsset(s2, t.user, fee);
    var s3 := StampRate(s2, t.user);
    SameAssetChains(s, s1, s2, t.user);
    SameAssetChains(s, s2, s3, t.user);
    TradedPositionAsset(s3.Pos(t.user), t.direction, t.size, tradeReturn);
    TradedFromSame(s, s3, t.user, TradedPosition(s3.Pos(t.user), t.direction, t.size, tradeReturn), t.direction, t.size,
                   tradeReturn);
  }

  /** After a trade the trader's asset side is what the trade made it, whoever collects the fees. */
  lemma TraderAssetAfter(env: Env, s: State, t: TradeArgs)
    requires ExecuteTrade(env, s, t).Ok?
    ensures var r := ExecuteTrade(env, s, t).value; TradedAsset(s.Pos(t.user), r.0.Pos(t.user), t.direction, t.size,
                                                                r.1)
  {
    hide OpenWindow, LongQuote, ShortQuote, UpdateFG, SettleTrader, MovePool, PayFees, PoolDeepEnough, SumOf, Books,
         TradedAsset, SameAsset;
    var w := OpenWindow(env, s, t.direction, t.price);
    var q := (if t.direction then LongQuote(env, s, t, w) else ShortQuote(env, s, t, w)).value;
    var s1 := s.(window := q.window);
    TickBooks(env, s1, t.price);
    var s2 := UpdateFG(env, s1, t.price).value;
    SettledAsset(s2, t, q.tradeReturn);
    var s3 := SettleTrader(s2, t, q.tradeReturn).value;
    PoolBooks(env, s3, t, q);
    var s4 := MovePool(env, s3, t, q).value;
    FeesKeepAsset(env, s4, t, q.fee, t.user);
    TradedThrough(s2, s3, s4, PayFees(env, s4, t, q.fee), t.user, t.direction, t.size, q.tradeReturn);
    assert s2.Pos(t.user) == s.Pos(t.user);
  }

  lemma TradedThrough(s: State, traded: State, moved: State, paid: State, u: Address, direction: bool, size: nat,
                      tradeReturn: nat)
    requires TradedAsset(s.Pos(u), traded.Pos(u), direction, size, tradeReturn)
    requires moved.positions == traded.positions && SameAsset(moved, paid, u)
    ensures TradedAsset(s.Pos(u), paid.Pos(u), direction, size, tradeReturn)
  {
    assert moved.Pos(u) == traded.Pos(u);
    hide State.Pos;
  }

  // ----- The steps of a close -----

  /** `da` up on the asset total, `dg` up on the exposure gap, and a stable total that does not rise and falls by at
      most `loss`. */
  ghost predicate CloseStep(s: State, t: State, da: int, dg: int, loss: nat)
  {
    && AssetTotal(t) == AssetTotal(s) + da && ExposureGap(t) == ExposureGap(s) + dg
    && StableTotal(s) - loss <= StableTotal(t) <= StableTotal(s)
  }

  lemma EmptyLpOwesNothing()
    ensures EMPTY_LP.debtAsset == 0 && EMPTY_LP.debtStable == 0
  {}

  /** Turning LP debt into trader debt, lowering the exposure by it, and clearing the LP record. */
  lemma DebtMoveBooks(s: State, user: Address, q: Position, l: LpPosition)
    requires AssetNet(q) == AssetNet(s.Pos(user)) - s.Lp(user).debtAsset
    requires StableNet(q) == StableNet(s.Pos(user)) - s.Lp(user).debtStable
    requires l.debtAsset == 0 && l.debtStable == 0
    ensures Books(s, s.SetPos(user, q).(exposure := LowerExposure(s.exposure, s.Lp(user).debtAsset)).SetLp(user, l), 0,
                  0, 0)
  {
    hide SumOf, LowerExposure, AssetNet, StableNet, AssetTotal, ExposureGap, StableTotal;
    var lp := s.Lp(user);
    var s1 := s.SetPos(user, q);
    NetBooks(s, user, q, -(lp.debtAsset as int), -(lp.debtStable as int));
    ExposureValues(s.exposure, lp.debtAsset);
    var s2 := s1.(exposure := LowerExposure(s.exposure, lp.debtAsset));
    ExposureBooks(s1, s2.exposure);
    LpBooks(s2, user, l);
  }

  lemma DebtNets(p: Position, stable: nat, asset: nat)
    ensures var q := p.(debtAsset := p.debtAsset + asset, debtStable := p.debtStable + stable);
            AssetNet(q) == AssetNet(p) - asset && StableNet(q) == StableNet(p) - stable
  {}

  lemma ClosedLpBooks(env: Env, s: State, user: Address, price: nat, maxLiqFee: nat, balance: (nat, nat))
    requires RemoveLiquidityCore(env, s, balance.0, balance.1, user, price, maxLiqFee).Ok?
    ensures var r := RemoveLiquidityCore(env, s, balance.0, balance.1, user, price, maxLiqFee).value.0;
            var rest, p := r.Lp(user), r.Pos(user);
            var q := p.(debtAsset := p.debtAsset + rest.debtAsset, debtStable := p.debtStable + rest.debtStable);
            CloseStep(s, r.SetPos(user, q).(exposure := LowerExposure(r.exposure, rest.debtAsset)).SetLp(user,
                  EMPTY_LP), 0, 0,
                      RemovalLoss(env, s, balance.0, balance.1, user, price, maxLiqFee))
  {
    hide SumOf, RemoveLiquidityCore, RemovalLoss, LowerExposure, AssetTotal, ExposureGap, StableTotal, AssetNet,
         StableNet;
    RemoveBooks(env, s, balance.0, balance.1, user, price, maxLiqFee);
    var r := RemoveLiquidityCore(env, s, balance.0, balance.1, user, price, maxLiqFee).value.0;
    var rest, p := r.Lp(user), r.Pos(user);
    DebtNets(p, rest.debtStable, rest.debtAsset);
    EmptyLpOwesNothing();
    DebtMoveBooks(r, user, p.(debtAsset := p.debtAsset + rest.debtAsset, debtStable := p.debtStable + rest.debtStable),
                  EMPTY_LP);
  }

  /** Whether a close has liquidity to withdraw or LP debt to take over. */
  predicate HasLiquidity(s: State, user: Address)
    requires LpBalance(s, user).Ok?
  {
    var balance, lp := LpBalance(s, user).value, s.Lp(user);
    !(balance.0 == 0 && balance.1 == 0 && lp.debtAsset == 0 && lp.debtStable == 0)
  }

  /** What a close loses when it exits the pool. */
  function ExitLoss(env: Env, s: State, user: Address, price: nat, maxLiqFee: nat): nat
    requires CloseLp(env, s, user, price, maxLiqFee).Ok?
  {
    if HasLiquidity(s, user) then RemovalLoss(env, s, LpBalance(s, user).value.0, LpBalance(s, user).value.1, user,
                                              price, maxLiqFee) else 0
  }

  lemma CloseLpBooks(env: Env, s: State, user: Address, price: nat, maxLiqFee: nat)
    requires CloseLp(env, s, user, price, maxLiqFee).Ok?
    ensures CloseStep(s, CloseLp(env, s, user, price, maxLiqFee).value, 0, 0, ExitLoss(env, s, user, price, maxLiqFee))
  {
    hide SumOf, LpBalance, RemoveLiquidityCore, RemovalLoss, LowerExposure, AssetTotal, ExposureGap, StableTotal;
    if HasLiquidity(s, user) {
      ClosedLpBooks(env, s, user, price, maxLiqFee, LpBalance(s, user).value);
    } else {
      LpBooks(s, user, EMPTY_LP);
    }
  }

  lemma SellNettedBooks(env: Env, s: State, user: Address, q: Position, t: TradeArgs)
    requires q.debtAsset == 0 && AssetNet(q) == AssetNet(s.Pos(user)) && StableNet(q) == StableNet(s.Pos(user))
    requires t.user == user && !t.direction && t.size == q.balanceAsset && ExecuteTrade(env, s.SetPos(user, q), t).Ok?
    ensures var r := ExecuteTrade(env, s.SetPos(user, q), t).value.0;
            CloseStep(s, r, 0, 0, 2) && AssetNet(r.Pos(user)) == 0 && r.Pos(user).debtAsset == 0
  {
    hide SumOf, ExecuteTrade, AssetTotal, ExposureGap, StableTotal;
    var netted := s.SetPos(user, q);
    SameNets(s, user, q);
    TradeBooks(env, netted, t);
    TraderAssetAfter(env, netted, t);
    assert netted.Pos(user) == q;
  }

  lemma SellAllBooks(env: Env, s: State, user: Address, frontend: Address, price: nat, maxSlippage: nat)
    requires s.Pos(user).balanceAsset >= s.Pos(user).debtAsset
             && SellAll(env, s, user, frontend, price, maxSlippage).Ok?
    ensures var t := SellAll(env, s, user, frontend, price, maxSlippage).value;
            CloseStep(s, t, 0, 0, 2) && AssetNet(t.Pos(user)) == 0 && t.Pos(user).debtAsset == 0
  {
    hide SumOf, ExecuteTrade, Md, AssetTotal, ExposureGap, StableTotal, AssetNet, StableNet, CloseStep;
    var p := s.Pos(user);
    var size := p.balanceAsset - p.debtAsset;
    NettedLong(p);
    var minReturn := Md(Md(size, price, ORACLE_DECIMALS), BPS - maxSlippage, BPS);
    SellNettedBooks(env, s, user, p.(balanceAsset := size, debtAsset := 0),
                    TradeArgs(user, false, size, minReturn, s.pool.stable, frontend, price));
  }

  lemma NettedLong(p: Position)
    requires p.balanceAsset >= p.debtAsset
    ensures var q := p.(balanceAsset := p.balanceAsset - p.debtAsset, debtAsset := 0);
            AssetNet(q) == AssetNet(p) && StableNet(q) == StableNet(p)
  {}

  lemma NettedShort(p: Position)
    requires p.balanceAsset <= p.debtAsset
    ensures var q := p.(debtAsset := p.debtAsset - p.balanceAsset, balanceAsset := 0);
            AssetNet(q) == AssetNet(p) && StableNet(q) == StableNet(p)
  {}

  /** A net asset worth less than the close bound of a pool: dust, or a 1e-10 part of its stable side. */
  predicate Residual(pool: Pool, net: int, price: nat)
  {
    Md(Abs(net), price, ORACLE_DECIMALS) < CloseBound(pool)
  }

  lemma BuyBackBooks(env: Env, s: State, user: Address, frontend: Address, price: nat, maxSlippage: nat)
    requires BuyBack(env, s, user, frontend, price, maxSlippage).Ok?
    ensures var t := BuyBack(env, s, user, frontend, price, maxSlippage).value;
            CloseStep(s, t, 0, 0, 2) && Residual(t.pool, AssetNet(t.Pos(user)), price)
  {
    hide SumOf, ExecuteTrade, Md, BuyBackInput, OpenWindow, CloseBound, AssetTotal, ExposureGap, StableTotal;
    var turned := s.(window := OpenWindow(env, s, true, price));
    WindowBooks(s, turned.window);
    var needed := BuyBackInput(env, turned, s.Pos(user).debtAsset, frontend, price).value;
    var minReturn := Md(Md(needed, ORACLE_DECIMALS, price), BPS - maxSlippage, BPS);
    TradeBooks(env, turned, TradeArgs(user, true, needed, minReturn, s.pool.asset, frontend, price));
  }

  lemma NothingIsResidual(pool: Pool, price: nat)
    ensures Residual(pool, 0, price)
  {}

  /** Whether a net asset is below dust, and so is forgotten instead of traded. */
  predicate IsDust(p: Position, price: nat) { Md(DiffAbs(p.balanceAsset, p.debtAsset), price, ORACLE_DECIMALS) < DUST }

  lemma DustIsResidual(p: Position, pool: Pool, price: nat)
    requires IsDust(p, price)
    ensures Residual(pool, AssetNet(p), price)
  {
    hide Md;
    assert DiffAbs(p.balanceAsset, p.debtAsset) == Abs(AssetNet(p));
  }

  lemma DustNets(p: Position)
    ensures var q := p.(balanceAsset := p.debtAsset); AssetNet(q) == 0 && StableNet(q) == StableNet(p)
  {}

  /** The residual a close leaves: the dust it forgets, or the net asset the buy-back misses by. */
  function FlattenResidual(env: Env, s: State, user: Address, frontend: Address, price: nat, maxSlippage: nat): int
    requires Flatten(env, s, user, frontend, price, maxSlippage).Ok?
  {
    if IsDust(s.Pos(user), price) then AssetNet(s.Pos(user))
    else AssetNet(Flatten(env, s, user, frontend, price, maxSlippage).value.Pos(user))
  }

  /** The part of the residual that leaves the books while flattening; the rest is still on the position. */
  function FlattenDrop(s: State, user: Address, price: nat): int
  {
    if IsDust(s.Pos(user), price) then AssetNet(s.Pos(user)) else 0
  }

  /** Forgetting a net asset below dust. */
  lemma DropDustBooks(s: State, user: Address, q: Position, price: nat)
    requires AssetNet(q) == 0 && StableNet(q) == StableNet(s.Pos(user)) && IsDust(s.Pos(user), price)
    ensures var t := s.SetPos(user, q); var d := AssetNet(s.Pos(user));
            CloseStep(s, t, -d, d, 0) && AssetNet(t.Pos(user)) == 0 && Residual(t.pool, d, price)
  {
    hide SumOf, IsDust, AssetTotal, ExposureGap, StableTotal, Residual, AssetNet, StableNet;
    NetBooks(s, user, q, -AssetNet(s.Pos(user)), 0);
    DustIsResidual(s.Pos(user), s.pool, price);
    assert s.SetPos(user, q).Pos(user) == q;
  }

  /** Buying back a position whose balance has been netted against its debt, if any debt is left. */
  lemma FlattenShortBooks(env: Env, s: State, user: Address, frontend: Address, price: nat, maxSlippage: nat,
                          q: Position, t: State)
    requires AssetNet(q) == AssetNet(s.Pos(user)) && StableNet(q) == StableNet(s.Pos(user)) && q.balanceAsset == 0
    requires if q.debtAsset > 0 then BuyBack(env, s.SetPos(user, q), user, frontend, price, maxSlippage) == Ok(t)
             else t == s.SetPos(user, q)
    ensures CloseStep(s, t, 0, 0, 2) && Residual(t.pool, AssetNet(t.Pos(user)), price)
  {
    hide SumOf, BuyBack, AssetTotal, ExposureGap, StableTotal, Residual;
    var sold := s.SetPos(user, q);
    SameNets(s, user, q);
    if q.debtAsset > 0 {
      BuyBackBooks(env, sold, user, frontend, price, maxSlippage);
    } else {
      NothingIsResidual(sold.pool, price);
      assert sold.Pos(user) == q;
    }
  }

  lemma FlattenBooks(env: Env, s: State, user: Address, frontend: Address, price: nat, maxSlippage: nat)
    requires Flatten(env, s, user, frontend, price, maxSlippage).Ok?
    ensures var t := Flatten(env, s, user, frontend, price, maxSlippage).value;
            var d, residual := FlattenDrop(s, user, price), FlattenResidual(env, s, user, frontend, price, maxSlippage);
            CloseStep(s, t, -d, d, 2) && d + AssetNet(t.Pos(user)) == residual && Residual(t.pool, residual, price)
  {
    hide SumOf, SellAll, BuyBack, Md, AssetTotal, ExposureGap, StableTotal, Residual, AssetNet, StableNet;
    var p, t := s.Pos(user), Flatten(env, s, user, frontend, price, maxSlippage).value;
    if IsDust(p, price) {
      DustNets(p);
      DropDustBooks(s, user, p.(balanceAsset := p.debtAsset), price);
    } else {
      if p.balanceAsset > p.debtAsset {
        SellAllBooks(env, s, user, frontend, price, maxSlippage);
        NothingIsResidual(t.pool, price);
      } else {
        NettedShort(p);
        FlattenShortBooks(env, s, user, frontend, price, maxSlippage,
                          p.(debtAsset := p.debtAsset - p.balanceAsset, balanceAsset := 0), t);
      }
    }
  }

  // ----- The close -----

  datatype CloseArgs = CloseArgs(user: Address, maxSlippage: nat, maxLiqFee: nat, frontend: Address, price: nat,
                                 collateral: nat, isSelfClose: bool)

  function Closed(env: Env, s: State, a: CloseArgs): Result<(State, Signed)>
  {
    Close(env, s, a.user, a.maxSlippage, a.maxLiqFee, a.frontend, a.price, a.collateral, a.isSelfClose)
  }

  /** The state a close reaches before it values and clears the position. */
  function Flattened(env: Env, s: State, a: CloseArgs): Result<State>
  {
    var exited :- CloseLp(env, s, a.user, a.price, a.maxLiqFee);
    Flatten(env, exited, a.user, a.frontend, a.price, a.maxSlippage)
  }

  /** The net asset a close drops from the books. */
  function CloseResidual(env: Env, s: State, a: CloseArgs): int
    requires Flattened(env, s, a).Ok?
  {
    FlattenResidual(env, CloseLp(env, s, a.user, a.price, a.maxLiqFee).value, a.user, a.frontend, a.price,
                    a.maxSlippage)
  }

  /** What a close moves to the user's collateral: the profit, or at most the whole collateral of a loss. */
  function ClosePayout(pnl: Signed, collateral: nat): int
  {
    Max(pnl.Val(), -(collateral as int))
  }

  /** A position with nothing on either side. */
  predicate Flat(p: Position) { p.balanceAsset == 0 && p.debtAsset == 0 && p.balanceStable == 0 && p.debtStable == 0 }

  lemma EmptyIsFlat()
    ensures Flat(EMPTY_POSITION)
  {}

  lemma FlatNets(q: Position)
    requires Flat(q)
    ensures AssetNet(q) == 0 && StableNet(q) == 0
  {}

  lemma ClearBooks(s: State, user: Address, q: Position)
    requires Flat(q)
    ensures Books(s, s.SetPos(user, q), -AssetNet(s.Pos(user)), AssetNet(s.Pos(user)), -StableNet(s.Pos(user)))
  {
    hide SumOf, AssetTotal, ExposureGap, StableTotal, AssetNet, StableNet, Flat;
    FlatNets(q);
    NetBooks(s, user, q, -AssetNet(s.Pos(user)), -StableNet(s.Pos(user)));
  }

  /** A trade of a user without a live snapshot writes no LP record. */
  lemma TradeKeepsLps(env: Env, s: State, t: TradeArgs)
    requires ExecuteTrade(env, s, t).Ok? && !s.Active(t.user)
    ensures ExecuteTrade(env, s, t).value.0.lps == s.lps
  {
    hide OpenWindow, LongQuote, ShortQuote, UpdateFG, MovePool, PayFees, PoolDeepEnough, FundingFee, SignedSum,
         TradedPosition, Books, SumOf;
    var w := OpenWindow(env, s, t.direction, t.price);
    var q := (if t.direction then LongQuote(env, s, t, w) else ShortQuote(env, s, t, w)).value;
    var s1 := s.(window := q.window);
    TickBooks(env, s1, t.price);
    var s2 := UpdateFG(env, s1, t.price).value;
    var s3 := SettleTrader(s2, t, q.tradeReturn).value;
    PoolBooks(env, s3, t, q);
  }

  lemma FlatteningKeepsLps(env: Env, s: State, user: Address, frontend: Address, price: nat, maxSlippage: nat)
    requires Flatten(env, s, user, frontend, price, maxSlippage).Ok? && !s.Active(user)
    ensures Flatten(env, s, user, frontend, price, maxSlippage).value.lps == s.lps
  {
    hide ExecuteTrade, Md, BuyBackInput, OpenWindow, CloseBound;
    forall r: State, t: TradeArgs | t.user == user && r.lps == s.lps && ExecuteTrade(env, r, t).Ok?
      ensures ExecuteTrade(env, r, t).value.0.lps == s.lps
    {
      TradeKeepsLps(env, r, t);
    }
  }

  /** What the curve gives for the net asset a position still holds. */
  function ResidualWorth(env: Env, s: State, user: Address, price: nat): Result<int>
  {
    var net := SignedSum(Signed(s.Pos(user).balanceAsset, true), Signed(s.Pos(user).debtAsset, false));
    var value :- AssetValue(env, s.pool, net, price, false);
    Ok(Signed(value, net.pos).Val())
  }

  lemma ProfitParts(env: Env, pool: Pool, p: Position, fee: Signed, price: nat, asset: Signed)
    requires asset == SignedSum(Signed(p.balanceAsset, true), Signed(p.debtAsset, false))
    requires CalcPnl(env, pool, p.balanceStable, p.balanceAsset, p.debtStable, p.debtAsset, fee, price, false).Ok?
    ensures AssetValue(env, pool, asset, price, false).Ok?
    ensures CalcPnl(env, pool, p.balanceStable, p.balanceAsset, p.debtStable, p.debtAsset, fee, price,
                    false).value.Val()
            == StableNet(p) - fee.Val() + Signed(AssetValue(env, pool, asset, price, false).value, asset.pos).Val()
  {
    hide AssetValue, SumOf;
  }

  lemma NoLpBalance(s: State, user: Address)
    requires s.Lp(user) == EMPTY_LP
    ensures LpBalance(s, user) == Ok((0, 0))
  {
    hide RecoverLpBalance;
  }

  /** The profit of a user with no LP record: net stable, less the funding owed, plus the worth of the net asset. */
  lemma TraderProfit(env: Env, s: State, user: Address, price: nat)
    requires s.Lp(user) == EMPTY_LP && CalcPnlUser(env, s, user, price).Ok?
    ensures FundingAt(env, s, user, price).Ok? && ResidualWorth(env, s, user, price).Ok?
    ensures CalcPnlUser(env, s, user, price).value.Val()
            == StableNet(s.Pos(user)) - FundingAt(env, s, user, price).value.Val()
                + ResidualWorth(env, s, user, price).value
  {
    hide FundingAt, AssetValue, LpBalance, CalcPnl, StableNet, SumOf, SignedSum;
    NoLpBalance(s, user);
    EmptyLpOwesNothing();
    var p := s.Pos(user);
    ProfitParts(env, s.pool, p, FundingAt(env, s, user, price).value, price,
                SignedSum(Signed(p.balanceAsset, true), Signed(p.debtAsset, false)));
  }

  /** What a close moves between the users and nobody: the funding it settles, and the worth it gives to the
      residual. */
  function CloseDrift(env: Env, s: State, a: CloseArgs): int
    requires Closed(env, s, a).Ok?
  {
    var flat := Flattened(env, s, a).value;
    ClosedIsFlat(env, s, a);
    ResidualWorth(env, flat, a.user, a.price).value - FundingAt(env, flat, a.user, a.price).value.Val()
  }

  lemma ClosedIsFlat(env: Env, s: State, a: CloseArgs)
    requires Closed(env, s, a).Ok?
    ensures CloseLp(env, s, a.user, a.price, a.maxLiqFee).Ok? && Flattened(env, s, a).Ok?
    ensures var flat := Flattened(env, s, a).value;
            && flat.Lp(a.user) == EMPTY_LP && FundingAt(env, flat, a.user, a.price).Ok?
               && ResidualWorth(env, flat, a.user, a.price).Ok?
            && CalcPnlUser(env, flat, a.user, a.price) == Ok(Closed(env, s, a).value.1)
            && Closed(env, s, a).value.1.Val()
               == StableNet(flat.Pos(a.user)) - FundingAt(env, flat, a.user, a.price).value.Val()
                   + ResidualWorth(env, flat, a.user, a.price).value
  {
    hide RemoveLiquidityCore, Flatten, CalcPnlUser, LpBalance, LowerExposure, FundingAt, ResidualWorth, StableNet;
    var exited := CloseLp(env, s, a.user, a.price, a.maxLiqFee).value;
    assert exited.Lp(a.user) == EMPTY_LP;
    FlatteningKeepsLps(env, exited, a.user, a.frontend, a.price, a.maxSlippage);
    TraderProfit(env, Flattened(env, s, a).value, a.user, a.price);
  }

  /** A close, whatever path it takes. The asset total falls and the exposure gap rises by exactly the residual dropped,
      which is worth less than dust or than a 1e-10 part of the pool. The stable total plus the payout moves by exactly
      the drift, but for the exit loss and the two units a trade may lose: it never rises above it. */
  lemma CloseBooks(env: Env, s: State, a: CloseArgs)
    requires Closed(env, s, a).Ok?
    ensures Flattened(env, s, a).Ok? && CloseLp(env, s, a.user, a.price, a.maxLiqFee).Ok?
    ensures var (t, pnl) := Closed(env, s, a).value; var residual := CloseResidual(env, s, a);
            && AssetTotal(t) == AssetTotal(s) - residual && ExposureGap(t) == ExposureGap(s) + residual
            && Residual(t.pool, residual, a.price)
            && var settled := StableTotal(t) + ClosePayout(pnl, a.collateral) - CloseDrift(env, s, a);
               StableTotal(s) - ExitLoss(env, s, a.user, a.price, a.maxLiqFee) - 2 <= settled <= StableTotal(s)
  {
    hide SumOf, CloseLp, Flatten, CalcPnlUser, Md, CloseBound, AssetTotal, ExposureGap, StableTotal, AssetNet,
         StableNet, ExitLoss,
         FundingAt, ResidualWorth, FlattenResidual, FlattenDrop, Residual;
    ClosedIsFlat(env, s, a);
    CloseLpBooks(env, s, a.user, a.price, a.maxLiqFee);
    var exited := CloseLp(env, s, a.user, a.price, a.maxLiqFee).value;
    FlattenBooks(env, exited, a.user, a.frontend, a.price, a.maxSlippage);
    var flat := Flattened(env, s, a).value;
    EmptyIsFlat();
    ClearBooks(flat, a.user, EMPTY_POSITION);
    var cleared := flat.SetPos(a.user, EMPTY_POSITION);
    var (t, pnl) := Closed(env, s, a).value;
    InsuranceBooks(cleared, t.insurance);
    InsurancePays(flat.insurance, pnl, a.collateral);
  }

  lemma WorthlessAmount(net: nat, price: nat)
    requires price > 0 && Md(net, price, ORACLE_DECIMALS) < PNL_DUST
    ensures net <= Md(PNL_DUST, ORACLE_DECIMALS, price)
  {
    DivMod(net * price, ORACLE_DECIMALS);
    DivMonotone(net * price, PNL_DUST * ORACLE_DECIMALS, price);
    DivCancel(net, price);
  }

  /** A residual within the dust of a valuation is worth nothing to it, and the solver is not asked. */
  lemma ResidualIsWorthless(env: Env, pool: Pool, net: Signed, price: nat)
    requires price > 0 && Residual(pool, net.Val(), price) && CloseBound(pool) <= PNL_DUST
    ensures AssetValue(env, pool, net, price, false) == Ok(0)
  {
    hide Md, CloseBound;
    assert Abs(net.Val()) == net.mag;
    WorthlessAmount(net.mag, price);
  }

  lemma FlatNetIsResidual(env: Env, s: State, user: Address, frontend: Address, price: nat, maxSlippage: nat)
    requires Flatten(env, s, user, frontend, price, maxSlippage).Ok?
    ensures var t := Flatten(env, s, user, frontend, price, maxSlippage).value; Residual(t.pool, AssetNet(t.Pos(user)),
          price)
  {
    hide SumOf, SellAll, BuyBack, Md, AssetTotal, ExposureGap, StableTotal, Residual, AssetNet, StableNet, Flatten;
    FlattenBooks(env, s, user, frontend, price, maxSlippage);
    NothingIsResidual(Flatten(env, s, user, frontend, price, maxSlippage).value.pool, price);
  }

  lemma NetValue(p: Position)
    ensures SignedSum(Signed(p.balanceAsset, true), Signed(p.debtAsset, false)).Val() == AssetNet(p)
  {}

  lemma FlatWorthIsNothing(env: Env, s: State, user: Address, price: nat)
    requires Residual(s.pool, AssetNet(s.Pos(user)), price) && CloseBound(s.pool) <= PNL_DUST
             && ResidualWorth(env, s, user, price).Ok?
    ensures ResidualWorth(env, s, user, price) == Ok(0)
  {
    hide Residual, CloseBound, AssetValue, SignedSum, AssetNet, SumOf, Md;
    var p := s.Pos(user);
    NetValue(p);
    var net := SignedSum(Signed(p.balanceAsset, true), Signed(p.debtAsset, false));
    ValuedAtPrice(env, s.pool, net, price);
    ResidualIsWorthless(env, s.pool, net, price);
  }

  lemma ClosedPool(env: Env, s: State, a: CloseArgs)
    requires Closed(env, s, a).Ok?
    ensures Flattened(env, s, a).Ok? && Flattened(env, s, a).value.pool == Closed(env, s, a).value.0.pool
  {
    hide CloseLp, Flatten, CalcPnlUser, SignedSum;
  }

  /** On a pool whose close bound is within the dust of a valuation, up to 1e23 units of stable, a close gives its
      residual no worth: its drift is exactly minus the funding it settles. */
  lemma DriftIsFunding(env: Env, s: State, a: CloseArgs)
    requires Closed(env, s, a).Ok? && CloseBound(Closed(env, s, a).value.0.pool) <= PNL_DUST
    ensures Flattened(env, s, a).Ok? && FundingAt(env, Flattened(env, s, a).value, a.user, a.price).Ok?
    ensures CloseDrift(env, s, a) == -FundingAt(env, Flattened(env, s, a).value, a.user, a.price).value.Val()
  {
    hide Closed, CloseLp, Flatten, CloseBound, FundingAt, Residual, ResidualWorth, AssetNet;
    ClosedIsFlat(env, s, a);
    ClosedPool(env, s, a);
    FlatNetIsResidual(env, CloseLp(env, s, a.user, a.price, a.maxLiqFee).value, a.user, a.frontend, a.price,
                      a.maxSlippage);
    FlatWorthIsNothing(env, Flattened(env, s, a).value, a.user, a.price);
  }

  lemma ValuedAtPrice(env: Env, pool: Pool, net: Signed, price: nat)
    ensures AssetValue(env, pool, net, price, false).Ok? ==> price > 0
  {
    hide Md;
  }

  /** What a loss takes beyond the collateral comes out of the insurance fund. */
  lemma InsurancePays(i: Signed, pnl: Signed, collateral: nat)
    ensures pnl.Val() - ClosePayout(pnl, collateral)
            == (if collateral < pnl.mag && !pnl.pos then SignedSum(i, Signed(pnl.mag - collateral, false)).Val()
                - i.Val() else 0)
  {}
}
