/** Closing, account by account: the exit from the pool, the floor the position is traded away at, and what the
    insurance fund is charged. */
module Closes {
  import opened Arith
  import opened EngineState
  import opened EngineSpec
  import opened EngineOps
  import opened Ledger
  import opened LedgerClose
  import opened Accounts
  import opened TradeAccounts
  import opened Splitting
  import opened Liquidations
  import opened Equity

  // ----- Trading the position away -----

  /** `floor` is what the caller's slippage leaves of `worth`, in parts of 1e5 and rounded down. */
  predicate IsFloor(floor: nat, worth: nat, slippage: nat) { slippage <= BPS
                                                            && IsPortion(floor, worth, BPS - slippage, BPS) }

  /** A net position traded away: dust is forgotten at no price; a long is sold whole for no less than the floor on its
      spot worth; a short is bought back for at most `paid`, which buys no less than the floor on what spot would give
      for it, and leaves a net asset within the residual bound. */
  predicate FloorKept(p: Position, q: Position, pool: Pool, price: nat, slippage: nat, paid: nat, floor: nat)
  {
    if IsDust(p, price) then AssetNet(q) == 0 && StableNet(q) == StableNet(p)
    else if AssetNet(p) > 0 then
      && AssetNet(q) == 0 && StableNet(q) >= StableNet(p) + floor
      && IsFloor(floor, Md(AssetNet(p), price, ORACLE_DECIMALS), slippage)
    else
      && price > 0 && StableNet(q) >= StableNet(p) - paid && AssetNet(q) >= AssetNet(p) + floor
      && IsFloor(floor, Md(paid, ORACLE_DECIMALS, price), slippage) && Residual(pool, AssetNet(q), price)
  }

  /** A trader gets at least what its trade returns, more when it is the frontend or the protocol itself. */
  lemma TraderGains(env: Env, s: State, t: TradeArgs) returns (share: nat)
    requires ExecuteTrade(env, s, t).Ok?
    ensures var (r, out) := ExecuteTrade(env, s, t).value;
            && t.minReturn <= out
            && AssetNet(r.Pos(t.user)) == AssetNet(s.Pos(t.user)) + (if t.direction then out else -(t.size as int))
            && StableNet(r.Pos(t.user)) >= StableNet(s.Pos(t.user)) + (if t.direction then -(t.size as int) else out)
            && r.insurance.Val() == Filled(s.insurance.Val(), share, env.cfg.insuranceFundCap)
  {
    hide ExecuteTrade, IsCharge, Md, Filled, State.Pos, AssetNet, StableNet;
    var c := TradeMovesAccounts(env, s, t, t.user);
    TradeIsGuarded(env, s, t);
    OverflowIsGain(s.insurance.Val(), c.protocol, env.cfg.insuranceFundCap);
    share := c.protocol;
  }

  lemma OverflowIsGain(fund: int, fee: nat, cap: nat)
    ensures Overflow(fund, fee, cap) >= 0
  {}

  lemma WrittenNets(s: State, user: Address, q: Position)
    ensures s.SetPos(user, q).Pos(user) == q
  {}

  lemma SellFloor(env: Env, s: State, user: Address, frontend: Address, price: nat, slippage: nat)
    returns (floor: nat, share: nat)
    requires s.Pos(user).balanceAsset >= s.Pos(user).debtAsset && SellAll(env, s, user, frontend, price, slippage).Ok?
    ensures var r, p := SellAll(env, s, user, frontend, price, slippage).value, s.Pos(user);
            && AssetNet(r.Pos(user)) == 0 && StableNet(r.Pos(user)) >= StableNet(p) + floor
            && IsFloor(floor, Md(p.balanceAsset - p.debtAsset, price, ORACLE_DECIMALS), slippage)
            && r.insurance.Val() == Filled(s.insurance.Val(), share, env.cfg.insuranceFundCap)
  {
    hide ExecuteTrade, Md, IsPortion, Filled, AssetNet, StableNet, State.Pos, State.SetPos;
    var p := s.Pos(user);
    var size := p.balanceAsset - p.debtAsset;
    var worth := Md(size, price, ORACLE_DECIMALS);
    floor := Md(worth, BPS - slippage, BPS);
    PortionIs(worth, BPS - slippage, BPS);
    NettedLong(p);
    NetOfLong(p);
    var q := p.(balanceAsset := size, debtAsset := 0);
    WrittenNets(s, user, q);
    KeptFund(s, user, q);
    share := TraderGains(env, s.SetPos(user, q), TradeArgs(user, false, size, floor, s.pool.stable, frontend, price));
  }

  lemma NetOfLong(p: Position)
    ensures AssetNet(p) == p.balanceAsset - p.debtAsset
  {}

  lemma KeptFund(s: State, user: Address, q: Position)
    ensures s.SetPos(user, q).insurance == s.insurance && s.SetPos(user, q).pool == s.pool
  {}

  lemma BuyBackFloor(env: Env, s: State, user: Address, frontend: Address, price: nat, slippage: nat)
    returns (paid: nat, floor: nat, share: nat)
    requires BuyBack(env, s, user, frontend, price, slippage).Ok?
    ensures var r, p := BuyBack(env, s, user, frontend, price, slippage).value, s.Pos(user);
            && price > 0 && StableNet(r.Pos(user)) >= StableNet(p) - paid
               && AssetNet(r.Pos(user)) >= AssetNet(p) + floor
            && IsFloor(floor, Md(paid, ORACLE_DECIMALS, price), slippage)
            && r.insurance.Val() == Filled(s.insurance.Val(), share, env.cfg.insuranceFundCap)
  {
    hide ExecuteTrade, Md, IsPortion, Filled, BuyBackInput, OpenWindow, CloseBound, AssetNet, StableNet;
    var turned := s.(window := OpenWindow(env, s, true, price));
    SamePositions(s, turned, user);
    hide State.Pos;
    paid := BuyBackInput(env, turned, s.Pos(user).debtAsset, frontend, price).value;
    var worth := Md(paid, ORACLE_DECIMALS, price);
    floor := Md(worth, BPS - slippage, BPS);
    PortionIs(worth, BPS - slippage, BPS);
    share := TraderGains(env, turned, TradeArgs(user, true, paid, floor, s.pool.asset, frontend, price));
  }

  lemma NothingFills(fund: int, cap: nat)
    ensures Filled(fund, 0, cap) == fund
  {}

  /** Whatever a close trades away it trades at its caller's floor or better. */
  lemma FlattenFloor(env: Env, s: State, user: Address, frontend: Address, price: nat, slippage: nat)
    returns (paid: nat, floor: nat, share: nat)
    requires Flatten(env, s, user, frontend, price, slippage).Ok?
    ensures var r := Flatten(env, s, user, frontend, price, slippage).value;
            && FloorKept(s.Pos(user), r.Pos(user), r.pool, price, slippage, paid, floor)
            && r.insurance.Val() == Filled(s.insurance.Val(), share, env.cfg.insuranceFundCap)
  {
    hide Flatten, FloorKept, Filled, IsDust, State.Pos;
    var p := s.Pos(user);
    if IsDust(p, price) {
      paid, floor, share := 0, 0, 0;
      DustFloor(env, s, user, frontend, price, slippage, floor);
    } else if p.balanceAsset > p.debtAsset {
      paid := 0;
      floor, share := LongFloor(env, s, user, frontend, price, slippage, paid);
    } else {
      paid, floor, share := ShortFloor(env, s, user, frontend, price, slippage);
    }
  }

  lemma DustFloor(env: Env, s: State, user: Address, frontend: Address, price: nat, slippage: nat, floor: nat)
    requires Flatten(env, s, user, frontend, price, slippage).Ok? && IsDust(s.Pos(user), price)
    ensures var r := Flatten(env, s, user, frontend, price, slippage).value;
            && FloorKept(s.Pos(user), r.Pos(user), r.pool, price, slippage, 0, floor)
            && r.insurance.Val() == Filled(s.insurance.Val(), 0, env.cfg.insuranceFundCap)
  {
    hide Md, SellAll, BuyBack, IsFloor, Residual, AssetNet, StableNet;
    var p := s.Pos(user);
    NothingFills(s.insurance.Val(), env.cfg.insuranceFundCap);
    DustNets(p);
    WrittenNets(s, user, p.(balanceAsset := p.debtAsset));
    KeptFund(s, user, p.(balanceAsset := p.debtAsset));
    hide State.Pos, State.SetPos, Filled;
  }

  lemma LongFloor(env: Env, s: State, user: Address, frontend: Address, price: nat, slippage: nat, paid: nat)
    returns (floor: nat, share: nat)
    requires Flatten(env, s, user, frontend, price, slippage).Ok?
    requires !IsDust(s.Pos(user), price) && s.Pos(user).balanceAsset > s.Pos(user).debtAsset
    ensures var r := Flatten(env, s, user, frontend, price, slippage).value;
            && FloorKept(s.Pos(user), r.Pos(user), r.pool, price, slippage, paid, floor)
            && r.insurance.Val() == Filled(s.insurance.Val(), share, env.cfg.insuranceFundCap)
  {
    hide SellAll, BuyBack, Md, IsFloor, Filled, AssetNet, StableNet, CloseStep, Residual, State.Pos;
    NetOfLong(s.Pos(user));
    SellAllBooks(env, s, user, frontend, price, slippage);
    floor, share := SellFloor(env, s, user, frontend, price, slippage);
  }

  lemma ShortFloor(env: Env, s: State, user: Address, frontend: Address, price: nat, slippage: nat)
    returns (paid: nat, floor: nat, share: nat)
    requires Flatten(env, s, user, frontend, price, slippage).Ok?
    requires !IsDust(s.Pos(user), price) && s.Pos(user).balanceAsset <= s.Pos(user).debtAsset
    ensures var r := Flatten(env, s, user, frontend, price, slippage).value;
            && FloorKept(s.Pos(user), r.Pos(user), r.pool, price, slippage, paid, floor)
            && r.insurance.Val() == Filled(s.insurance.Val(), share, env.cfg.insuranceFundCap)
  {
    hide SellAll, BuyBack, Md, IsFloor, Filled, AssetNet, StableNet, CloseStep, Residual, State.Pos, State.SetPos;
    var p := s.Pos(user);
    TradedDebt(p, price);
    NetOfLong(p);
    NettedShort(p);
    var q := p.(debtAsset := p.debtAsset - p.balanceAsset, balanceAsset := 0);
    WrittenNets(s, user, q);
    KeptFund(s, user, q);
    BuyBackBooks(env, s.SetPos(user, q), user, frontend, price, slippage);
    paid, floor, share := BuyBackFloor(env, s.SetPos(user, q), user, frontend, price, slippage);
  }

  lemma TradedDebt(p: Position, price: nat)
    requires !IsDust(p, price) && p.balanceAsset <= p.debtAsset
    ensures p.balanceAsset < p.debtAsset
  {}

  // ----- The exit -----

  /** Leaving the pool makes one position of all a user holds and owes, less the withdrawal's fee. */
  lemma ExitAccounts(env: Env, s: State, user: Address, price: nat, maxLiqFee: nat) returns (fee: nat)
    requires CloseLp(env, s, user, price, maxLiqFee).Ok?
    ensures LpBalance(s, user).Ok? && (maxLiqFee != 0 ==> fee <= maxLiqFee)
    ensures var r := CloseLp(env, s, user, price, maxLiqFee).value;
            && r.Lp(user) == EMPTY_LP && r.insurance == s.insurance
            && AssetNet(r.Pos(user)) == NetOf(s, user) && StableNet(r.Pos(user)) == StableOf(s, user) - fee
  {
    hide LpBalance, RemoveLiquidityCore, AssetNet, StableNet, LowerExposure, State.Pos, SameOutside;
    var balance, lp := LpBalance(s, user).value, s.Lp(user);
    if balance.0 == 0 && balance.1 == 0 && lp.debtAsset == 0 && lp.debtStable == 0 {
      fee := 0;
      SameTrader(s, user);
    } else {
      WithdrawalAccounts(env, s, balance.0, balance.1, user, price, maxLiqFee, user);
      var r := RemoveLiquidityCore(env, s, balance.0, balance.1, user, price, maxLiqFee).value;
      fee := r.1;
      var rest := r.0.Lp(user);
      DebtNets(r.0.Pos(user), rest.debtStable, rest.debtAsset);
      MovedDebt(r.0, user, LowerExposure(r.0.exposure, rest.debtAsset));
    }
  }

  lemma SameTrader(s: State, user: Address)
    ensures var t := s.SetLp(user, EMPTY_LP); t.Pos(user) == s.Pos(user) && t.Lp(user) == EMPTY_LP
  {}

  lemma MovedDebt(s: State, user: Address, exposure: Signed)
    ensures var p, rest := s.Pos(user), s.Lp(user);
            var q := p.(debtAsset := p.debtAsset + rest.debtAsset, debtStable := p.debtStable + rest.debtStable);
            var t := s.SetPos(user, q).(exposure := exposure).SetLp(user, EMPTY_LP);
            t.Pos(user) == q && t.Lp(user) == EMPTY_LP
  {}

  // ----- The close -----

  /** What a loss takes beyond the collateral. */
  function Shortfall(pnl: int, collateral: nat): int { Max(0, -pnl - collateral) }

  /** A close, from the pool to the empty position: everything the user holds and owes becomes one position less the
      exit fee, which is traded away at the caller's floor or better; what it is then worth is settled against the
      collateral, the insurance fund paying exactly the shortfall; and a close the user asked for never has one. */
  lemma CloseSettles(env: Env, s: State, a: CloseArgs) returns (exitFee: nat, paid: nat, floor: nat, share: nat)
    requires Closed(env, s, a).Ok?
    ensures CloseLp(env, s, a.user, a.price, a.maxLiqFee).Ok? && Flattened(env, s, a).Ok? && LpBalance(s, a.user).Ok?
    ensures var p := CloseLp(env, s, a.user, a.price, a.maxLiqFee).value.Pos(a.user);
            && AssetNet(p) == NetOf(s, a.user) && StableNet(p) == StableOf(s, a.user) - exitFee
            && (a.maxLiqFee != 0 ==> exitFee <= a.maxLiqFee)
            && var flat := Flattened(env, s, a).value;
            && FloorKept(p, flat.Pos(a.user), flat.pool, a.price, a.maxSlippage, paid, floor)
            && CalcPnlUser(env, flat, a.user, a.price) == Ok(Closed(env, s, a).value.1)
    ensures var (r, pnl) := Closed(env, s, a).value;
            && r.Pos(a.user) == EMPTY_POSITION && r.Lp(a.user) == EMPTY_LP
            && r.insurance.Val() == Filled(s.insurance.Val(), share, env.cfg.insuranceFundCap)
                                    - Shortfall(pnl.Val(), a.collateral)
            && (a.isSelfClose ==> Shortfall(pnl.Val(), a.collateral) == 0)
  {
    hide CloseLp, Flatten, CalcPnlUser, Filled, FloorKept, FundingAt, ResidualWorth, LpBalance, AssetNet, StableNet,
         NetOf,
         StableOf, SignedSum;
    ClosedIsFlat(env, s, a);
    exitFee := ExitAccounts(env, s, a.user, a.price, a.maxLiqFee);
    var exited := CloseLp(env, s, a.user, a.price, a.maxLiqFee).value;
    paid, floor, share := FlattenFloor(env, exited, a.user, a.frontend, a.price, a.maxSlippage);
    var flat, pnl := Flattened(env, s, a).value, Closed(env, s, a).value.1;
    InsurancePays(flat.insurance, pnl, a.collateral);
  }

  // ----- The fee of a third-party close -----

  /** The fee of a third-party close moves from the user to the caller, and from nobody when they are the same. */
  lemma AutoCloseFeeAccounts(env: Env, s: State, caller: Address, user: Address, v: Address)
    ensures var fee: int := env.cfg.autoCloseFee;
            AccountMoves(s, MoveAutoCloseFee(env, s, caller, user), v, 0,
                         (if v == user then -fee else 0) + if v == caller then fee else 0)
  {
    hide Moves, State.Pos, AccountMoves, CreditStable;
    var p, fee := s.Pos(user), env.cfg.autoCloseFee;
    var s1 := s.SetPos(user, p.(debtStable := p.debtStable + fee));
    ChargedNets(p, fee);
    WrittenNets(s, user, p.(debtStable := p.debtStable + fee));
    WrittenMoves(s, s1, user, 0, -(fee as int), v);
    CreditMoves(s1, caller, fee, v);
    MovesChain(s, s1, CreditStable(s1, caller, fee), v, 0, if v == user then -(fee as int) else 0, 0,
               if v == caller then fee else 0);
  }

  lemma CreditMoves(s: State, u: Address, amount: nat, v: Address)
    ensures AccountMoves(s, CreditStable(s, u, amount), v, 0, if v == u then amount else 0)
  {
    hide Moves, State.Pos, CreditStable, AccountMoves;
    CreditAccount(s, u, amount, v);
    SamePosition(s.Pos(v));
    PositionMoves(s, CreditStable(s, u, amount), v, 0, if v == u then amount else 0);
  }

  lemma ChargedNets(p: Position, fee: nat)
    ensures Moves(p, p.(debtStable := p.debtStable + fee), 0, -(fee as int))
  {}

  // ----- Realised profit -----

  /** Realising takes exactly the profit it reports out of the user's stable, and touches no asset and no other
      account. */
  lemma RealizeAccounts(env: Env, s: State, user: Address, price: nat, collateral: nat, v: Address)
    requires RealizePnl(env, s, user, price, collateral).Ok?
    ensures var (r, pnl) := RealizePnl(env, s, user, price, collateral).value;
            && AccountMoves(s, r, v, 0, if v == user then -pnl.Val() else 0)
            && (!pnl.pos ==> pnl.mag < collateral) && r.insurance == s.insurance && r.pool == s.pool
  {
    hide UpdateFG, CalcPnlUser, LpBalance, FundingFee, CreditFunding, UpdateSnapshots, SameOutside, AccountMoves,
         State.Pos,
         TakePnl, Moves;
    TickOutside(env, s, price, v);
    var s1 := UpdateFG(env, s, price).value;
    var balance, fee := LpBalance(s1, user).value, FundingFee(s1, user).value;
    CreditOutside(s1, user, fee, v);
    var s2 := CreditFunding(s1, user, fee);
    SnapshotOutside(s2, user, balance.0, balance.1, v);
    var s3 := UpdateSnapshots(s2, user, balance.0, balance.1).value;
    SameOutsideChains(s, s1, s2, v, 0, 0);
    SameOutsideChains(s, s2, s3, v, 0, 0);
    var (r, pnl) := RealizePnl(env, s, user, price, collateral).value;
    TakenNets(s3.Pos(user), pnl);
    WrittenNets(s3, user, TakePnl(s3.Pos(user), pnl));
    WrittenMoves(s3, r, user, 0, -pnl.Val(), v);
    StillThenMoves(s, s3, r, v, 0, if v == user then -pnl.Val() else 0);
  }

  lemma TakenNets(p: Position, pnl: Signed)
    ensures Moves(p, TakePnl(p, pnl), 0, -pnl.Val())
  {}
}
