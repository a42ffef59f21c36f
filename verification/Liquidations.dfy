/** A whole liquidation, account by account: whom it may touch, what it pulls out of the pool, and who ends up with
    what. */
module Liquidations {
  import opened Arith
  import opened EngineState
  import opened EngineSpec
  import opened EngineOps
  import opened Pinning
  import opened Refresh
  import opened Ledger
  import opened LedgerRuns
  import opened Accounts

  // ----- Before the transfer -----

  /** A user's asset side is the same, gross as well as net. */
  predicate SameAssets(s: State, t: State, v: Address)
  {
    && t.Pos(v).balanceAsset == s.Pos(v).balanceAsset && t.Pos(v).debtAsset == s.Pos(v).debtAsset
    && t.Lp(v).debtAsset == s.Lp(v).debtAsset
  }

  lemma CreditedAssets(s: State, user: Address, fee: Signed, v: Address)
    ensures SameAssets(s, CreditFunding(s, user, fee), v) && SameAssets(s, StampRate(s, user), v)
  {
    hide SignedSum;
  }

  lemma SettledAccounts(s: State, user: Address, v: Address)
    requires SettleAndSnapshot(s, user).Ok?
    ensures var t := SettleAndSnapshot(s, user).value;
            && SameOutside(s, t, v) && t.pool == s.pool && t.insurance == s.insurance && t.window == s.window
            && t.lastOp == s.lastOp && SameAssets(s, t, v)
  {
    hide LpBalance, FundingFee, UpdateSnapshots, CreditFunding, SameOutside;
    var balance, fee := LpBalance(s, user).value, FundingFee(s, user).value;
    var credited := CreditFunding(s, user, fee);
    CreditOutside(s, user, fee, v);
    SnapshotOutside(credited, user, balance.0, balance.1, v);
    SnapshotFrame(credited, user, balance.0, balance.1);
    SameOutsideChains(s, credited, SettleAndSnapshot(s, user).value, v, 0, 0);
    CreditedAssets(s, user, fee, v);
    CreditedAssets(credited, user, fee, v);
  }

  lemma BothSettledAccounts(env: Env, s: State, liquidator: Address, user: Address, price: nat, v: Address)
    requires Inv(s) && BothSettled(env, s, liquidator, user, price).Ok?
    ensures var t := BothSettled(env, s, liquidator, user, price).value;
            && Inv(t) && SameOutside(s, t, v) && t.pool == s.pool && t.insurance == s.insurance && t.window == s.window
            && t.lastOp == env.now && LpBalance(t, user) == LpBalance(s, user) && SameAssets(s, t, v)
  {
    hide UpdateFG, SettleAndSnapshot, SameOutside, LpBalance, Inv;
    FundingKeepsInv(env, s, price);
    TickKeepsBalances(env, s, price, user);
    TickOutside(env, s, price, v);
    var funded := UpdateFG(env, s, price).value;
    SettledAccounts(funded, liquidator, v);
    SettleKeepsInv(funded, liquidator);
    var settled := SettleAndSnapshot(funded, liquidator).value;
    if user == liquidator { OwnBalanceKept(funded, user); }
        else { OthersUntouched(env, funded, liquidator, user, price); }
    SettledAccounts(settled, user, v);
    SettleKeepsInv(settled, user);
    OwnBalanceKept(settled, user);
    var t := SettleAndSnapshot(settled, user).value;
    SameOutsideChains(s, funded, settled, v, 0, 0);
    SameOutsideChains(s, settled, t, v, 0, 0);
  }

  /** What a liquidation pulls out of an LP's liquidity: the liquidated fraction of both sides, and of the asset side as
      much as the transfer needs when the trader holds too little. */
  predicate PullIs(s: State, user: Address, size: nat, fraction: nat, long: bool, balance: (nat, nat), stable: nat,
                   asset: nat)
  {
    var held := s.Pos(user).balanceAsset;
    if balance == (0, 0) then stable == 0 && asset == 0
    else
      && IsPart(stable, balance.0, fraction) && asset <= balance.1
      && if long && size > held then
           var needed := s.Lp(user).debtAsset + size - held;
           && asset >= needed
           && (IsPart(asset, balance.1, fraction)
               || (asset == needed && balance.1 * fraction < needed * LIQUIDATION_DECIMALS))
         else IsPart(asset, balance.1, fraction)
  }

  lemma AmountsToPull(s: State, user: Address, size: nat, fraction: nat, long: bool, balance: (nat, nat))
    requires LiquidityToPull(s, user, size, fraction, long, balance).Ok? && balance != (0, 0)
    requires LiquidityToPull(s, user, size, fraction, long, balance).value.1 <= balance.1
    ensures var pull := LiquidityToPull(s, user, size, fraction, long, balance).value;
            PullIs(s, user, size, fraction, long, balance, pull.0, pull.1)
  {
    DivMod(balance.0 * fraction, LIQUIDATION_DECIMALS);
    DivMod(balance.1 * fraction, LIQUIDATION_DECIMALS);
  }

  /** Liquidity of these amounts has left the pool for the LP, less a fee, and nobody else is touched. */
  predicate PulledOut(s: State, r: State, user: Address, stable: nat, asset: nat, fee: nat, v: Address)
  {
    && stable <= s.pool.stable && asset <= s.pool.asset && r.insurance == s.insurance
    && SameAverages(s.window, r.window)
    && r.pool.asset == s.pool.asset - asset && s.pool.stable - stable <= r.pool.stable <= s.pool.stable - stable + fee
    && (if v == user then OutsideMoves(s, r, v, asset, stable - fee) else SameOutside(s, r, v))
  }

  /** Pulling liquidity is a withdrawal by the LP of the amounts named, and touches nobody else. */
  lemma PullAccounts(env: Env, s: State, user: Address, size: nat, fraction: nat, long: bool, price: nat, v: Address)
    returns (stable: nat, asset: nat, fee: nat)
    requires LpBalance(s, user).Ok? && PullLiquidity(env, s, user, size, fraction, long, LpBalance(s, user).value,
                                                     price).Ok?
    ensures PullIs(s, user, size, fraction, long, LpBalance(s, user).value, stable, asset)
    ensures var r := PullLiquidity(env, s, user, size, fraction, long, LpBalance(s, user).value, price).value;
            PulledOut(s, r, user, stable, asset, fee, v)
  {
    hide RemoveLiquidityCore, LiquidityToPull, PullIs, LpBalance, PulledOut;
    var balance := LpBalance(s, user).value;
    stable, asset, fee := 0, 0, 0;
    if balance.0 == 0 && balance.1 == 0 {
      NothingPulled(s, user, size, fraction, long, balance);
      NothingMoves(s, user, v);
    } else {
      var pull := LiquidityToPull(s, user, size, fraction, long, balance).value;
      PullFits(env, s, user, pull.0, pull.1, price);
      AmountsToPull(s, user, size, fraction, long, balance);
      stable, asset := pull.0, pull.1;
      if pull.0 != 0 || pull.1 != 0 {
        fee := WithdrawnPull(env, s, user, pull.0, pull.1, price, v);
      } else {
        NothingMoves(s, user, v);
      }
    }
  }

  lemma WithdrawnPull(env: Env, s: State, user: Address, stable: nat, asset: nat, price: nat, v: Address)
    returns (fee: nat)
    requires RemoveLiquidityCore(env, s, stable, asset, user, price, 0).Ok?
    ensures PulledOut(s, RemoveLiquidityCore(env, s, stable, asset, user, price, 0).value.0, user, stable, asset, fee,
                      v)
  {
    hide RemoveLiquidityCore, OutsideMoves, SameOutside;
    WithdrawalAccounts(env, s, stable, asset, user, price, 0, v);
    fee := RemoveLiquidityCore(env, s, stable, asset, user, price, 0).value.1;
  }

  lemma NothingPulled(s: State, user: Address, size: nat, fraction: nat, long: bool, balance: (nat, nat))
    requires balance.0 == 0 && balance.1 == 0
    ensures PullIs(s, user, size, fraction, long, balance, 0, 0)
  {}

  lemma NothingMoves(s: State, user: Address, v: Address)
    ensures PulledOut(s, s, user, 0, 0, 0, v)
  {}

  lemma PullFits(env: Env, s: State, user: Address, stable: nat, asset: nat, price: nat)
    requires LpBalance(s, user).Ok?
    requires (stable == 0 && asset == 0) || RemoveLiquidityCore(env, s, stable, asset, user, price, 0).Ok?
    ensures asset <= LpBalance(s, user).value.1 && stable <= LpBalance(s, user).value.0
  {
    hide LpBalance, UpdateFG, FundingFee, UpdateSnapshots, TakeFromPool;
  }

  // ----- The whole transfer -----

  /** What decides a liquidation: its side, the fraction and the margin it was allowed at, the discount, the value and
      the price paid, the insurance share, and what was pulled out of the pool for what fee. */
  datatype Terms = Terms(long: bool, fraction: nat, margin: nat, discount: nat, value: nat, dy: nat, share: nat,
                         stable: nat, asset: nat, fee: nat)

  /** The fraction a liquidated amount is of the user's net asset, rounded down. */
  predicate IsFraction(fraction: nat, size: nat, net: int)
  {
    net != 0 && fraction * Abs(net) <= size * LIQUIDATION_DECIMALS < fraction * Abs(net) + Abs(net)
  }

  /** The user's net asset, LP balance and LP debt included. */
  function NetOf(s: State, user: Address): int
    requires LpBalance(s, user).Ok?
  {
    LpBalance(s, user).value.1 + AssetNet(s.Pos(user)) - s.Lp(user).debtAsset
  }

  /** Half of a position at most, or all of it at half the maintenance ratio or below, and none above that ratio. */
  predicate Allowed(cfg: Config, margin: nat, fraction: nat)
  {
    && margin <= cfg.mmr && fraction <= LIQUIDATION_DECIMALS
    && (margin > cfg.mmr / 2 ==> 2 * fraction <= LIQUIDATION_DECIMALS)
  }

  lemma AllowedIs(cfg: Config, margin: nat, fraction: nat)
    ensures FractionAllowed(cfg, margin, fraction) <==> Allowed(cfg, margin, fraction)
  {}

  lemma FractionIs(size: nat, held: nat, owed: nat)
    requires held != owed
    ensures IsFraction(Md(size, LIQUIDATION_DECIMALS, DiffAbs(held, owed)), size, held - owed)
  {
    DivMod(size * LIQUIDATION_DECIMALS, DiffAbs(held, owed));
  }

  /** The terms of a liquidation that went through, read off the state it met and the state after its withdrawal. */
  predicate TermsHold(env: Env, s: State, pulled: State, user: Address, size: nat, price: nat, collateral: nat,
                      w: Terms)
    requires LpBalance(s, user).Ok? && UpdateFG(env, s, price).Ok?
  {
    && w.long == (NetOf(s, user) > 0) && IsFraction(w.fraction, size, NetOf(s, user))
    && CalcMr(env, UpdateFG(env, s, price).value, user, price, collateral) == Ok(w.margin)
    && Allowed(env.cfg, w.margin, w.fraction) && LiquidationDiscount(env.cfg, w.margin) == Ok(w.discount)
    && PullIs(s, user, size, w.fraction, w.long, LpBalance(s, user).value, w.stable, w.asset)
    && HandedOverAt(env, pulled, user, size, price, collateral, w)
  }

  /** Who ends up with what: the user loses (long) or gains (short) exactly the liquidated amount for dy, on top of what
      was pulled out of its liquidity; the liquidator takes the other side and pays the share the fund can hold; nobody
      else moves. */
  predicate Settled(s: State, r: State, user: Address, liquidator: Address, size: nat, cap: nat, w: Terms, v: Address)
  {
    var asset, stable := if w.long then -(size as int) else size, if w.long then w.dy else -(w.dy as int);
    && r.insurance.Val() == Filled(s.insurance.Val(), w.share, cap)
    && (if v == user then OutsideMoves(s, r, v, w.asset + asset, w.stable - w.fee + stable)
        else if v == liquidator then
          OutsideMoves(s, r, v, -asset, -stable - (r.insurance.Val() - s.insurance.Val()))
        else SameOutside(s, r, v))
  }

  lemma StampedAccounts(s: State, user: Address, v: Address)
    ensures var t := StampRate(s, user);
            SameOutside(s, t, v) && t.insurance == s.insurance && t.pool == s.pool && t.lps == s.lps
  {}

  /** A liquidation in every reachable state, account by account. */
  lemma LiquidationAccounts(calls: seq<Call>, env: Env, liquidator: Address, user: Address, size: nat, price: nat,
                            collateral: nat, v: Address) returns (pulled: State, w: Terms)
    requires LiquidateTransfer(env, Run(INITIAL_STATE, calls), liquidator, user, size, price, collateral).Ok?
    ensures var s := Run(INITIAL_STATE, calls);
            var r := LiquidateTransfer(env, s, liquidator, user, size, price, collateral).value;
            && user != liquidator && w.fraction == r.1 && LpBalance(s, user).Ok? && UpdateFG(env, s, price).Ok?
            && TermsHold(env, s, pulled, user, size, price, collateral, w)
            && PulledOut(s, pulled, user, w.stable, w.asset, w.fee, v)
            && Settled(s, r.0, user, liquidator, size, env.cfg.insuranceFundCap, w, v)
  {
    hide Run, LiquidateTransfer, Inv, LpBalance, UpdateFG, TermsHold, PulledOut, Settled;
    EveryRunIsOk(calls);
    pulled, w := LiquidationAccountsFrom(env, Run(INITIAL_STATE, calls), liquidator, user, size, price, collateral, v);
  }

  /** From the settled state on: liquidity is pulled, the position handed over, and both sides stamped. */
  predicate HandsOver(env: Env, ready: State, r: (State, nat), liquidator: Address, user: Address, size: nat,
                      price: nat,
                      collateral: nat, long: bool, fraction: nat, discount: nat)
  {
    && LpBalance(ready, user).Ok? && r.1 == fraction
    && var pull := PullLiquidity(env, ready, user, size, fraction, long, LpBalance(ready, user).value, price);
    && pull.Ok?
    && var moved := LiquidatePosition(env, pull.value, size, user, discount, long, liquidator, price, collateral);
       moved.Ok? && r.0 == StampRate(StampRate(moved.value, user), liquidator)
  }

  /** The phases of a transfer that went through. */
  lemma TransferPhases(env: Env, s: State, liquidator: Address, user: Address, size: nat, price: nat, collateral: nat)
    returns (margin: nat, fraction: nat, discount: nat)
    requires LiquidateTransfer(env, s, liquidator, user, size, price, collateral).Ok?
    ensures user != liquidator && UpdateFG(env, s, price).Ok? && BothSettled(env, s, liquidator, user, price).Ok?
    ensures CalcMr(env, UpdateFG(env, s, price).value, user, price, collateral) == Ok(margin)
    ensures LiquidationDiscount(env.cfg, margin) == Ok(discount) && FractionAllowed(env.cfg, margin, fraction)
    ensures var ready := BothSettled(env, s, liquidator, user, price).value;
            && LpBalance(ready, user).Ok? && LiquidationFraction(ready, user, size) == Ok(fraction)
            && Sides(ready, user).0 != Sides(ready, user).1
            && HandsOver(env, ready, LiquidateTransfer(env, s, liquidator, user, size, price, collateral).value,
                         liquidator,
                         user, size, price, collateral, Sides(ready, user).0 > Sides(ready, user).1, fraction, discount)
  {
    hide UpdateFG, CalcMr, CalcPnlUserInternal, SettleAndSnapshot, LpBalance, PullLiquidity, LiquidatePosition,
         LiquidationDiscount, StampRate, Md, FractionAllowed;
    margin := CalcMr(env, UpdateFG(env, s, price).value, user, price, collateral).value;
    fraction := LiquidateTransfer(env, s, liquidator, user, size, price, collateral).value.1;
    discount := LiquidationDiscount(env.cfg, margin).value;
  }

  lemma LiquidationAccountsFrom(env: Env, s: State, liquidator: Address, user: Address, size: nat, price: nat,
                                collateral: nat, v: Address) returns (pulled: State, w: Terms)
    requires Inv(s) && LiquidateTransfer(env, s, liquidator, user, size, price, collateral).Ok?
    ensures var r := LiquidateTransfer(env, s, liquidator, user, size, price, collateral).value;
            && user != liquidator && w.fraction == r.1 && LpBalance(s, user).Ok? && UpdateFG(env, s, price).Ok?
            && TermsHold(env, s, pulled, user, size, price, collateral, w)
            && PulledOut(s, pulled, user, w.stable, w.asset, w.fee, v)
            && Settled(s, r.0, user, liquidator, size, env.cfg.insuranceFundCap, w, v)
  {
    hide UpdateFG, CalcMr, LpBalance, LiquidationDiscount, FractionAllowed, Inv, BothSettled, HandsOver,
         LiquidateTransfer, IsFraction, PullIs, Allowed, PulledOut, Settled, SameOutside, LiquidationFraction,
         HandedOverAt, NetOf, SameAssets;
    var margin, fraction, discount := TransferPhases(env, s, liquidator, user, size, price, collateral);
    var ready := BothSettled(env, s, liquidator, user, price).value;
    BothSettledAccounts(env, s, liquidator, user, price, v);
    BothSettledAccounts(env, s, liquidator, user, price, user);
    SameNet(s, ready, user);
    LiquidatedFraction(ready, user, size);
    AllowedIs(env.cfg, margin, fraction);
    var r := LiquidateTransfer(env, s, liquidator, user, size, price, collateral).value;
    pulled, w := HandedOver(env, s, ready, r, liquidator, user, size, price, collateral, NetOf(s, user) > 0, fraction,
                            margin, discount, v);
  }

  lemma LiquidatedFraction(t: State, user: Address, size: nat)
    requires LpBalance(t, user).Ok? && LiquidationFraction(t, user, size).Ok? && Sides(t, user).0 != Sides(t, user).1
    ensures IsFraction(LiquidationFraction(t, user, size).value, size, Sides(t, user).0 - Sides(t, user).1)
  {
    hide LpBalance, IsFraction;
    FractionIs(size, Sides(t, user).0, Sides(t, user).1);
  }

  lemma SameNet(s: State, t: State, user: Address)
    requires LpBalance(s, user).Ok? && LpBalance(t, user) == LpBalance(s, user) && SameAssets(s, t, user)
    ensures NetOf(s, user) == Sides(t, user).0 - Sides(t, user).1
  {
    hide LpBalance;
  }

  /** The part of the terms the hand-over decides. */
  predicate HandedOverAt(env: Env, pulled: State, user: Address, size: nat, price: nat, collateral: nat, w: Terms)
  {
    && env.cfg.insFundFraction > 0 && IsPart(w.share, w.value, w.discount / env.cfg.insFundFraction)
    && (if w.long then
          && w.discount <= LIQUIDATION_DECIMALS && LongValue(env, pulled, size, price, w.value)
          && IsPart(w.dy, w.value, LIQUIDATION_DECIMALS - w.discount)
        else
          && ShortValue(env, pulled, user, size, price, collateral, w.value)
          && IsPart(w.dy, w.value, LIQUIDATION_DECIMALS + w.discount))
  }

  lemma HandedOver(env: Env, s: State, ready: State, r: (State, nat), liquidator: Address, user: Address, size: nat,
                   price: nat, collateral: nat, long: bool, fraction: nat, margin: nat, discount: nat, v: Address)
    returns (pulled: State, w: Terms)
    requires user != liquidator && LpBalance(s, user).Ok? && LpBalance(ready, user) == LpBalance(s, user)
    requires SameOutside(s, ready, v) && SameAssets(s, ready, user)
    requires ready.pool == s.pool && ready.insurance == s.insurance && ready.window == s.window
    requires HandsOver(env, ready, r, liquidator, user, size, price, collateral, long, fraction, discount)
    ensures r.1 == fraction
    ensures w == Terms(long, fraction, margin, discount, w.value, w.dy, w.share, w.stable, w.asset, w.fee)
    ensures PullIs(s, user, size, fraction, long, LpBalance(s, user).value, w.stable, w.asset)
    ensures HandedOverAt(env, pulled, user, size, price, collateral, w)
    ensures PulledOut(s, pulled, user, w.stable, w.asset, w.fee, v)
    ensures Settled(s, r.0, user, liquidator, size, env.cfg.insuranceFundCap, w, v)
  {
    hide LpBalance, PullLiquidity, LiquidatePosition, StampRate, IsPart, PullIs, LongValue, ShortValue, PulledOut,
         Settled,
         Transferred, SameOutside, SameAssets;
    var stable, asset, fee := PullAccounts(env, ready, user, size, fraction, long, price, v);
    pulled := PullLiquidity(env, ready, user, size, fraction, long, LpBalance(ready, user).value, price).value;
    var value, dy, share :=
      LiquidatePositionAccounts(env, pulled, size, user, discount, long, liquidator, price, collateral, v);
    w := Terms(long, fraction, margin, discount, value, dy, share, stable, asset, fee);
    PullFrame(s, ready, user, size, fraction, long, LpBalance(s, user).value, stable, asset);
    PulledFrame(s, ready, pulled, user, stable, asset, fee, v);
    var moved := LiquidatePosition(env, pulled, size, user, discount, long, liquidator, price, collateral).value;
    TransferSettles(s, pulled, moved, user, liquidator, size, env.cfg.insuranceFundCap, w, v);
    StampedSettles(s, moved, user, liquidator, size, env.cfg.insuranceFundCap, w, v);
  }

  lemma PullFrame(s: State, t: State, user: Address, size: nat, fraction: nat, long: bool, balance: (nat, nat),
                  stable: nat, asset: nat)
    requires SameAssets(s, t, user) && PullIs(t, user, size, fraction, long, balance, stable, asset)
    ensures PullIs(s, user, size, fraction, long, balance, stable, asset)
  {
    hide IsPart;
  }

  lemma PulledFrame(s: State, ready: State, pulled: State, user: Address, stable: nat, asset: nat, fee: nat, v: Address)
    requires SameOutside(s, ready, v) && PulledOut(ready, pulled, user, stable, asset, fee, v)
    requires ready.pool == s.pool && ready.insurance == s.insurance && ready.window == s.window
    ensures PulledOut(s, pulled, user, stable, asset, fee, v)
  {
    hide SameOutside, OutsideMoves, SameAverages;
    SameOutsideChains(s, ready, pulled, v, asset, stable - fee);
  }

  lemma TransferSettles(s: State, pulled: State, moved: State, user: Address, liquidator: Address, size: nat, cap: nat,
                        w: Terms, v: Address)
    requires user != liquidator && PulledOut(s, pulled, user, w.stable, w.asset, w.fee, v)
    requires Transferred(pulled, moved, user, liquidator, if w.long then -(size as int) else size,
                         if w.long then w.dy else -(w.dy as int), w.share, cap)
    requires v != user && v != liquidator ==> moved.Pos(v) == pulled.Pos(v)
    ensures Settled(s, moved, user, liquidator, size, cap, w, v)
  {
    hide Filled, Moves, SameFee, OutsideMoves, SameOutside, State.Pos;
    var asset, stable := if w.long then -(size as int) else size, if w.long then w.dy else -(w.dy as int);
    if v == user {
      MoveOutside(s, pulled, moved, v, w.asset, w.stable - w.fee, asset, stable);
    } else if v == liquidator {
      StillOutside(s, pulled, v);
      MoveOutside(s, pulled, moved, v, 0, 0, -asset, -stable - w.share
                  + Overflow(pulled.insurance.Val(), w.share, cap));
    } else {
      UnmovedOutside(s, pulled, moved, v);
    }
  }

  lemma MoveOutside(s: State, t: State, r: State, v: Address, asset: int, stable: int, da: int, ds: int)
    requires OutsideMoves(s, t, v, asset, stable) && Moves(t.Pos(v), r.Pos(v), da, ds) && r.lps == t.lps
    ensures OutsideMoves(s, r, v, asset + da, stable + ds)
  {}

  lemma StillOutside(s: State, t: State, v: Address)
    requires SameOutside(s, t, v)
    ensures OutsideMoves(s, t, v, 0, 0)
  {}

  lemma UnmovedOutside(s: State, t: State, r: State, v: Address)
    requires SameOutside(s, t, v) && r.Pos(v) == t.Pos(v) && r.lps == t.lps
    ensures SameOutside(s, r, v)
  {}

  lemma StampedSettles(s: State, moved: State, user: Address, liquidator: Address, size: nat, cap: nat, w: Terms,
                       v: Address)
    requires Settled(s, moved, user, liquidator, size, cap, w, v)
    ensures Settled(s, StampRate(StampRate(moved, user), liquidator), user, liquidator, size, cap, w, v)
  {
    hide Filled, StampRate;
    var once := StampRate(moved, user);
    StampedAccounts(moved, user, v);
    StampedAccounts(once, liquidator, v);
  }
}
