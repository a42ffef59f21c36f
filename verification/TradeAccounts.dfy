/** Trades, closes and realised profit, account by account: what each party gains and pays, and the floor a close trades
    under. */
module TradeAccounts {
  import opened Arith
  import opened EngineState
  import opened EngineSpec
  import opened EngineOps
  import opened Ledger
  import opened Accounts

  /** `part` is whole * num / den, rounded down. */
  predicate IsPortion(part: nat, whole: nat, num: nat, den: nat) { part * den <= whole * num < part * den + den }

  lemma PortionIs(whole: nat, num: nat, den: nat)
    requires den > 0
    ensures IsPortion(Md(whole, num, den), whole, num, den)
  {
    DivMod(whole * num, den);
  }

  /** A position moves by these amounts, and its LP debts not at all. */
  predicate AccountMoves(s: State, t: State, u: Address, asset: int, stable: int)
  {
    && Moves(s.Pos(u), t.Pos(u), asset, stable) && t.Lp(u).debtAsset == s.Lp(u).debtAsset
    && t.Lp(u).debtStable == s.Lp(u).debtStable
  }

  lemma MovesChain(s: State, t: State, r: State, u: Address, asset: int, stable: int, asset': int, stable': int)
    requires AccountMoves(s, t, u, asset, stable) && AccountMoves(t, r, u, asset', stable')
    ensures AccountMoves(s, r, u, asset + asset', stable + stable')
  {
    hide State.Pos, State.Lp, AssetNet, StableNet;
  }

  lemma StillThenMoves(s: State, t: State, r: State, u: Address, asset: int, stable: int)
    requires SameOutside(s, t, u) && AccountMoves(t, r, u, asset, stable)
    ensures AccountMoves(s, r, u, asset, stable)
  {
    hide State.Pos, State.Lp, AssetNet, StableNet;
  }

  lemma MovesThenStill(s: State, t: State, r: State, u: Address, asset: int, stable: int)
    requires AccountMoves(s, t, u, asset, stable) && SameOutside(t, r, u)
    ensures AccountMoves(s, r, u, asset, stable)
  {
    hide State.Pos, State.Lp, AssetNet, StableNet;
  }

  /** Only positions written, and this one moved. */
  lemma PositionMoves(s: State, t: State, u: Address, asset: int, stable: int)
    requires t.lps == s.lps && Moves(s.Pos(u), t.Pos(u), asset, stable)
    ensures AccountMoves(s, t, u, asset, stable)
  {
    hide Moves;
  }

  // ----- Trades -----

  /** What a trade is charged on `base`, the stable paid in or the stable the curve pays out, and who is paid from
      that. */
  datatype Charge = Charge(base: nat, part: nat, fee: nat, protocol: nat, frontend: nat)

  /** A proportional and a flat fee, at most the whole; of it, the protocol's and the frontend's parts. */
  predicate IsCharge(cfg: Config, c: Charge)
  {
    && IsPortion(c.part, c.base, cfg.tradingFee, WAD)
    && c.fee == (if c.part + cfg.flatTradingFee <= c.base then c.part + cfg.flatTradingFee else c.base)
    && IsPortion(c.protocol, c.fee, FEE_FRACTIONS - cfg.feeLp - cfg.feeFrontend, FEE_FRACTIONS)
    && IsPortion(c.frontend, c.fee, cfg.feeFrontend, FEE_FRACTIONS)
  }

  /** The stable an account gains in a trade that returns `out`: the trade itself, the protocol's part less what fills
      the fund, and the frontend's part when one is named. */
  function StableGain(env: Env, s: State, t: TradeArgs, out: nat, c: Charge, v: Address): int
  {
    (if v != t.user then 0 else if t.direction then -(t.size as int) else out)
    + (if v == env.cfg.feeProtocolAddr then Overflow(s.insurance.Val(), c.protocol, env.cfg.insuranceFundCap) else 0)
    + (if v == t.frontend && t.frontend != ZERO_ADDRESS then c.frontend else 0)
  }

  function AssetGain(t: TradeArgs, out: nat, v: Address): int
  {
    if v != t.user then 0 else if t.direction then out else -(t.size as int)
  }

  lemma ChargeIs(env: Env, base: nat)
    ensures var fee := if TradeFee(env, base) <= base then TradeFee(env, base) else base;
            IsCharge(env.cfg, Charge(base, Md(base, env.cfg.tradingFee, WAD), fee,
                                     Md(fee, FEE_FRACTIONS - env.cfg.feeLp - env.cfg.feeFrontend, FEE_FRACTIONS),
                                     FrontendPart(env, fee)))
  {
    var fee := if TradeFee(env, base) <= base then TradeFee(env, base) else base;
    PortionIs(base, env.cfg.tradingFee, WAD);
    PortionIs(fee, FEE_FRACTIONS - env.cfg.feeLp - env.cfg.feeFrontend, FEE_FRACTIONS);
    PortionIs(fee, env.cfg.feeFrontend, FEE_FRACTIONS);
    hide Md, IsPortion;
  }

  lemma QuoteCharges(env: Env, s: State, t: TradeArgs)
    requires TradeQuote(env, s, t).Ok?
    ensures var q := TradeQuote(env, s, t).value;
            var base := if t.direction then t.size else q.total;
            && q.fee == (if TradeFee(env, base) <= base then TradeFee(env, base) else base)
            && (!t.direction ==>
                  q.tradeReturn == base - q.fee + if t.frontend == ZERO_ADDRESS then FrontendPart(env, q.fee) else 0)
  {
    hide Md, TradeFee, FrontendPart, ShortCurve, LongInput, LongGuess, ShortGuess, CalcEma, OpenWindow;
  }

  /** A trade, account by account: the trader gives what it puts in for exactly what the trade returns; the fee's
      protocol part fills the fund and then goes to the protocol, the frontend's part to the frontend; nobody else's
      account moves. */
  lemma TradeMovesAccounts(env: Env, s: State, t: TradeArgs, v: Address) returns (c: Charge)
    requires ExecuteTrade(env, s, t).Ok?
    ensures IsCharge(env.cfg, c)
    ensures var out := ExecuteTrade(env, s, t).value.1;
            if t.direction then c.base == t.size
            else out == c.base - c.fee + if t.frontend == ZERO_ADDRESS then c.frontend else 0
    ensures var (r, out) := ExecuteTrade(env, s, t).value;
            && AccountMoves(s, r, v, AssetGain(t, out, v), StableGain(env, s, t, out, c, v))
            && r.insurance.Val() == Filled(s.insurance.Val(), c.protocol, env.cfg.insuranceFundCap)
  {
    hide TradeQuote, UpdateFG, SettleTrader, MovePool, PayFees, PoolDeepEnough, TradeFee, Md, FrontendPart,
         AccountMoves, Filled, IsCharge, AssetGain, TradeGain, FeeGain, StableGain;
    QuoteCharges(env, s, t);
    var q := TradeQuote(env, s, t).value;
    var base := if t.direction then t.size else q.total;
    ChargeIs(env, base);
    c := Charge(base, Md(base, env.cfg.tradingFee, WAD), q.fee,
                Md(q.fee, FEE_FRACTIONS - env.cfg.feeLp - env.cfg.feeFrontend, FEE_FRACTIONS),
                    FrontendPart(env, q.fee));
    GainsAre(env, s.insurance.Val(), t, q, c, v);
    StagesMove(env, s, t, q, v);
  }

  lemma GainsAre(env: Env, fund: int, t: TradeArgs, q: Quote, c: Charge, v: Address)
    requires c.protocol == Md(q.fee, FEE_FRACTIONS - env.cfg.feeLp - env.cfg.feeFrontend, FEE_FRACTIONS)
    requires c.frontend == FrontendPart(env, q.fee)
    ensures forall s: State :: s.insurance.Val() == fund ==>
              StableGain(env, s, t, q.tradeReturn, c, v) == TradeGain(t, q.tradeReturn, v)
                  + FeeGain(env, fund, t, q.fee, v)
  {
    hide Md, FrontendPart, Overflow;
  }

  /** The four stages of a trade, one after the other. */
  lemma StagesMove(env: Env, s: State, t: TradeArgs, q: Quote, v: Address)
    requires ExecuteTrade(env, s, t).Ok? && TradeQuote(env, s, t) == Ok(q)
    ensures var (r, out) := ExecuteTrade(env, s, t).value;
            var protocol := Md(q.fee, FEE_FRACTIONS - env.cfg.feeLp - env.cfg.feeFrontend, FEE_FRACTIONS);
            && out == q.tradeReturn && r.insurance.Val() == Filled(s.insurance.Val(), protocol,
                                                                   env.cfg.insuranceFundCap)
            && AccountMoves(s, r, v, AssetGain(t, out, v), TradeGain(t, out, v)
                            + FeeGain(env, s.insurance.Val(), t, q.fee, v))
  {
    hide TradeQuote, UpdateFG, SettleTrader, MovePool, PayFees, PoolDeepEnough, Md, FrontendPart, AccountMoves,
         SameOutside,
         Filled, AssetGain, TradeGain, FeeGain, State.Pos, State.Lp;
    var s0 := s.(window := q.window);
    SameRecords(s, s0, v);
    TickOutside(env, s0, t.price, v);
    var s1 := UpdateFG(env, s0, t.price).value;
    SameOutsideChains(s, s0, s1, v, 0, 0);
    TraderMoves(s1, t, q.tradeReturn, v);
    var s2 := SettleTrader(s1, t, q.tradeReturn).value;
    PoolMoves(env, s2, t, q, v);
    var s3 := MovePool(env, s2, t, q).value;
    FeeMoves(env, s3, t, q.fee, v);
    var asset, stable := AssetGain(t, q.tradeReturn, v), TradeGain(t, q.tradeReturn, v);
    StillThenMoves(s, s1, s2, v, asset, stable);
    MovesThenStill(s, s2, s3, v, asset, stable);
    MovesChain(s, s3, PayFees(env, s3, t, q.fee), v, asset, stable, 0, FeeGain(env, s3.insurance.Val(), t, q.fee, v));
  }

  function TradeGain(t: TradeArgs, out: nat, v: Address): int
  {
    if v != t.user then 0 else if t.direction then -(t.size as int) else out
  }

  function FeeGain(env: Env, fund: int, t: TradeArgs, fee: nat, v: Address): int
  {
    var protocol := Md(fee, FEE_FRACTIONS - env.cfg.feeLp - env.cfg.feeFrontend, FEE_FRACTIONS);
    (if v == env.cfg.feeProtocolAddr then Overflow(fund, protocol, env.cfg.insuranceFundCap) else 0)
    + FrontendGain(env, t, fee, v)
  }

  function FrontendGain(env: Env, t: TradeArgs, fee: nat, v: Address): int
  {
    if v == t.frontend && t.frontend != ZERO_ADDRESS then FrontendPart(env, fee) else 0
  }

  lemma TraderMoves(s: State, t: TradeArgs, out: nat, v: Address)
    requires SettleTrader(s, t, out).Ok?
    ensures var r := SettleTrader(s, t, out).value;
            && AccountMoves(s, r, v, AssetGain(t, out, v), TradeGain(t, out, v)) && r.insurance == s.insurance
               && r.pool == s.pool
  {
    hide FundingFee, SignedSum, TradedPosition, CreditFunding, StampRate, SameOutside, Moves, RefreshFundingSnapshot,
         State.Pos, AccountMoves;
    var refreshed := RefreshFundingSnapshot(s, t.user);
    RefreshMoves(s, t.user, v);
    var fee := FundingFee(s, t.user).value;
    var credited := CreditFunding(refreshed, t.user, fee);
    CreditOutside(refreshed, t.user, fee, v);
    var stamped := StampRate(credited, t.user);
    StampOutside(credited, t.user, v);
    SameOutsideChains(s, refreshed, credited, v, 0, 0);
    SameOutsideChains(s, credited, stamped, v, 0, 0);
    StampedMoves(stamped, SignedSum(s.exposure, if t.direction then Signed(out, true) else Signed(t.size, false)), t,
                 out, v);
    StillThenMoves(s, stamped, SettleTrader(s, t, out).value, v, AssetGain(t, out, v), TradeGain(t, out, v));
  }

  lemma StampedMoves(s: State, exposure: Signed, t: TradeArgs, out: nat, v: Address)
    ensures var r := s.(exposure := exposure).SetPos(t.user, TradedPosition(s.Pos(t.user), t.direction, t.size, out));
            AccountMoves(s, r, v, AssetGain(t, out, v), TradeGain(t, out, v))
  {
    hide TradedPosition, AccountMoves, AssetNet, StableNet;
    var q := TradedPosition(s.Pos(t.user), t.direction, t.size, out);
    TradedNets(s.Pos(t.user), t.direction, t.size, out);
    WrittenMoves(s, s.(exposure := exposure).SetPos(t.user, q), t.user, AssetGain(t, out, t.user),
                 TradeGain(t, out, t.user), v);
  }

  /** One position written: its account moves, every other stays. */
  lemma WrittenMoves(s: State, t: State, user: Address, asset: int, stable: int, v: Address)
    requires t.lps == s.lps && t.positions == s.positions[user := t.Pos(user)]
    requires Moves(s.Pos(user), t.Pos(user), asset, stable)
    ensures if v == user then AccountMoves(s, t, v, asset, stable)
            else AccountMoves(s, t, v, 0, 0) && t.Pos(v) == s.Pos(v)
  {
    hide Moves;
    if v == user {
      PositionMoves(s, t, v, asset, stable);
    } else {
      assert t.Pos(v) == s.Pos(v);
      SamePosition(s.Pos(v));
      PositionMoves(s, t, v, 0, 0);
    }
  }

  lemma RefreshMoves(s: State, user: Address, v: Address)
    ensures SameOutside(s, RefreshFundingSnapshot(s, user), v)
            && RefreshFundingSnapshot(s, user).insurance == s.insurance
            && RefreshFundingSnapshot(s, user).pool == s.pool
  {}

  lemma PoolMoves(env: Env, s: State, t: TradeArgs, q: Quote, v: Address)
    requires MovePool(env, s, t, q).Ok?
    ensures var r := MovePool(env, s, t, q).value; SameOutside(s, r, v) && r.insurance == s.insurance
  {
    hide Md, MdR, LongPoolInput, ShortPoolOutput, ApplyMatrixUpdate;
    SameRecords(s, MovePool(env, s, t, q).value, v);
  }

  lemma FeeMoves(env: Env, s: State, t: TradeArgs, fee: nat, v: Address)
    ensures var r := PayFees(env, s, t, fee);
            var protocol := Md(fee, FEE_FRACTIONS - env.cfg.feeLp - env.cfg.feeFrontend, FEE_FRACTIONS);
            && AccountMoves(s, r, v, 0, FeeGain(env, s.insurance.Val(), t, fee, v))
            && r.insurance.Val() == Filled(s.insurance.Val(), protocol, env.cfg.insuranceFundCap)
  {
    hide Md, AssignProtocolFee, Filled, Overflow, CreditStable, FrontendPart, Moves, SameFee, AccountMoves, State.Pos;
    var protocol := Md(fee, FEE_FRACTIONS - env.cfg.feeLp - env.cfg.feeFrontend, FEE_FRACTIONS);
    var cap := env.cfg.insuranceFundCap;
    ProtocolFeeAccounts(s, cap, protocol, env.cfg.feeProtocolAddr, v);
    var paid := AssignProtocolFee(s, cap, protocol, env.cfg.feeProtocolAddr);
    CreditAccount(paid, t.frontend, FrontendPart(env, fee), v);
    var r := PayFees(env, s, t, fee);
    SamePosition(s.Pos(v));
    SamePosition(paid.Pos(v));
    var first := if v == env.cfg.feeProtocolAddr then Overflow(s.insurance.Val(), protocol, cap) else 0;
    var second := FrontendGain(env, t, fee, v);
    assert Moves(s.Pos(v), paid.Pos(v), 0, first);
    assert Moves(paid.Pos(v), r.Pos(v), 0, second);
    NetsChain(s.Pos(v), paid.Pos(v), r.Pos(v), first, second);
    PositionMoves(s, r, v, 0, first + second);
  }

  lemma NetsChain(p: Position, q: Position, r: Position, first: int, second: int)
    requires Moves(p, q, 0, first) && Moves(q, r, 0, second)
    ensures Moves(p, r, 0, first + second)
  {}
}
