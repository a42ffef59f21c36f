/** Splitting a trade: what a sequence of same-direction trades at one price inside one curve window returns in
    total. */
module Splitting {
  import opened Arith
  import opened EngineState
  import opened EngineSpec
  import opened EngineOps

  /** One trade of a sequence, with the call that carries it. */
  datatype Order = Order(env: Env, t: TradeArgs)

  /** Trades executed one after the other: the state reached, and what they returned in total. */
  function TradeAll(s: State, orders: seq<Order>): Result<(State, nat)>
  {
    if orders == [] then Ok((s, 0))
    else
      var last := |orders| - 1;
      var before :- TradeAll(s, orders[..last]);
      var r :- ExecuteTrade(orders[last].env, before.0, orders[last].t);
      Ok((r.0, before.1 + r.1))
  }

  function TotalSize(orders: seq<Order>): nat
  {
    if orders == [] then 0 else TotalSize(orders[..|orders| - 1]) + orders[|orders| - 1].t.size
  }

  predicate ZeroFees(cfg: Config) { cfg.tradingFee == 0 && cfg.flatTradingFee == 0 }

  /** The solver's answer depends on the input, the price and the anchors, and not on the guess it starts from. */
  ghost predicate GuessFree(c: Curve)
  {
    && (forall x, p, g, h, y0, x0 :: c.long(x, p, g, y0, x0) == c.long(x, p, h, y0, x0))
    && (forall x, p, g, h, y0, x0 :: c.short(x, p, g, y0, x0) == c.short(x, p, h, y0, x0))
  }

  /** Whether a window opened for this direction and price is still open at a call. */
  predicate StillOpen(env: Env, w: Window, direction: bool, price: nat)
  {
    env.now <= w.lastUpdate + env.cfg.curveUpdateInterval && w.lastDirection == direction && w.lastPrice == price
  }

  /** Every trade goes the same way at the same price through the same solver, and joins the window the first one
      opened. */
  ghost predicate OneWindow(s: State, orders: seq<Order>, direction: bool, price: nat, curve: Curve)
  {
    && |orders| > 0
    && (forall i :: 0 <= i < |orders| ==>
        orders[i].t.direction == direction && orders[i].t.price == price
        && orders[i].env.curve == curve)
    && var w := OpenWindow(orders[0].env, s, direction, price);
       forall i :: 1 <= i < |orders| ==> StillOpen(orders[i].env, w, direction, price)
  }

  /** What a trade leaves in the window and in the pool. */
  lemma TradeOutcome(env: Env, s: State, t: TradeArgs)
    requires ExecuteTrade(env, s, t).Ok?
    ensures TradeQuote(env, s, t).Ok?
    ensures var (r, out) := ExecuteTrade(env, s, t).value; var q := TradeQuote(env, s, t).value;
            && r.window == q.window && out == q.tradeReturn
            && (t.direction ==> LongPoolInput(env, t, q.fee).Ok? && out <= s.pool.asset
                                && r.pool == Pool(s.pool.stable + LongPoolInput(env, t, q.fee).value,
                                                  s.pool.asset - out))
            && (!t.direction ==> ShortPoolOutput(env, q).Ok? && ShortPoolOutput(env, q).value <= s.pool.stable
                                 && r.pool == Pool(s.pool.stable - ShortPoolOutput(env, q).value,
                                                   s.pool.asset + t.size))
  {
    hide OpenWindow, LongQuote, ShortQuote, UpdateFG, SettleTrader, MovePool, PoolDeepEnough, LongPoolInput,
         ShortPoolOutput;
    var w := OpenWindow(env, s, t.direction, t.price);
    var q := TradeQuote(env, s, t).value;
    var s1 := s.(window := q.window);
    TickKeeps(env, s1, t.price);
    var s2 := UpdateFG(env, s1, t.price).value;
    TraderKeeps(s2, t, q.tradeReturn);
    var s3 := SettleTrader(s2, t, q.tradeReturn).value;
    MoveOutcome(env, s3, t, q);
  }

  /** What every executed trade keeps to, whatever the solver answers: at least the user's minimum, never better than
      the oracle price, never the whole of the side it takes from, and a pool still worth at least one unit of stable on
      each side. */
  lemma TradeIsGuarded(env: Env, s: State, t: TradeArgs)
    requires ExecuteTrade(env, s, t).Ok?
    ensures var (r, out) := ExecuteTrade(env, s, t).value;
            && t.minReturn <= out
            && (t.direction ==> t.price > 0 && out * t.price <= t.size * ORACLE_DECIMALS && out < s.pool.asset)
            && (!t.direction ==> out * ORACLE_DECIMALS <= t.size * t.price && out < s.pool.stable)
            && r.pool.stable >= WAD && Md(r.pool.asset, t.price, ORACLE_DECIMALS) >= WAD
  {
    hide OpenWindow, LongCurve, ShortCurve, UpdateFG, SettleTrader, MovePool, Md, LongGuess, ShortGuess, TradeFee,
         FrontendPart;
    var out := ExecuteTrade(env, s, t).value.1;
    if t.direction {
      FloorTimes(t.size, ORACLE_DECIMALS, t.price, out);
    } else {
      FloorTimes(t.size, t.price, ORACLE_DECIMALS, out);
    }
  }

  lemma FloorTimes(a: nat, b: nat, c: nat, n: nat)
    requires c > 0 && n <= Md(a, b, c)
    ensures n * c <= a * b
  {
    DivMod(a * b, c);
    MulMonotone(c, n, Md(a, b, c));
  }

  lemma TickKeeps(env: Env, s: State, price: nat)
    requires UpdateFG(env, s, price).Ok?
    ensures var r := UpdateFG(env, s, price).value; r.window == s.window && r.pool == s.pool
  {
    hide FundingRate, AccrueAll, FundingB, SignedSum;
  }

  lemma TraderKeeps(s: State, t: TradeArgs, tradeReturn: nat)
    requires SettleTrader(s, t, tradeReturn).Ok?
    ensures var r := SettleTrader(s, t, tradeReturn).value; r.window == s.window && r.pool == s.pool
  {
    hide FundingFee, SignedSum, TradedPosition;
  }

  lemma MoveOutcome(env: Env, s: State, t: TradeArgs, q: Quote)
    requires MovePool(env, s, t, q).Ok?
    ensures var r := MovePool(env, s, t, q).value;
            && r.window == s.window
            && (t.direction ==> LongPoolInput(env, t, q.fee).Ok? && q.tradeReturn <= s.pool.asset
                                && r.pool == Pool(s.pool.stable + LongPoolInput(env, t, q.fee).value,
                                                  s.pool.asset - q.tradeReturn))
            && (!t.direction ==> ShortPoolOutput(env, q).Ok? && ShortPoolOutput(env, q).value <= s.pool.stable
                                 && r.pool == Pool(s.pool.stable - ShortPoolOutput(env, q).value,
                                                   s.pool.asset + t.size))
  {
    hide LongPoolInput, ShortPoolOutput, ApplyMatrixUpdate, MdR;
  }

  // ----- Anchors under fees -----

  /** What of a trade's fee stays in the pool for its LPs. */
  function LpFee(env: Env, direction: bool, fee: nat): int
  {
    if direction then fee - Md(fee, FEE_FRACTIONS - env.cfg.feeLp, FEE_FRACTIONS)
        else Md(fee, env.cfg.feeLp, FEE_FRACTIONS)
  }

  function StableAnchor(pool: Pool, w: Window, direction: bool): int
  {
    if direction then pool.stable - w.dy0 else pool.stable + w.dy0
  }

  function AssetAnchor(pool: Pool, w: Window, direction: bool): int
  {
    if direction then pool.asset + w.dx0 else pool.asset - w.dx0
  }

  /** A trade larger than its fee keeps the asset anchor of its window, and raises the stable anchor by exactly the LP
      fee. */
  lemma AnchorsUnderFees(env: Env, s: State, t: TradeArgs)
    requires ExecuteTrade(env, s, t).Ok?
    requires t.direction ==> t.size > TradeFee(env, t.size)
    ensures TradeQuote(env, s, t).Ok?
    ensures var r := ExecuteTrade(env, s, t).value.0; var w := OpenWindow(env, s, t.direction, t.price);
            && AssetAnchor(r.pool, r.window, t.direction) == AssetAnchor(s.pool, w, t.direction)
            && StableAnchor(r.pool, r.window, t.direction)
               == StableAnchor(s.pool, w, t.direction) + LpFee(env, t.direction, TradeQuote(env, s, t).value.fee)
  {
    hide ExecuteTrade, OpenWindow, LongQuote, ShortQuote, Md, TradeFee, LongPoolInput, ShortPoolOutput;
    TradeOutcome(env, s, t);
    var w := OpenWindow(env, s, t.direction, t.price);
    if t.direction {
      LongQuoteShape(env, s, t, w);
      LongInputs(env, t, TradeQuote(env, s, t).value.fee);
    } else {
      ShortQuoteShape(env, s, t, w);
      ShortOutputs(env, TradeQuote(env, s, t).value);
    }
  }

  lemma LongQuoteShape(env: Env, s: State, t: TradeArgs, w: Window)
    requires LongQuote(env, s, t, w).Ok? && t.size > TradeFee(env, t.size)
    ensures var q := LongQuote(env, s, t, w).value;
            && q.fee == TradeFee(env, t.size) && LongInput(env, t, q.fee).Ok?
               && MdR(t.size, ORACLE_DECIMALS, t.price).Ok?
            && q.window.dy0 == w.dy0 + LongInput(env, t, q.fee).value && q.window.dx0 == w.dx0 + q.tradeReturn
            && q.window.lastUpdate == w.lastUpdate && q.window.lastDirection == w.lastDirection
               && q.window.lastPrice == w.lastPrice
            && w.dy0 <= s.pool.stable
            && env.curve.long(LongInput(env, t, q.fee).value + w.dy0, t.price,
                              LongGuess(t, s.pool.asset, MdR(t.size, ORACLE_DECIMALS, t.price).value),
                              s.pool.stable - w.dy0, s.pool.asset + w.dx0) == Ok(w.dx0 + q.tradeReturn)
  {
    hide Md, TradeFee, LongInput, LongGuess, CalcEma, MdR;
  }

  lemma LongInputs(env: Env, t: TradeArgs, fee: nat)
    requires LongInput(env, t, fee).Ok? && LongPoolInput(env, t, fee).Ok?
    ensures LongPoolInput(env, t, fee).value - LongInput(env, t, fee).value == LpFee(env, true, fee)
  {
    hide Md;
  }

  lemma ShortQuoteShape(env: Env, s: State, t: TradeArgs, w: Window)
    requires ShortQuote(env, s, t, w).Ok?
    ensures var q := ShortQuote(env, s, t, w).value;
            && q.window.dy0 == w.dy0 + q.total && q.window.dx0 == w.dx0 + t.size
            && q.window.lastUpdate == w.lastUpdate && q.window.lastDirection == w.lastDirection
               && q.window.lastPrice == w.lastPrice
            && w.dx0 <= s.pool.asset && q.fee <= TradeFee(env, q.total)
            && q.tradeReturn == q.total - q.fee + (if t.frontend == ZERO_ADDRESS then FrontendPart(env, q.fee) else 0)
            && env.curve.short(t.size + w.dx0, t.price, ShortGuess(t, s.pool.stable,
                                                                   Md(t.size, t.price, ORACLE_DECIMALS)) + w.dy0,
                               s.pool.stable + w.dy0, s.pool.asset - w.dx0) == Ok(w.dy0 + q.total)
  {
    hide Md, TradeFee, FrontendPart, ShortGuess, CalcEma, MdR;
  }

  lemma ShortOutputs(env: Env, q: Quote)
    requires ShortPoolOutput(env, q).Ok?
    ensures q.total - ShortPoolOutput(env, q).value == LpFee(env, false, q.fee)
  {
    hide Md;
  }

  // ----- Trades without fees -----

  /** The curve's answer to a total input in a window, as the two directions ask for it. */
  function Answer(c: Curve, direction: bool, price: nat, input: nat, guess: nat, stable: nat, asset: nat): Result<nat>
  {
    if direction then c.long(input, price, guess, stable, asset) else c.short(input, price, guess, stable, asset)
  }

  /** What has entered a window and what has left it. */
  function Entered(w: Window, direction: bool): nat { if direction then w.dy0 else w.dx0 }
  function Left(w: Window, direction: bool): nat { if direction then w.dx0 else w.dy0 }

  predicate SameWindow(v: Window, w: Window)
  {
    v.lastUpdate == w.lastUpdate && v.lastDirection == w.lastDirection && v.lastPrice == w.lastPrice
  }

  lemma NoFee(env: Env, amount: nat)
    requires ZeroFees(env.cfg)
    ensures TradeFee(env, amount) == 0 && FrontendPart(env, 0) == 0
    ensures Md(0, FEE_FRACTIONS - env.cfg.feeLp, FEE_FRACTIONS) == 0 && Md(0, env.cfg.feeLp, FEE_FRACTIONS) == 0
  {}

  /** One trade without fees: the window moves by its size and return, the anchors stay, and the window's whole output
      is the curve's answer to the window's whole input. A zero long moves nothing. */
  lemma ZeroFeeTrade(env: Env, s: State, t: TradeArgs) returns (guess: nat)
    requires ExecuteTrade(env, s, t).Ok? && ZeroFees(env.cfg)
    ensures var (r, out) := ExecuteTrade(env, s, t).value; var w := OpenWindow(env, s, t.direction, t.price);
            && SameWindow(r.window, w)
            && Entered(r.window, t.direction) == Entered(w, t.direction) + t.size
            && Left(r.window, t.direction) == Left(w, t.direction) + out
            && StableAnchor(r.pool, r.window, t.direction) == StableAnchor(s.pool, w, t.direction)
            && AssetAnchor(r.pool, r.window, t.direction) == AssetAnchor(s.pool, w, t.direction)
            && (t.size == 0 ==> out == 0)
            && (t.size != 0 ==>
                  (&& StableAnchor(s.pool, w, t.direction) >= 0 && AssetAnchor(s.pool, w, t.direction) >= 0
                    && Answer(env.curve, t.direction, t.price, Entered(w, t.direction) + t.size, guess,
                              StableAnchor(s.pool, w, t.direction), AssetAnchor(s.pool, w, t.direction))
                                  == Ok(Left(w, t.direction) + out)))
  {
    hide ExecuteTrade, OpenWindow, LongQuote, ShortQuote, Md, TradeFee, FrontendPart;
    TradeOutcome(env, s, t);
    var w, q := OpenWindow(env, s, t.direction, t.price), TradeQuote(env, s, t).value;
    NoFee(env, t.size);
    if !t.direction {
      guess := ShortGuess(t, s.pool.stable, Md(t.size, t.price, ORACLE_DECIMALS)) + w.dy0;
      ShortQuoteShape(env, s, t, w);
      NoFee(env, q.total);
      ReturnWithinSpot(env, s, t, w);
    } else if t.size > 0 {
      LongQuoteShape(env, s, t, w);
      guess := LongGuess(t, s.pool.asset, MdR(t.size, ORACLE_DECIMALS, t.price).value);
    } else {
      EmptyLong(env, s, t, w);
      guess := 0;
    }
  }

  lemma ReturnWithinSpot(env: Env, s: State, t: TradeArgs, w: Window)
    requires ShortQuote(env, s, t, w).Ok?
    ensures ShortQuote(env, s, t, w).value.tradeReturn <= Md(t.size, t.price, ORACLE_DECIMALS)
    ensures Md(0, t.price, ORACLE_DECIMALS) == 0
  {
    hide Md, TradeFee, FrontendPart, ShortGuess, CalcEma, MdR;
    MdNothing(t.price);
  }

  lemma MdNothing(price: nat)
    ensures Md(0, price, ORACLE_DECIMALS) == 0
  {}

  lemma EmptyLong(env: Env, s: State, t: TradeArgs, w: Window)
    requires t.size == 0 && LongQuote(env, s, t, w).Ok?
    ensures LongQuote(env, s, t, w) == Ok(Quote(0, 0, 0, w))
  {
    hide Md, LongCurve, LongGuess, MdR, TradeFee;
  }

  /** Where a sequence of trades that took in `size` and returned `total` leaves the window it opened in. */
  ghost predicate Tracks(c: Curve, direction: bool, price: nat, pool: Pool, w: Window, r: State, size: nat, total: nat)
  {
    && SameWindow(r.window, w)
    && Entered(r.window, direction) == Entered(w, direction) + size
       && Left(r.window, direction) == Left(w, direction) + total
    && StableAnchor(r.pool, r.window, direction) == StableAnchor(pool, w, direction)
    && AssetAnchor(r.pool, r.window, direction) == AssetAnchor(pool, w, direction)
    && (if size == 0 then total == 0 else AnswersInFull(c, direction, price, pool, w, size, total))
  }

  /** `total` is what the curve gives, on the pool as the window opened it, for `size` on top of what the window had
      taken. */
  predicate AnswersInFull(c: Curve, direction: bool, price: nat, pool: Pool, w: Window, size: nat, total: nat)
  {
    && StableAnchor(pool, w, direction) >= 0 && AssetAnchor(pool, w, direction) >= 0
    && Answer(c, direction, price, Entered(w, direction) + size, 0, StableAnchor(pool, w, direction),
              AssetAnchor(pool, w, direction))
       == Ok(Left(w, direction) + total)
  }

  lemma AnswerIgnoresGuess(c: Curve, direction: bool, price: nat, input: nat, guess: nat, stable: nat, asset: nat)
    requires GuessFree(c)
    ensures Answer(c, direction, price, input, guess, stable, asset)
            == Answer(c, direction, price, input, 0, stable, asset)
  {}

  /** One more trade in the same window. */
  lemma TrackOne(s: State, o: Order, direction: bool, price: nat, pool: Pool, w: Window, size: nat, total: nat)
    requires GuessFree(o.env.curve) && ZeroFees(o.env.cfg) && ExecuteTrade(o.env, s, o.t).Ok?
    requires o.t.direction == direction && o.t.price == price && OpenWindow(o.env, s, direction, price) == s.window
    requires Tracks(o.env.curve, direction, price, pool, w, s, size, total)
    ensures var (r, out) := ExecuteTrade(o.env, s, o.t).value;
            Tracks(o.env.curve, direction, price, pool, w, r, size + o.t.size, total + out)
  {
    hide ExecuteTrade, OpenWindow, GuessFree, Answer;
    var guess := ZeroFeeTrade(o.env, s, o.t);
    if StableAnchor(pool, w, direction) >= 0 && AssetAnchor(pool, w, direction) >= 0 {
      AnswerIgnoresGuess(o.env.curve, direction, price, Entered(w, direction) + size + o.t.size, guess,
                         StableAnchor(pool, w, direction), AssetAnchor(pool, w, direction));
    }
  }

  lemma {:induction false} TrackAll(s: State, orders: seq<Order>, direction: bool, price: nat, curve: Curve)
    requires OneWindow(s, orders, direction, price, curve) && GuessFree(curve) && TradeAll(s, orders).Ok?
    requires forall i :: 0 <= i < |orders| ==> ZeroFees(orders[i].env.cfg)
    ensures var (r, total) := TradeAll(s, orders).value;
            Tracks(curve, direction, price, s.pool, OpenWindow(orders[0].env, s, direction, price), r,
                   TotalSize(orders), total)
  {
    hide ExecuteTrade, GuessFree, Answer, Tracks;
    var last := |orders| - 1;
    var w, o := OpenWindow(orders[0].env, s, direction, price), orders[last];
    if last == 0 {
      FirstTrade(s, o, w);
    } else {
      TrackAll(s, orders[..last], direction, price, curve);
      var before := TradeAll(s, orders[..last]).value;
      TrackedWindow(curve, direction, price, s.pool, w, before.0, TotalSize(orders[..last]), before.1);
      SameWindowStaysOpen(o.env, before.0, w, direction, price);
      TrackOne(before.0, o, direction, price, s.pool, w, TotalSize(orders[..last]), before.1);
    }
  }

  lemma TrackedWindow(c: Curve, direction: bool, price: nat, pool: Pool, w: Window, r: State, size: nat, total: nat)
    requires Tracks(c, direction, price, pool, w, r, size, total)
    ensures SameWindow(r.window, w)
  {}

  lemma FirstTrade(s: State, o: Order, w: Window)
    requires GuessFree(o.env.curve) && ZeroFees(o.env.cfg) && ExecuteTrade(o.env, s, o.t).Ok?
    requires w == OpenWindow(o.env, s, o.t.direction, o.t.price)
    ensures var (r, out) := ExecuteTrade(o.env, s, o.t).value;
            Tracks(o.env.curve, o.t.direction, o.t.price, s.pool, w, r, o.t.size, out)
  {
    hide ExecuteTrade, OpenWindow, GuessFree, Answer;
    var guess := ZeroFeeTrade(o.env, s, o.t);
    if StableAnchor(s.pool, w, o.t.direction) >= 0 && AssetAnchor(s.pool, w, o.t.direction) >= 0 {
      AnswerIgnoresGuess(o.env.curve, o.t.direction, o.t.price, Entered(w, o.t.direction) + o.t.size, guess,
                         StableAnchor(s.pool, w, o.t.direction), AssetAnchor(s.pool, w, o.t.direction));
    }
  }

  /** Splitting gains nothing and loses nothing. Without fees, any number of trades, by any users through any frontends
      with any guesses, that go the same way at one price inside one window return in total exactly what one trade of
      the summed size returns on the pool they started from; and they leave the same pool. */
  lemma SplittingGainsNothing(s: State, orders: seq<Order>, direction: bool, price: nat, curve: Curve, whole: Order)
    requires OneWindow(s, orders, direction, price, curve) && GuessFree(curve) && TradeAll(s, orders).Ok?
    requires forall i :: 0 <= i < |orders| ==> ZeroFees(orders[i].env.cfg)
    requires OneWindow(s, [whole], direction, price, curve) && ZeroFees(whole.env.cfg)
             && ExecuteTrade(whole.env, s, whole.t).Ok?
    requires whole.t.size == TotalSize(orders)
    requires OpenWindow(whole.env, s, direction, price) == OpenWindow(orders[0].env, s, direction, price)
    ensures ExecuteTrade(whole.env, s, whole.t).value.1 == TradeAll(s, orders).value.1
    ensures ExecuteTrade(whole.env, s, whole.t).value.0.pool == TradeAll(s, orders).value.0.pool
  {
    hide ExecuteTrade, OpenWindow, GuessFree, Answer;
    var w := OpenWindow(whole.env, s, direction, price);
    TrackAll(s, orders, direction, price, curve);
    assert [whole][0] == whole;
    FirstTrade(s, whole, w);
  }

  // ----- Runs of trades with fees -----

  /** The LP fees a sequence of trades leaves in the pool. */
  function LpFees(s: State, orders: seq<Order>): int
  {
    if orders == [] then 0
    else
      var last := |orders| - 1;
      var before := TradeAll(s, orders[..last]);
      LpFees(s, orders[..last]) + (if before.Ok? then FeeKept(orders[last], before.value.0) else 0)
  }

  function FeeKept(o: Order, s: State): int
  {
    var q := TradeQuote(o.env, s, o.t);
    if q.Ok? then LpFee(o.env, o.t.direction, q.value.fee) else 0
  }

  /** A window after trades that kept it open, with the anchors moved by `kept`. */
  predicate Anchored(direction: bool, pool: Pool, w: Window, r: State, kept: int)
  {
    && SameWindow(r.window, w)
    && AssetAnchor(r.pool, r.window, direction) == AssetAnchor(pool, w, direction)
    && StableAnchor(r.pool, r.window, direction) == StableAnchor(pool, w, direction) + kept
  }

  predicate LargerThanFee(o: Order) { o.t.direction ==> o.t.size > TradeFee(o.env, o.t.size) }

  lemma AnchorOne(s: State, o: Order, w: Window)
    requires ExecuteTrade(o.env, s, o.t).Ok? && LargerThanFee(o) && w == OpenWindow(o.env, s, o.t.direction, o.t.price)
    ensures Anchored(o.t.direction, s.pool, w, ExecuteTrade(o.env, s, o.t).value.0, FeeKept(o, s))
  {
    hide ExecuteTrade, OpenWindow, LongQuote, ShortQuote, Md, TradeFee, LongPoolInput, ShortPoolOutput, LpFee;
    AnchorsUnderFees(o.env, s, o.t);
    TradeOutcome(o.env, s, o.t);
    if o.t.direction {
      LongQuoteShape(o.env, s, o.t, w);
    } else {
      ShortQuoteShape(o.env, s, o.t, w);
    }
  }

  /** Over any number of trades in one window, each larger than its fee, the asset anchor is constant and the stable
      anchor grows by exactly the LP fees left in the pool. */
  lemma {:induction false} AnchorsOverRun(s: State, orders: seq<Order>, direction: bool, price: nat, curve: Curve)
    requires OneWindow(s, orders, direction, price, curve) && TradeAll(s, orders).Ok?
    requires forall i :: 0 <= i < |orders| ==> LargerThanFee(orders[i])
    ensures Anchored(direction, s.pool, OpenWindow(orders[0].env, s, direction, price), TradeAll(s, orders).value.0,
                     LpFees(s, orders))
  {
    hide ExecuteTrade, OpenWindow, FeeKept, LargerThanFee;
    var last := |orders| - 1;
    var w, o := OpenWindow(orders[0].env, s, direction, price), orders[last];
    if last == 0 {
      AnchorOne(s, o, w);
    } else {
      AnchorsOverRun(s, orders[..last], direction, price, curve);
      var before := TradeAll(s, orders[..last]).value.0;
      SameWindowStaysOpen(o.env, before, w, direction, price);
      AnchorOne(before, o, before.window);
    }
  }

  lemma SameWindowStaysOpen(env: Env, s: State, w: Window, direction: bool, price: nat)
    requires StillOpen(env, w, direction, price) && SameWindow(s.window, w)
    ensures OpenWindow(env, s, direction, price) == s.window
  {}
}
