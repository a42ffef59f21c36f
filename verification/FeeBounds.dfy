/** Liquidity fees never exceed their ceiling, and the gross-up of a buy-back puts into the curve what it asked for. */
module FeeBounds {
  import opened Arith
  import opened EngineState
  import opened EngineOps

  // ----- Liquidity fees -----

  lemma AtMostWhole(a: nat, b: nat, c: nat)
    requires c > 0 && a <= c
    ensures Md(a, b, c) <= b && Md(b, a, c) <= b
  {
    MulMonotone(b, a, c);
    DivMonotone(a * b, c * b, c);
    DivMonotone(b * a, b * c, c);
    DivCancel(b, c);
  }

  lemma MdGrowsLeft(x: nat, y: nat, b: nat, c: nat)
    requires c > 0 && x <= y
    ensures Md(x, b, c) <= Md(y, b, c)
  {
    MulMonotone(b, x, y);
    DivMonotone(x * b, y * b, c);
  }

  lemma FeeCurveWithinMax(p: nat, pPrime: nat, pSecond: nat, numFirst: nat, k: nat, maxFee: nat)
    requires numFirst <= k
    ensures var r := FeeCurve(p, pPrime, pSecond, numFirst, k, maxFee); r.Ok? ==> r.value <= maxFee
  {
    hide Md;
    var r := FeeCurve(p, pPrime, pSecond, numFirst, k, maxFee);
    if r.Ok? {
      var d1 := MdR(DiffAbs(pPrime, p), DiffAbs(pPrime, p), p).value;
      var d2 := MdR(DiffAbs(pSecond, p), DiffAbs(pSecond, p), p).value;
      var rel1, rel2 := MdR(d1, WAD, p).value, MdR(d2, WAD, p).value;
      var tail := Md(rel2, LIQUIDITY_FEE_DECIMALS, WAD);
      MdGrowsLeft(numFirst, k, WAD + rel1, WAD);
      AtMostWhole(Md(numFirst, WAD + rel1, WAD) + tail, maxFee, Md(k, WAD + rel1, WAD) + tail);
    }
  }

  /** Neither liquidity fee ever exceeds the configured ceiling, whatever the pool, the price and the amounts. */
  lemma LiquidityFeesWithinMax(cfg: Config, stable: nat, asset: nat, pool: Pool, price: nat)
    requires cfg.liquidityMinFee <= cfg.liquidityMaxFee
    ensures var d := DepositFee(cfg, stable, asset, pool, price); d.Ok? ==> d.value <= cfg.liquidityMaxFee
    ensures var w := RemovalFee(cfg, stable, asset, pool, price); w.Ok? ==> w.value <= cfg.liquidityMaxFee
  {
    hide Md, MdR, FeeCurve;
    if cfg.liquidityMaxFee > 0 {
      AtMostWhole(cfg.liquidityMinFee, cfg.liquidityFeeK, cfg.liquidityMaxFee);
      AtMostWhole(cfg.liquidityMinFee, LIQUIDITY_FEE_DECIMALS, cfg.liquidityMaxFee);
      var minOverMax := Md(cfg.liquidityMinFee, LIQUIDITY_FEE_DECIMALS, cfg.liquidityMaxFee);
      AtMostWhole(minOverMax, cfg.liquidityFeeK, LIQUIDITY_FEE_DECIMALS);
      DepositWithinMax(cfg, stable, asset, pool, price);
      RemovalWithinMax(cfg, stable, asset, pool, price);
    }
  }

  lemma DepositWithinMax(cfg: Config, stable: nat, asset: nat, pool: Pool, price: nat)
    requires 0 < cfg.liquidityMaxFee && cfg.liquidityMinFee <= cfg.liquidityMaxFee
    requires Md(cfg.liquidityMinFee, cfg.liquidityFeeK, cfg.liquidityMaxFee) <= cfg.liquidityFeeK
    ensures var d := DepositFee(cfg, stable, asset, pool, price); d.Ok? ==> d.value <= cfg.liquidityMaxFee
  {
    hide Md, MdR, FeeCurve;
    forall p, pPrime, pSecond, k, m | k == cfg.liquidityFeeK && m == cfg.liquidityMaxFee
      ensures var r := FeeCurve(p, pPrime, pSecond, Md(cfg.liquidityMinFee, k, m), k, m); r.Ok? ==> r.value <= m
    {
      FeeCurveWithinMax(p, pPrime, pSecond, Md(cfg.liquidityMinFee, k, m), k, m);
    }
  }

  lemma RemovalWithinMax(cfg: Config, stable: nat, asset: nat, pool: Pool, price: nat)
    requires 0 < cfg.liquidityMaxFee && cfg.liquidityMinFee <= cfg.liquidityMaxFee
    requires Md(Md(cfg.liquidityMinFee, LIQUIDITY_FEE_DECIMALS, cfg.liquidityMaxFee), cfg.liquidityFeeK,
                LIQUIDITY_FEE_DECIMALS) <= cfg.liquidityFeeK
    ensures var w := RemovalFee(cfg, stable, asset, pool, price); w.Ok? ==> w.value <= cfg.liquidityMaxFee
  {
    hide Md, MdR, FeeCurve;
    var first := Md(Md(cfg.liquidityMinFee, LIQUIDITY_FEE_DECIMALS, cfg.liquidityMaxFee), cfg.liquidityFeeK,
                    LIQUIDITY_FEE_DECIMALS);
    forall p, pPrime, pSecond
      ensures var r := FeeCurve(p, pPrime, pSecond, first, cfg.liquidityFeeK, cfg.liquidityMaxFee);
              r.Ok?
              ==> r.value <= cfg.liquidityMaxFee
    {
      FeeCurveWithinMax(p, pPrime, pSecond, first, cfg.liquidityFeeK, cfg.liquidityMaxFee);
    }
  }

  // ----- Fees from below, and their order -----

  /** Which side of a two-sided pool outweighs the other at the price. */
  predicate StableHeavy(pool: Pool, price: nat)
    requires pool.asset > 0
  {
    Md(pool.stable, WAD, pool.asset) > Md(price, WAD, ORACLE_DECIMALS)
  }

  /** The heavier side per unit of the lighter one: at the price, and in a pool. */
  function Parity(price: nat, heavy: bool): nat
  {
    if heavy then Md(price, WAD, ORACLE_DECIMALS) else if price > 0 then Md(WAD, ORACLE_DECIMALS, price) else 0
  }

  function Lighter(pool: Pool, heavy: bool): nat { if heavy then pool.asset else pool.stable }

  function Skew(pool: Pool, heavy: bool): nat
    requires Lighter(pool, heavy) > 0
  {
    if heavy then Md(pool.stable, WAD, pool.asset) else Md(pool.asset, WAD, pool.stable)
  }

  function Grown(pool: Pool, stable: nat, asset: nat): Pool { Pool(pool.stable + stable, pool.asset + asset) }

  /** A deposit that brings a pool closer to parity without passing it. */
  predicate Rebalances(pool: Pool, after: Pool, price: nat)
    requires pool.stable > 0 && pool.asset > 0 && Lighter(after, StableHeavy(pool, price)) > 0
  {
    var heavy := StableHeavy(pool, price);
    Parity(price, heavy) < Skew(after, heavy) < Skew(pool, heavy)
  }

  /** The fee is the least one but for truncation: a unit, and two or three truncated quotients of the fee's own
      constants. */
  predicate AtLeast(fee: nat, cfg: Config)
  {
    (fee + 1) * cfg.liquidityFeeK + 2 * cfg.liquidityMaxFee >= cfg.liquidityMinFee * cfg.liquidityFeeK
  }

  predicate NearlyAtLeast(fee: nat, cfg: Config)
  {
    (fee + 1) * cfg.liquidityFeeK * LIQUIDITY_FEE_DECIMALS + cfg.liquidityMaxFee * cfg.liquidityFeeK
    + 2 * LIQUIDITY_FEE_DECIMALS * cfg.liquidityMaxFee
    >= LIQUIDITY_FEE_DECIMALS * cfg.liquidityMinFee * cfg.liquidityFeeK
  }

  /** Two floored multiples of the same factor, of at least one: their ratio is not below that of the multiplicands less
      one. */
  lemma FlooredRatio(n: nat, k: nat, rel: nat, t: nat)
    requires n <= k
    ensures (Md(n, WAD + rel, WAD) + t) * k >= (Md(k, WAD + rel, WAD) + t) * (n - 1)
  {
    var N, K := Md(n, WAD + rel, WAD), Md(k, WAD + rel, WAD);
    DivMod(n * (WAD + rel), WAD);
    DivMod(k * (WAD + rel), WAD);
    hide Md;
    assert N * k >= K * (n - 1) by { FlooredMultiples(n, k, rel, N, K); }
    MulMonotone(t, n - 1, k);
    assert (N + t) * k == N * k + t * k && (K + t) * (n - 1) == K * (n - 1) + t * (n - 1);
  }

  lemma FlooredMultiples(n: nat, k: nat, rel: nat, N: nat, K: nat)
    requires WAD * N + WAD > n * (WAD + rel) && WAD * K <= k * (WAD + rel)
    ensures N * k >= K * (n - 1)
  {
    var f := WAD + rel;
    if n > 0 {
      MulMonotone(k, n * f - WAD, WAD * N);
      MulMonotone(n - 1, WAD * K, k * f);
      assert (n - 1) * (k * f) == k * (n * f) - k * f;
      assert k * (n * f - WAD) == k * (n * f) - k * WAD;
      MulMonotone(k, WAD, f);
      Regrouped(n - 1, WAD, K);
      Regrouped(k, WAD, N);
      Unscaled(K * (n - 1), N * k);
    } else {
      MulMonotone(k, 0, N);
      MulMonotone(K, -1, 0);
    }
  }

  lemma Regrouped(x: int, y: int, z: int)
    ensures x * (y * z) == y * (z * x)
  {}

  lemma Unscaled(x: int, y: int)
    requires WAD * x <= WAD * y
    ensures x <= y
  {}

  /** A floored fraction of the ceiling, from below. */
  lemma FeeCurveFloor(p: nat, pPrime: nat, pSecond: nat, n: nat, k: nat, maxFee: nat)
    requires n <= k && FeeCurve(p, pPrime, pSecond, n, k, maxFee).Ok?
    ensures (FeeCurve(p, pPrime, pSecond, n, k, maxFee).value + 1) * k >= (n - 1) * maxFee
  {
    hide Md;
    var d1 := MdR(DiffAbs(pPrime, p), DiffAbs(pPrime, p), p).value;
    var d2 := MdR(DiffAbs(pSecond, p), DiffAbs(pSecond, p), p).value;
    var rel1, rel2 := MdR(d1, WAD, p).value, MdR(d2, WAD, p).value;
    var tail := Md(rel2, LIQUIDITY_FEE_DECIMALS, WAD);
    FlooredRatio(n, k, rel1, tail);
    FractionFloor(Md(n, WAD + rel1, WAD) + tail, Md(k, WAD + rel1, WAD) + tail, maxFee, n, k);
  }

  lemma FractionFloor(a: nat, b: nat, maxFee: nat, n: nat, k: nat)
    requires b > 0 && a * k >= b * (n - 1)
    ensures (Md(a, maxFee, b) + 1) * k >= (n - 1) * maxFee
  {
    var q := Md(a, maxFee, b);
    DivMod(a * maxFee, b);
    hide Md;
    assert b * (q + 1) == b * q + b;
    MulMonotone(k, a * maxFee, b * (q + 1));
    MulMonotone(maxFee, b * (n - 1), a * k);
    Regrouped(k, b, q + 1);
    Regrouped(maxFee, b, n - 1);
    assert maxFee * (a * k) == k * (a * maxFee);
    OneFactor(b, (n - 1) * maxFee, (q + 1) * k);
  }

  lemma OneFactor(b: nat, x: int, y: int)
    requires b > 0 && b * x <= b * y
    ensures x <= y
  {
    if x > y {
      MulMonotone(b, 1, x - y);
    }
  }

  /** Further from parity, dearer. */
  lemma FeeCurveGrows(p: nat, pPrime: nat, near: nat, far: nat, n: nat, k: nat, maxFee: nat)
    requires n <= k && DiffAbs(near, p) <= DiffAbs(far, p)
    requires FeeCurve(p, pPrime, near, n, k, maxFee).Ok? && FeeCurve(p, pPrime, far, n, k, maxFee).Ok?
    ensures FeeCurve(p, pPrime, near, n, k, maxFee).value <= FeeCurve(p, pPrime, far, n, k, maxFee).value
  {
    hide Md;
    var d1 := MdR(DiffAbs(pPrime, p), DiffAbs(pPrime, p), p).value;
    var rel1 := MdR(d1, WAD, p).value;
    var d, e := DiffAbs(near, p), DiffAbs(far, p);
    MdGrows(d, e, d, e, p);
    MdGrows(Md(d, d, p), Md(e, e, p), WAD, WAD, p);
    MdGrows(Md(Md(d, d, p), WAD, p), Md(Md(e, e, p), WAD, p), LIQUIDITY_FEE_DECIMALS, LIQUIDITY_FEE_DECIMALS, WAD);
    var t, t' := Md(Md(Md(d, d, p), WAD, p), LIQUIDITY_FEE_DECIMALS, WAD),
        Md(Md(Md(e, e, p), WAD, p), LIQUIDITY_FEE_DECIMALS, WAD);
    MdGrowsLeft(n, k, WAD + rel1, WAD);
    FractionGrows(Md(n, WAD + rel1, WAD), Md(k, WAD + rel1, WAD), t, t', maxFee);
  }

  lemma MdGrows(x: nat, y: nat, b: nat, b': nat, c: nat)
    requires c > 0 && x <= y && b <= b'
    ensures Md(x, b, c) <= Md(y, b', c)
  {
    MulMonotone(b, x, y);
    MulMonotone(y, b, b');
    DivMonotone(x * b, y * b', c);
  }

  /** The same added to both parts of a fraction of at most one brings it closer to one. */
  lemma FractionGrows(N: nat, K: nat, t: nat, t': nat, maxFee: nat)
    requires N <= K && t <= t' && K + t > 0
    ensures Md(N + t, maxFee, K + t) <= Md(N + t', maxFee, K + t')
  {
    MulMonotone(t' - t, N, K);
    assert (N + t') * (K + t) - (N + t) * (K + t') == (t' - t) * K - (t' - t) * N;
    QuotientsInOrder(N + t, K + t, N + t', K + t', maxFee);
  }

  /** Fractions in order, floored multiples in order. */
  lemma QuotientsInOrder(a: nat, b: nat, c: nat, d: nat, m: nat)
    requires b > 0 && d > 0 && a * d <= c * b
    ensures Md(a, m, b) <= Md(c, m, d)
  {
    var q, r := Md(a, m, b), Md(c, m, d);
    DivMod(a * m, b);
    DivMod(c * m, d);
    hide Md;
    MulMonotone(d, b * q, a * m);
    MulMonotone(m, a * d, c * b);
    Regrouped(d, b, q);
    Regrouped(m, a, d);
    assert d * (a * m) == a * (d * m) && m * (c * b) == b * (c * m);
    assert b * (q * d) <= b * (c * m);
    OneFactor(b, q * d, c * m);
    assert d * (r + 1) == d * r + d;
    if r < q { MulMonotone(d, r + 1, q); }
  }

  // ----- The deposit and the withdrawal fee -----

  lemma DepositFeeParts(cfg: Config, stable: nat, asset: nat, pool: Pool, price: nat)
    requires DepositFee(cfg, stable, asset, pool, price).Ok? && pool.stable > 0 && pool.asset > 0
             && cfg.liquidityMaxFee > 0
    ensures var heavy, after := StableHeavy(pool, price), Grown(pool, stable, asset);
            DepositFee(cfg, stable, asset, pool, price)
            == if Rebalances(pool, after, price) then Ok(cfg.liquidityMinFee)
               else FeeCurve(Parity(price, heavy), Skew(pool, heavy), Skew(after, heavy),
                             Md(cfg.liquidityMinFee, cfg.liquidityFeeK, cfg.liquidityMaxFee), cfg.liquidityFeeK,
                             cfg.liquidityMaxFee)
  {
    hide FeeCurve, Md;
  }

  /** A deposit into a two-sided pool pays at least the least fee, and one that does not rebalance pays no less than
      another that leaves the pool closer to parity. */
  lemma DepositFeeFloorAndOrder(cfg: Config, stable: nat, asset: nat, stable': nat, asset': nat, pool: Pool, price: nat)
    requires cfg.liquidityMinFee <= cfg.liquidityMaxFee && cfg.liquidityMaxFee > 0 && pool.stable > 0 && pool.asset > 0
    requires DepositFee(cfg, stable, asset, pool, price).Ok?
    ensures AtLeast(DepositFee(cfg, stable, asset, pool, price).value, cfg)
    ensures DepositFee(cfg, stable', asset', pool, price).Ok?
            && !Rebalances(pool, Grown(pool, stable, asset), price)
               && !Rebalances(pool, Grown(pool, stable', asset'), price)
            && (var heavy := StableHeavy(pool, price);
                DiffAbs(Skew(Grown(pool, stable', asset'), heavy), Parity(price, heavy))
                <= DiffAbs(Skew(Grown(pool, stable, asset), heavy), Parity(price, heavy)))
            ==> DepositFee(cfg, stable', asset', pool, price).value <= DepositFee(cfg, stable, asset, pool, price).value
  {
    hide Md, FeeCurve, DepositFee, Rebalances, Skew, Parity, AtLeast;
    var k, maxFee := cfg.liquidityFeeK, cfg.liquidityMaxFee;
    var n := Md(cfg.liquidityMinFee, k, maxFee);
    AtMostWhole(cfg.liquidityMinFee, k, maxFee);
    DepositFeeParts(cfg, stable, asset, pool, price);
    var heavy := StableHeavy(pool, price);
    var p, pPrime, after := Parity(price, heavy), Skew(pool, heavy), Grown(pool, stable, asset);
    if Rebalances(pool, after, price) {
      LeastItself(cfg);
    } else {
      FeeCurveFloor(p, pPrime, Skew(after, heavy), n, k, maxFee);
      DepositLeast(FeeCurve(p, pPrime, Skew(after, heavy), n, k, maxFee).value, n, cfg);
      var after' := Grown(pool, stable', asset');
      if DepositFee(cfg, stable', asset', pool, price).Ok? {
        DepositFeeParts(cfg, stable', asset', pool, price);
        if !Rebalances(pool, after', price) && DiffAbs(Skew(after', heavy), p) <= DiffAbs(Skew(after, heavy), p) {
          FeeCurveGrows(p, pPrime, Skew(after', heavy), Skew(after, heavy), n, k, maxFee);
        }
      }
    }
  }

  lemma LeastItself(cfg: Config)
    ensures AtLeast(cfg.liquidityMinFee, cfg)
  {
    MulMonotone(cfg.liquidityFeeK, cfg.liquidityMinFee, cfg.liquidityMinFee + 1);
  }

  lemma DepositLeast(fee: nat, n: nat, cfg: Config)
    requires cfg.liquidityMaxFee > 0 && n == Md(cfg.liquidityMinFee, cfg.liquidityFeeK, cfg.liquidityMaxFee)
    requires (fee + 1) * cfg.liquidityFeeK >= (n - 1) * cfg.liquidityMaxFee
    ensures AtLeast(fee, cfg)
  {
    DivMod(cfg.liquidityMinFee * cfg.liquidityFeeK, cfg.liquidityMaxFee);
    assert (n - 1) * cfg.liquidityMaxFee == cfg.liquidityMaxFee * n - cfg.liquidityMaxFee;
  }

  /** What a withdrawal leaves of a pool. */
  function Shrunk(pool: Pool, stable: nat, asset: nat): Pool
    requires stable <= pool.stable && asset <= pool.asset
  {
    Pool(pool.stable - stable, pool.asset - asset)
  }

  /** A withdrawal that pays no fee: almost nothing is left on both sides, or the lighter stable side is emptied. */
  predicate Waived(pool: Pool, left: Pool, price: nat)
    requires pool.asset > 0
  {
    || (price > 0 && left.stable < 10 * WAD && left.asset < Md(10 * WAD, ORACLE_DECIMALS, price))
    || (!StableHeavy(pool, price) && left.stable == 0)
  }

  /** A withdrawal from a two-sided pool is free when waived and otherwise pays at least the least fee; and one that
      does not rebalance pays no less than another that leaves the pool closer to parity. */
  lemma RemovalFeeFloorAndOrder(cfg: Config, stable: nat, asset: nat, stable': nat, asset': nat, pool: Pool, price: nat)
    requires cfg.liquidityMinFee <= cfg.liquidityMaxFee && cfg.liquidityMaxFee > 0 && pool.stable > 0 && pool.asset > 0
    requires RemovalFee(cfg, stable, asset, pool, price).Ok? && RemovalFee(cfg, stable', asset', pool, price).Ok?
    ensures stable <= pool.stable && asset <= pool.asset && stable' <= pool.stable && asset' <= pool.asset
    ensures var fee, left := RemovalFee(cfg, stable, asset, pool, price).value, Shrunk(pool, stable, asset);
            var fee', left' := RemovalFee(cfg, stable', asset', pool, price).value, Shrunk(pool, stable', asset');
            var heavy := StableHeavy(pool, price);
            && (if Waived(pool, left, price) then fee == 0 else NearlyAtLeast(fee, cfg))
            && (!Waived(pool, left, price) && Lighter(left, heavy) > 0 && Lighter(left', heavy) > 0
                && !Rebalances(pool, left, price) && !Rebalances(pool, left', price)
                && DiffAbs(Skew(left', heavy), Parity(price, heavy)) <= DiffAbs(Skew(left, heavy), Parity(price, heavy))
                ==> fee' <= fee)
  {
    hide Md, FeeCurve, RemovalFee, Rebalances, Skew, Parity, NearlyAtLeast, StableHeavy, Waived;
    var k, maxFee := cfg.liquidityFeeK, cfg.liquidityMaxFee;
    var minOverMax := Md(cfg.liquidityMinFee, LIQUIDITY_FEE_DECIMALS, maxFee);
    var n := Md(minOverMax, k, LIQUIDITY_FEE_DECIMALS);
    AtMostWhole(cfg.liquidityMinFee, LIQUIDITY_FEE_DECIMALS, maxFee);
    AtMostWhole(minOverMax, k, LIQUIDITY_FEE_DECIMALS);
    RemovalFeeParts(cfg, stable, asset, pool, price);
    RemovalFeeParts(cfg, stable', asset', pool, price);
    var heavy, left, left' := StableHeavy(pool, price), Shrunk(pool, stable, asset), Shrunk(pool, stable', asset');
    var fee := RemovalFee(cfg, stable, asset, pool, price).value;
    var p, pPrime := Parity(price, heavy), Skew(pool, heavy);
    if !Waived(pool, left, price) {
      if Lighter(left, heavy) == 0 {
        MaxIsNearlyLeast(cfg);
      } else if Rebalances(pool, left, price) {
        MinIsNearlyLeast(cfg);
      } else {
        FeeCurveFloor(p, pPrime, Skew(left, heavy), n, k, maxFee);
        RemovalLeast(fee, minOverMax, n, cfg);
        if Lighter(left', heavy) > 0 && !Waived(pool, left', price) && !Rebalances(pool, left', price)
           && DiffAbs(Skew(left', heavy), p) <= DiffAbs(Skew(left, heavy), p) {
          FeeCurveGrows(p, pPrime, Skew(left', heavy), Skew(left, heavy), n, k, maxFee);
        }
      }
    }
  }

  lemma RemovalFeeParts(cfg: Config, stable: nat, asset: nat, pool: Pool, price: nat)
    requires cfg.liquidityMaxFee > 0 && pool.stable > 0 && pool.asset > 0
             && RemovalFee(cfg, stable, asset, pool, price).Ok?
    ensures stable <= pool.stable && asset <= pool.asset
    ensures var heavy, left, fee := StableHeavy(pool, price), Shrunk(pool, stable, asset),
                                    RemovalFee(cfg, stable, asset, pool, price);
            if Waived(pool, left, price) then fee == Ok(0)
            else if Lighter(left, heavy) == 0 then fee == Ok(cfg.liquidityMaxFee)
            else if Rebalances(pool, left, price) then fee == Ok(cfg.liquidityMinFee)
            else
              fee == FeeCurve(Parity(price, heavy), Skew(pool, heavy), Skew(left, heavy),
                              Md(Md(cfg.liquidityMinFee, LIQUIDITY_FEE_DECIMALS, cfg.liquidityMaxFee),
                                 cfg.liquidityFeeK,
                                 LIQUIDITY_FEE_DECIMALS), cfg.liquidityFeeK, cfg.liquidityMaxFee)
  {
    hide Md, FeeCurve;
  }

  lemma MinIsNearlyLeast(cfg: Config)
    ensures NearlyAtLeast(cfg.liquidityMinFee, cfg)
  {
    var k := cfg.liquidityFeeK;
    MulMonotone(k, cfg.liquidityMinFee, cfg.liquidityMinFee + 1);
    assert LIQUIDITY_FEE_DECIMALS * cfg.liquidityMinFee * k == LIQUIDITY_FEE_DECIMALS * (k * cfg.liquidityMinFee);
    assert (cfg.liquidityMinFee + 1) * k * LIQUIDITY_FEE_DECIMALS
           == LIQUIDITY_FEE_DECIMALS * (k * (cfg.liquidityMinFee + 1));
    MulMonotone(k, 0, cfg.liquidityMaxFee);
  }

  lemma MaxIsNearlyLeast(cfg: Config)
    requires cfg.liquidityMinFee <= cfg.liquidityMaxFee
    ensures NearlyAtLeast(cfg.liquidityMaxFee, cfg)
  {
    var k := cfg.liquidityFeeK;
    MulMonotone(k, cfg.liquidityMinFee, cfg.liquidityMaxFee + 1);
    assert LIQUIDITY_FEE_DECIMALS * cfg.liquidityMinFee * k == LIQUIDITY_FEE_DECIMALS * (k * cfg.liquidityMinFee);
    assert (cfg.liquidityMaxFee + 1) * k * LIQUIDITY_FEE_DECIMALS
           == LIQUIDITY_FEE_DECIMALS * (k * (cfg.liquidityMaxFee + 1));
    MulMonotone(k, 0, cfg.liquidityMaxFee);
  }

  lemma RemovalLeast(fee: nat, minOverMax: nat, n: nat, cfg: Config)
    requires cfg.liquidityMaxFee > 0
    requires minOverMax == Md(cfg.liquidityMinFee, LIQUIDITY_FEE_DECIMALS, cfg.liquidityMaxFee)
    requires n == Md(minOverMax, cfg.liquidityFeeK, LIQUIDITY_FEE_DECIMALS)
    requires (fee + 1) * cfg.liquidityFeeK >= (n - 1) * cfg.liquidityMaxFee
    ensures NearlyAtLeast(fee, cfg)
  {
    var k, maxFee := cfg.liquidityFeeK, cfg.liquidityMaxFee;
    DivMod(cfg.liquidityMinFee * LIQUIDITY_FEE_DECIMALS, maxFee);
    DivMod(minOverMax * k, LIQUIDITY_FEE_DECIMALS);
    hide Md;
    MulMonotone(k, cfg.liquidityMinFee * LIQUIDITY_FEE_DECIMALS, maxFee * minOverMax + maxFee);
    MulMonotone(maxFee, minOverMax * k, LIQUIDITY_FEE_DECIMALS * n + LIQUIDITY_FEE_DECIMALS);
    assert k * (maxFee * minOverMax + maxFee) == maxFee * (minOverMax * k) + maxFee * k;
    assert maxFee * (LIQUIDITY_FEE_DECIMALS * n + LIQUIDITY_FEE_DECIMALS)
           == LIQUIDITY_FEE_DECIMALS * ((n - 1) * maxFee) + 2 * LIQUIDITY_FEE_DECIMALS * maxFee;
  }

  // ----- The gross-up of a buy-back -----

  /** With no rebate: the amount grossed up, less its own proportional fee, is exactly the amount. */
  lemma GrossUpIsExact(amount: nat, fee: nat, n: nat, g: nat)
    requires fee < WAD && n == Md(amount, WAD, WAD - fee) && g == Md(n, fee, WAD)
    ensures n - g == amount
  {
    DivMod(amount * WAD, WAD - fee);
    DivMod(n * fee, WAD);
    assert (WAD - fee) * n == WAD * n - n * fee;
  }

  lemma CeilCovers(a: nat, b: nat, c: nat)
    requires c > 0
    ensures MdCeil(a, b, c) * c >= a * b
  {
    DivMod(a * b, c);
    var q := a * b / c;
    assert (q + 1) * c == q * c + c;
  }

  /** With the rebate: n covers the amount and the flat fee once grossed up by the charged fraction of the fee. */
  lemma RebatedGrossUp(need: nat, flat: nat, tf: nat, rebate: nat, n: nat, g: nat, h: nat)
    requires rebate <= FEE_FRACTIONS
    requires n * (WAD * FEE_FRACTIONS - tf * (FEE_FRACTIONS - rebate)) >= need * (WAD * FEE_FRACTIONS)
             + flat * (FEE_FRACTIONS - rebate) * WAD
    requires WAD * g <= n * tf && FEE_FRACTIONS * h > (g + flat) * rebate - FEE_FRACTIONS
    ensures g + flat - h + need <= n
  {
    var c := FEE_FRACTIONS - rebate;
    assert n * (WAD * FEE_FRACTIONS - tf * c) == n * (WAD * FEE_FRACTIONS) - n * tf * c;
    assert (g + flat) * rebate == (g + flat) * FEE_FRACTIONS - (g + flat) * c;
    MulMonotone(c, WAD * g, n * tf);
    assert c * (WAD * g) == WAD * (g * c) && c * (n * tf) == n * tf * c;
    assert (g + flat) * c == g * c + flat * c;
  }

  /** Whatever the fees, the frontend and the rebate: the size a close buys back with puts at least the needed amount
      into the curve once the trade has taken its own fee, and exactly that amount when the trade rebates nothing. */
  lemma BuyBackCoversNeed(env: Env, s: State, debt: nat, frontend: Address, price: nat, t: TradeArgs)
    requires BuyBackInput(env, s, debt, frontend, price).Ok?
    requires t.size == BuyBackInput(env, s, debt, frontend, price).value && t.frontend == frontend
    ensures env.curve.exactInLong(debt + s.window.dx0, price, s.pool.stable, s.pool.stable, s.pool.asset).Ok?
    ensures var input := LongInput(env, t, TradeFee(env, t.size));
            var need := env.curve.exactInLong(debt + s.window.dx0, price, s.pool.stable, s.pool.stable,
                                              s.pool.asset).value - s.window.dy0;
            && input.Ok? && input.value >= need
            && (frontend != ZERO_ADDRESS || env.cfg.feeFrontend == 0 ==> input.value == need)
  {
    hide Md, MdCeil;
    var need := env.curve.exactInLong(debt + s.window.dx0, price, s.pool.stable, s.pool.stable, s.pool.asset).value
        - s.window.dy0;
    if frontend == ZERO_ADDRESS && env.cfg.feeFrontend > 0 {
      RebatedBuyBack(env, t, need);
    } else {
      GrossUpIsExact(need + env.cfg.flatTradingFee, env.cfg.tradingFee, t.size, Md(t.size, env.cfg.tradingFee, WAD));
      NoShareOfFee(TradeFee(env, t.size));
    }
  }

  lemma NoShareOfFee(fee: nat)
    ensures Md(fee, 0, FEE_FRACTIONS) == 0
  {}

  lemma RebatedBuyBack(env: Env, t: TradeArgs, need: nat)
    requires t.frontend == ZERO_ADDRESS
             && env.cfg.tradingFee * (FEE_FRACTIONS - env.cfg.feeFrontend) < WAD * FEE_FRACTIONS
    requires var charged := FEE_FRACTIONS - env.cfg.feeFrontend; var den := WAD * FEE_FRACTIONS
             - env.cfg.tradingFee * charged;
             t.size == MdCeil(need, WAD * FEE_FRACTIONS, den) + MdCeil(env.cfg.flatTradingFee * charged, WAD, den)
    ensures var input := LongInput(env, t, TradeFee(env, t.size)); input.Ok? && input.value >= need
  {
    hide Md, MdCeil;
    var charged, tf, flat := FEE_FRACTIONS - env.cfg.feeFrontend, env.cfg.tradingFee, env.cfg.flatTradingFee;
    var den := WAD * FEE_FRACTIONS - tf * charged;
    var first, second := MdCeil(need, WAD * FEE_FRACTIONS, den), MdCeil(flat * charged, WAD, den);
    CeilCovers(need, WAD * FEE_FRACTIONS, den);
    CeilCovers(flat * charged, WAD, den);
    assert (first + second) * den == first * den + second * den;
    var g := Md(t.size, tf, WAD);
    FloorBelow(t.size, tf, WAD);
    var h := FrontendPart(env, g + flat);
    FloorBelow(g + flat, env.cfg.feeFrontend, FEE_FRACTIONS);
    RebatedGrossUp(need, flat, tf, env.cfg.feeFrontend, t.size, g, h);
    AtMostWhole(env.cfg.feeFrontend, g + flat, FEE_FRACTIONS);
  }

  lemma FloorBelow(a: nat, b: nat, c: nat)
    requires c > 0
    ensures c * Md(a, b, c) <= a * b < c * Md(a, b, c) + c
  {
    DivMod(a * b, c);
  }
}
