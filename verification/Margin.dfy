/** What a margin ratio, a liquidation discount and a slippage average mean. */
module Margin {
  import opened Arith
  import opened EngineState
  import opened EngineOps

  lemma RatioMeans(a: nat, scale: nat, value: nat)
    requires value > 0
    ensures var m := Md(a, scale, value); m * value <= a * scale < m * value + value
  {
    DivMod(a * scale, value);
  }

  /** A margin ratio is equity over position value, rounded down, where equity is collateral plus profit at spot: zero
      in bad debt, and the whole for a solvent user with no net asset. */
  lemma MarginRatioMeans(env: Env, pool: Pool, bs: nat, ba: nat, ds: nat, da: nat, fee: Signed, price: nat,
                         collateral: nat)
    requires HypotheticalMr(env, pool, bs, ba, ds, da, fee, price, collateral).Ok?
    ensures CalcPnl(env, pool, bs, ba, ds, da, fee, price, true).Ok?
    ensures var m := HypotheticalMr(env, pool, bs, ba, ds, da, fee, price, collateral).value;
            var equity := collateral + CalcPnl(env, pool, bs, ba, ds, da, fee, price, true).value.Val();
            var value := Md(DiffAbs(ba, da), price, ORACLE_DECIMALS);
            && (equity < 0 ==> m == 0)
            && (equity >= 0 && value == 0 ==> m == MMR_DECIMALS)
            && (equity >= 0 && value > 0 ==> m * value <= equity * MMR_DECIMALS < m * value + value)
  {
    hide CalcPnl, DiffAbs, Md;
    var pnl := CalcPnl(env, pool, bs, ba, ds, da, fee, price, true).value;
    var value := Md(DiffAbs(ba, da), price, ORACLE_DECIMALS);
    var total := SignedSum(Signed(collateral, true), pnl);
    if value > 0 {
      RatioMeans(total.mag, MMR_DECIMALS, value);
    }
  }

  // ----- The liquidation discount -----

  lemma MdGrows(a: nat, x: nat, y: nat, c: nat)
    requires c > 0 && x <= y
    ensures Md(a, x, c) <= Md(a, y, c)
  {
    MulMonotone(a, x, y);
    DivMonotone(a * x, a * y, c);
  }

  lemma PartGrows(x: nat, y: nat, whole: nat)
    requires whole > 0 && x <= y
    ensures Md(x, DUST, whole) <= Md(y, DUST, whole)
  {
    MulMonotone(DUST, x, y);
    DivMonotone(x * DUST, y * DUST, whole);
  }

  lemma WholePart(whole: nat)
    requires whole > 0
    ensures Md(whole, DUST, whole) == DUST
  {
    DivCancel(DUST, whole);
  }

  lemma DoubledHalf(d: nat)
    ensures Md(d / 2, DUST + DUST, DUST) <= d && Md(d, DUST, DUST) == d
  {
    assert d / 2 * (DUST + DUST) == (d / 2 * 2) * DUST;
    DivCancel(d / 2 * 2, DUST);
    DivCancel(d, DUST);
  }

  /** There is a discount exactly up to the maintenance ratio, save at a ratio of 0 when half the maintenance ratio
      rounds to 0. */
  lemma DiscountExists(cfg: Config, ratio: nat)
    ensures LiquidationDiscount(cfg, ratio).Ok? <==> ratio <= cfg.mmr && (cfg.mmr / 2 > 0 || ratio > 0)
  {
    hide Md;
    assert cfg.mmr / 2 < cfg.mmr || cfg.mmr == 0;
  }

  /** The lower a user's margin ratio, the higher the discount, across the break at half the maintenance ratio as well;
      and up to the maintenance ratio there is one, save at a ratio of 0 when half the maintenance ratio rounds to 0. */
  lemma DiscountGrowsAsMarginFalls(cfg: Config, low: nat, high: nat)
    requires low <= high
    ensures LiquidationDiscount(cfg, low).Ok? <==> low <= cfg.mmr && (cfg.mmr / 2 > 0 || low > 0)
    ensures LiquidationDiscount(cfg, low).Ok? && LiquidationDiscount(cfg, high).Ok?
            ==> LiquidationDiscount(cfg, low).value >= LiquidationDiscount(cfg, high).value
  {
    DiscountExists(cfg, low);
    DiscountExists(cfg, high);
    if LiquidationDiscount(cfg, low).Ok? && LiquidationDiscount(cfg, high).Ok? { DiscountOrder(cfg, low, high); }
  }

  lemma DiscountOrder(cfg: Config, low: nat, high: nat)
    requires low <= high <= cfg.mmr && (cfg.mmr / 2 > 0 || low > 0)
    ensures LiquidationDiscount(cfg, low).Ok? && LiquidationDiscount(cfg, high).Ok?
    ensures LiquidationDiscount(cfg, low).value >= LiquidationDiscount(cfg, high).value
  {
    hide Md;
    DiscountExists(cfg, low);
    DiscountExists(cfg, high);
    var step1, step0 := cfg.mmr, cfg.mmr / 2;
    var d := cfg.liquidationDiscount;
    if high <= step0 {
      PartGrows(step0 - high, step0 - low, step0);
      MdGrows(d, DUST + Md(step0 - high, DUST, step0), DUST + Md(step0 - low, DUST, step0), DUST);
    } else {
      PartGrows(step1 - high, step1 - step0, step1 - step0);
      WholePart(step1 - step0);
      if low > step0 {
        PartGrows(step1 - high, step1 - low, step1 - step0);
        MdGrows(d / 2, DUST + Md(step1 - high, DUST, step1 - step0), DUST + Md(step1 - low, DUST, step1 - step0), DUST);
      } else {
        MdGrows(d / 2, DUST + Md(step1 - high, DUST, step1 - step0), DUST + DUST, DUST);
        DoubledHalf(d);
        MdGrows(d, DUST, DUST + Md(step0 - low, DUST, step0), DUST);
      }
    }
  }

  /** `r` is base * (1 + gap / span) but for a unit and a 1e10th part of the base, and never above it. */
  predicate RaisedBy(r: nat, base: nat, gap: nat, span: nat)
  {
    && r * span <= base * (span + gap)
    && base * (span + gap) * DUST < (r + 1) * span * DUST + base * span
  }

  /** The discount: the configured one at half the maintenance ratio, growing linearly to twice that at ratio 0; and
      half of it at the maintenance ratio, growing linearly to the configured one as the ratio falls to its half. */
  lemma DiscountIs(cfg: Config, margin: nat)
    requires LiquidationDiscount(cfg, margin).Ok?
    ensures var half, r, d := cfg.mmr / 2, LiquidationDiscount(cfg, margin).value, cfg.liquidationDiscount;
            && margin <= cfg.mmr
            && if margin <= half then RaisedBy(r, d, half - margin, half)
               else RaisedBy(r, d / 2, cfg.mmr - margin, cfg.mmr - half)
  {
    hide Md;
    DiscountExists(cfg, margin);
    var half, d := cfg.mmr / 2, cfg.liquidationDiscount;
    if margin <= half { Raised(d, half - margin, half); } else { Raised(d / 2, cfg.mmr - margin, cfg.mmr - half); }
  }

  lemma Raised(base: nat, gap: nat, span: nat)
    requires span > 0
    ensures RaisedBy(Md(base, DUST + Md(gap, DUST, span), DUST), base, gap, span)
  {
    var part := Md(gap, DUST, span);
    var r := Md(base, DUST + part, DUST);
    DivMod(gap * DUST, span);
    DivMod(base * (DUST + part), DUST);
    hide Md;
    RaisedFloor(base, gap, span, part, r);
  }

  lemma RaisedFloor(base: nat, gap: nat, span: nat, part: nat, r: nat)
    requires span > 0 && span * part <= gap * DUST < span * part + span
    requires DUST * r <= base * (DUST + part) < DUST * r + DUST
    ensures RaisedBy(r, base, gap, span)
  {
    RaisedAbove(base, gap, span, part, r);
    RaisedBelow(base, gap, span, part, r);
  }

  lemma RaisedAbove(base: nat, gap: nat, span: nat, part: nat, r: nat)
    requires span * part <= gap * DUST && DUST * r <= base * (DUST + part)
    ensures r * span <= base * (span + gap)
  {
    MulMonotone(base, span * (DUST + part), DUST * (span + gap));
    MulMonotone(span, DUST * r, base * (DUST + part));
    Reordered(span, base, DUST + part);
    Reordered(span, DUST, r);
    Reordered(base, DUST, span + gap);
    assert DUST * (span * r) <= DUST * (base * (span + gap));
  }

  lemma RaisedBelow(base: nat, gap: nat, span: nat, part: nat, r: nat)
    requires span > 0 && gap * DUST < span * part + span && base * (DUST + part) < DUST * r + DUST
    ensures base * (span + gap) * DUST < (r + 1) * span * DUST + base * span
  {
    var n := DUST + part;
    MulMonotone(base, DUST * (span + gap), span * n + span);
    Reordered(base, DUST, span + gap);
    assert base * (span * n + span) == base * (span * n) + base * span;
    Reordered(span, base, n);
    MulMonotone(span, base * n + 1, DUST * (r + 1));
    assert span * (base * n + 1) == span * (base * n) + span;
    Reordered(span, DUST, r + 1);
  }

  lemma Reordered(x: int, y: int, z: int)
    ensures x * (y * z) == y * (x * z) == y * (z * x) == (z * x) * y
  {}

  // ----- The slippage average -----

  lemma WeightedSum(a: nat, b: nat, w: nat, v: nat)
    requires a <= b
    ensures 0 <= a * w && 0 <= b * v && a * (w + v) <= a * w + b * v <= b * (w + v)
  {
    MulMonotone(w, a, b);
    MulMonotone(v, a, b);
    MulMonotone(a, 0, w);
    MulMonotone(b, 0, v);
  }

  /** An average of a and b by weights w and v, each part rounded down. */
  lemma WeightedFloors(a: nat, b: nat, w: nat, v: nat, n: nat)
    requires n == w + v && n > 0 && a <= b
    ensures a - 1 <= Md(a, w, n) + Md(b, v, n) <= b
  {
    WeightedSum(a, b, w, v);
    FloorSplit(a * w, b * v, n);
    DivMonotone(a * n, a * w + b * v, n);
    DivMonotone(a * w + b * v, b * n, n);
    DivCancel(a, n);
    DivCancel(b, n);
  }

  /** The slippage average never leaves the range of its old value and the slippage observed, but for one unit of
      rounding. */
  lemma EmaStaysBetween(p: nat, spot: nat, average: nat, emaParam: nat)
    requires CalcEma(p, spot, average, emaParam).Ok?
    ensures CalcSlip(p, spot, ORACLE_DECIMALS).Ok?
    ensures var slip := CalcSlip(p, spot, ORACLE_DECIMALS).value; var ema := CalcEma(p, spot, average, emaParam).value;
            if slip <= average then slip - 1 <= ema <= average else average - 1 <= ema <= slip
  {
    hide Md, CalcSlip;
    var slip := CalcSlip(p, spot, ORACLE_DECIMALS).value;
    if slip <= average {
      WeightedFloors(slip, average, ORACLE_DECIMALS - emaParam, emaParam, ORACLE_DECIMALS);
    } else {
      WeightedFloors(average, slip, emaParam, ORACLE_DECIMALS - emaParam, ORACLE_DECIMALS);
    }
  }
}
