/** The coefficients handed to the epoch matrices are the pool's own shares, rounded down. */
module Coefficients {
  import opened Arith
  import opened EngineState
  import opened EngineSpec
  import opened EngineOps

  /** `a` is part/whole at matrix scale, rounded down. */
  predicate IsShare(a: int, part: int, whole: int)
  {
    0 <= a && a * whole <= part * M_DECIMALS < a * whole + whole
  }

  lemma ScaledShare(part: nat, whole: nat)
    requires whole > 0
    ensures IsShare(Md(part, M_DECIMALS, whole), part, whole)
  {
    DivMod(part * M_DECIMALS, whole);
  }

  lemma RevertingShare(part: nat, whole: nat)
    requires MdR(part, M_DECIMALS, whole).Ok?
    ensures IsShare(MdR(part, M_DECIMALS, whole).value, part, whole)
  {
    ScaledShare(part, whole);
  }

  /** A trade fans out the shares by which it moves the pool: a long takes its return out of the asset side and puts its
      input per unit of asset into the stable side, a short the other way round; and the pool moves by exactly those
      amounts. */
  lemma TradeCoefficientsAreShares(env: Env, s: State, t: TradeArgs, q: Quote) returns (aX: int, aY: int)
    requires MovePool(env, s, t, q).Ok?
    ensures var r := MovePool(env, s, t, q).value;
            && r.ep == ApplyMatrixUpdate(s.ep, aX, aY, if t.direction then LongUpdate else ShortUpdate)
            && (t.direction ==>
                IsShare(aX, s.pool.asset - r.pool.asset, s.pool.asset)
                && IsShare(aY, r.pool.stable - s.pool.stable, s.pool.asset))
            && (!t.direction ==>
                IsShare(aX, r.pool.asset - s.pool.asset, s.pool.stable)
                && IsShare(aY, s.pool.stable - r.pool.stable, s.pool.stable))
  {
    hide IsShare, MdR, LongPoolInput, ShortPoolOutput, ApplyMatrixUpdate;
    if t.direction {
      var paid := LongPoolInput(env, t, q.fee).value;
      aX, aY := MdR(q.tradeReturn, M_DECIMALS, s.pool.asset).value, MdR(paid, M_DECIMALS, s.pool.asset).value;
      RevertingShare(q.tradeReturn, s.pool.asset);
      RevertingShare(paid, s.pool.asset);
    } else {
      var net := ShortPoolOutput(env, q).value;
      aX, aY := MdR(t.size, M_DECIMALS, s.pool.stable).value, MdR(net, M_DECIMALS, s.pool.stable).value;
      RevertingShare(t.size, s.pool.stable);
      RevertingShare(net, s.pool.stable);
    }
  }

  /** A liquidity fee is split by the value of the two sides, and each part fans out as a share of the side it is split
      by. */
  lemma FeeCoefficientsAreShares(s: State, fee: nat, price: nat) returns (part: nat, aX: int, aY: int)
    requires fee > 0 && s.pool.stable != 0 && s.pool.asset != 0
    ensures var r := DistributeFee(s, fee, price); var total := s.pool.stable
            + Md(s.pool.asset, price, ORACLE_DECIMALS);
            && r.ep == ApplyMatrixUpdate(s.ep, aX, aY, FeeUpdate) && part <= fee
            && part * total <= fee * s.pool.stable < part * total + total
            && IsShare(aX, part, s.pool.stable) && IsShare(aY, fee - part, s.pool.asset)
            && r.pool == Pool(s.pool.stable + fee, s.pool.asset)
  {
    hide IsShare, ApplyMatrixUpdate;
    var total := s.pool.stable + Md(s.pool.asset, price, ORACLE_DECIMALS);
    part := SplitByValue(fee, s.pool.stable, total);
    aX, aY := Md(part, M_DECIMALS, s.pool.stable), Md(fee - part, M_DECIMALS, s.pool.asset);
    ScaledShare(part, s.pool.stable);
    ScaledShare(fee - part, s.pool.asset);
  }

  lemma SplitByValue(fee: nat, side: nat, total: nat) returns (part: nat)
    requires 0 < side <= total
    ensures part == Md(fee, side, total) && part <= fee && part * total <= fee * side < part * total + total
  {
    part := Md(fee, side, total);
    FeeShare(fee, side, total);
    MulMonotone(fee, 0, side);
    DivMod(fee * side, total);
  }
}
