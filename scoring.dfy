/** The hierarchical phase score (`computeScore` in both handler variants).

    Every adjustment is an independent `if` over the same inputs; the sum
    starts at 1 and is clamped to [1, 10]. All increments are multiples of
    0.5, so exact `real` arithmetic computes what the floating-point source
    computes. */
module Scoring {

  /** A JavaScript number as the rules see it: a finite value or NaN.
      Every ordered comparison involving NaN is false. */
  datatype Num = Finite(value: real) | NaN

  predicate Gt(x: Num, y: Num) { x.Finite? && y.Finite? && x.value > y.value }
  predicate Lt(x: Num, y: Num) { x.Finite? && y.Finite? && x.value < y.value }

  /** The indicator inputs of one asset: the weekly anchor (last Sunday's
      high and low), EMA and RSI on 15m and 5m closes, and the fast (4m) RSI. */
  datatype Indicators = Indicators(
    maxD: Num, minD: Num,
    ema15: Num, rsi15: Num,
    ema5: Num, rsi5: Num,
    rsiFast: Num)

  const LowerClamp: real := 1.0
  const UpperClamp: real := 10.0

  /** Tier 1: +3 above the weekly low, +2 above the weekly high, -2 below the
      weekly low. The rules are cumulative, not a ladder. */
  function WeeklyTier(price: real, maxD: Num, minD: Num): (r: real)
    ensures -2.0 <= r <= 5.0
    ensures r == 5.0 <==> Gt(Finite(price), minD) && Gt(Finite(price), maxD)
    // above the weekly low: +3, plus 2 above the high; below it: -2, plus 2 above the high
    ensures Gt(Finite(price), minD) ==> r == 3.0 + (if Gt(Finite(price), maxD) then 2.0 else 0.0)
    ensures Lt(Finite(price), minD) ==> r == -2.0 + (if Gt(Finite(price), maxD) then 2.0 else 0.0)
    // at the weekly low (or with a NaN low) neither the +3 nor the -2 applies
    ensures !Gt(Finite(price), minD) && !Lt(Finite(price), minD) ==>
      r == (if Gt(Finite(price), maxD) then 2.0 else 0.0)
    // with a NaN high the +2 never applies
    ensures maxD.NaN? ==>
      r == (if Gt(Finite(price), minD) then 3.0 else if Lt(Finite(price), minD) then -2.0 else 0.0)
  {
    var p := Finite(price);
    (if Gt(p, minD) then 3.0 else 0.0)
    + (if Gt(p, maxD) then 2.0 else 0.0)
    + (if Lt(p, minD) then -2.0 else 0.0)
  }

  /** Tier 2 (15m): +2 when RSI > 50 and price > EMA; -2 when RSI < 50 and price < EMA. */
  function Tier15(price: real, ema: Num, rsi: Num): (r: real)
    // the two rules exclude each other; at RSI 50 (or with a NaN) neither applies
    ensures r == 2.0 <==> Gt(rsi, Finite(50.0)) && Gt(Finite(price), ema)
    ensures r == -2.0 <==> Lt(rsi, Finite(50.0)) && Lt(Finite(price), ema)
    ensures r == 2.0 || r == -2.0 || r == 0.0
  {
    var p := Finite(price);
    (if Gt(rsi, Finite(50.0)) && Gt(p, ema) then 2.0 else 0.0)
    + (if Lt(rsi, Finite(50.0)) && Lt(p, ema) then -2.0 else 0.0)
  }

  /** Tier 3 (5m): +1 when RSI > 70 and price > EMA; -1 when RSI < 30 and price < EMA. */
  function Tier5(price: real, ema: Num, rsi: Num): (r: real)
    // the two rules exclude each other; between 30 and 70 neither applies
    ensures r == 1.0 <==> Gt(rsi, Finite(70.0)) && Gt(Finite(price), ema)
    ensures r == -1.0 <==> Lt(rsi, Finite(30.0)) && Lt(Finite(price), ema)
    ensures r == 1.0 || r == -1.0 || r == 0.0
    ensures rsi.Finite? && 30.0 <= rsi.value <= 70.0 ==> r == 0.0
  {
    var p := Finite(price);
    (if Gt(rsi, Finite(70.0)) && Gt(p, ema) then 1.0 else 0.0)
    + (if Lt(rsi, Finite(30.0)) && Lt(p, ema) then -1.0 else 0.0)
  }

  /** Tier 4 (fast RSI, contrarian): +0.5 below 15, -0.5 above 85. */
  function TierFast(rsi: Num): (r: real)
    // contrarian: a low fast RSI raises the score, a high one lowers it
    ensures r == 0.5 <==> Lt(rsi, Finite(15.0))
    ensures r == -0.5 <==> Gt(rsi, Finite(85.0))
    ensures r == 0.5 || r == -0.5 || r == 0.0
  {
    (if Lt(rsi, Finite(15.0)) then 0.5 else 0.0)
    + (if Gt(rsi, Finite(85.0)) then -0.5 else 0.0)
  }

  /** The same rules counted in half points, in integer arithmetic: an
      independent reference for the accumulator. */
  function Halves(price: real, ind: Indicators): (h: int)
    ensures -9 <= h <= 19
  {
    var p := Finite(price);
    2
    + (if Gt(p, ind.minD) then 6 else 0)
    + (if Gt(p, ind.maxD) then 4 else 0)
    - (if Lt(p, ind.minD) then 4 else 0)
    + (if Gt(ind.rsi15, Finite(50.0)) && Gt(p, ind.ema15) then 4 else 0)
    - (if Lt(ind.rsi15, Finite(50.0)) && Lt(p, ind.ema15) then 4 else 0)
    + (if Gt(ind.rsi5, Finite(70.0)) && Gt(p, ind.ema5) then 2 else 0)
    - (if Lt(ind.rsi5, Finite(30.0)) && Lt(p, ind.ema5) then 2 else 0)
    + (if Lt(ind.rsiFast, Finite(15.0)) then 1 else 0)
    - (if Gt(ind.rsiFast, Finite(85.0)) then 1 else 0)
  }

  /** The accumulator `s` just before the clamp. */
  function RawScore(price: real, ind: Indicators): (r: real)
    ensures -4.5 <= r <= 9.5
    ensures r == Halves(price, ind) as real / 2.0
  {
    1.0
    + WeeklyTier(price, ind.maxD, ind.minD)
    + Tier15(price, ind.ema15, ind.rsi15)
    + Tier5(price, ind.ema5, ind.rsi5)
    + TierFast(ind.rsiFast)
  }

  /** x is a whole multiple of 0.5. */
  predicate OnHalfGrid(x: real) { (2.0 * x).Floor as real == 2.0 * x }

  function Max(a: real, b: real): real { if a < b then b else a }
  function Min(a: real, b: real): real { if a < b then a else b }

  /** `Math.max(1, Math.min(10, s))`. The upper clamp never binds, since the
      raw sum is at most 9.5; the result is the raw sum raised to 1. */
  function ComputeScore(price: real, ind: Indicators): (r: real)
    ensures LowerClamp <= r <= UpperClamp
    ensures r <= 9.5
    ensures RawScore(price, ind) >= 1.0 ==> r == RawScore(price, ind)
    ensures RawScore(price, ind) < 1.0 ==> r == 1.0
    ensures OnHalfGrid(r)
  {
    Max(LowerClamp, Min(UpperClamp, RawScore(price, ind)))
  }

  /** Every bullish rule at once gives the largest score, 9.5 (not 10). */
  lemma AllBullish(price: real, ind: Indicators)
    requires Gt(Finite(price), ind.minD) && Gt(Finite(price), ind.maxD)
    requires Gt(ind.rsi15, Finite(50.0)) && Gt(Finite(price), ind.ema15)
    requires Gt(ind.rsi5, Finite(70.0)) && Gt(Finite(price), ind.ema5)
    requires Lt(ind.rsiFast, Finite(15.0))
    ensures RawScore(price, ind) == 9.5
    ensures ComputeScore(price, ind) == 9.5
  {
  }

  /** Every bearish rule at once drives the sum to -4.5, clamped to 1. */
  lemma AllBearish(price: real, ind: Indicators)
    requires Lt(Finite(price), ind.minD) && !Gt(Finite(price), ind.maxD)
    requires Lt(ind.rsi15, Finite(50.0)) && Lt(Finite(price), ind.ema15)
    requires Lt(ind.rsi5, Finite(30.0)) && Lt(Finite(price), ind.ema5)
    requires Gt(ind.rsiFast, Finite(85.0))
    ensures RawScore(price, ind) == -4.5
    ensures ComputeScore(price, ind) == 1.0
  {
  }

  /** A higher price, with every indicator fixed, never lowers the score:
      each price rule either rewards a higher price or penalises a lower one. */
  lemma ScoreMonotoneInPrice(p1: real, p2: real, ind: Indicators)
    requires p1 <= p2
    ensures RawScore(p1, ind) <= RawScore(p2, ind)
    ensures ComputeScore(p1, ind) <= ComputeScore(p2, ind)
  {
  }

  /** The worked example: price 100, weekly low 90, weekly high 95, RSI15 60,
      EMA15 98, RSI5 40, fast RSI 50 scores 1 + 3 + 2 + 2 = 8. */
  lemma WorkedExample(ema5: Num)
    ensures ComputeScore(100.0, Indicators(Finite(95.0), Finite(90.0), Finite(98.0), Finite(60.0),
                                           ema5, Finite(40.0), Finite(50.0))) == 8.0
  {
  }
}
