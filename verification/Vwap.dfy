// Rolling volume-weighted average price.

module Vwap {
  import opened Options
  import opened Sorting
  import opened BarAggregation

  function TypicalPrice(b: Bar): real {
    (b.high + b.low + b.close) / 3.0
  }

  function Weighted(price: real, volume: real): real {
    price * volume
  }

  function PriceVolume(b: Bar): real {
    Weighted(TypicalPrice(b), b.volume)
  }

  // bars.slice(-n); slice(-0) is the whole array.
  function LastBars(bars: seq<Bar>, n: nat): seq<Bar> {
    if n == 0 || |bars| <= n then bars else bars[|bars| - n..]
  }

  function RollingVwap(bars: seq<Bar>, lookback: nat): Option<real> {
    if |bars| < lookback then None
    else
      var window := LastBars(bars, lookback);
      if SumBy(window, Volume) > 0.0 then Some(SumBy(window, PriceVolume) / SumBy(window, Volume)) else None
  }

  method ComputeRollingVwap(bars: seq<Bar>, lookbackBars: nat) returns (vwap: Option<real>)
    ensures vwap == RollingVwap(bars, lookbackBars)
  {
    if |bars| < lookbackBars { return None; }
    var window := LastBars(bars, lookbackBars);
    var cumulativePriceVolume := 0.0;
    var cumulativeVolume := 0.0;
    for i := 0 to |window|
      invariant cumulativePriceVolume == SumBy(window[..i], PriceVolume)
      invariant cumulativeVolume == SumBy(window[..i], Volume)
    {
      var typicalPrice := (window[i].high + window[i].low + window[i].close) / 3.0;
      cumulativePriceVolume := cumulativePriceVolume + typicalPrice * window[i].volume;
      cumulativeVolume := cumulativeVolume + window[i].volume;
      assert window[..i + 1][..i] == window[..i];
    }
    assert window[..|window|] == window;
    vwap := if cumulativeVolume > 0.0 then Some(cumulativePriceVolume / cumulativeVolume) else None;
  }

  // Three times a bar's typical price, weighted.
  function Turnover(b: Bar): real {
    (b.high + b.low + b.close) * b.volume
  }

  lemma {:induction false} TurnoverIsThrice(bars: seq<Bar>)
    ensures SumBy(bars, Turnover) == 3.0 * SumBy(bars, PriceVolume)
  {
    if bars != [] {
      var b := bars[|bars| - 1];
      TurnoverIsThrice(bars[..|bars| - 1]);
      assert Turnover(b) == 3.0 * TypicalPrice(b) * b.volume;
    }
  }

  // The average is that of the mean of high, low and close over the last bars, weighted
  // by volume; there is none when there are too few bars or the window has no volume.
  lemma VwapIsTheMean(bars: seq<Bar>, lookback: nat)
    ensures |bars| < lookback ==> RollingVwap(bars, lookback).None?
    ensures |bars| >= lookback ==>
              var window := if lookback == 0 then bars else bars[|bars| - lookback..];
              var vwap := RollingVwap(bars, lookback);
              && (vwap.Some? <==> SumBy(window, Volume) > 0.0)
              && (vwap.Some? ==> 3.0 * vwap.value * SumBy(window, Volume) == SumBy(window, Turnover))
  {
    if |bars| >= lookback {
      TurnoverIsThrice(LastBars(bars, lookback));
      if RollingVwap(bars, lookback).Some? {
        var v, x := SumBy(LastBars(bars, lookback), Volume), SumBy(LastBars(bars, lookback), PriceVolume);
        assert x / v * v == x;
      }
    }
  }

  ghost predicate WithinPrices(bars: seq<Bar>, low: real, high: real) {
    forall i :: 0 <= i < |bars| ==> low <= bars[i].low <= bars[i].close <= bars[i].high <= high && bars[i].volume >= 0.0
  }

  lemma WeightBounds(price: real, volume: real, low: real, high: real)
    requires low <= price <= high && volume >= 0.0
    ensures low * volume <= price * volume <= high * volume
  {
  }

  // `x` is a sum of prices within the bounds, weighted to `v` in all.
  predicate Bounded(x: real, v: real, low: real, high: real) {
    low * v <= x <= high * v
  }

  lemma AddBounds(x: real, v: real, price: real, w: real, low: real, high: real)
    requires Bounded(x, v, low, high) && low <= price <= high && w >= 0.0
    ensures Bounded(x + Weighted(price, w), v + w, low, high)
  {
    WeightBounds(price, w, low, high);
    assert low * (v + w) == low * v + low * w;
    assert high * (v + w) == high * v + high * w;
  }

  lemma {:induction false} WeightedSumBounds(bars: seq<Bar>, low: real, high: real)
    requires WithinPrices(bars, low, high)
    ensures Bounded(SumBy(bars, PriceVolume), SumBy(bars, Volume), low, high)
  {
    if bars != [] {
      var front := bars[..|bars| - 1];
      var b := bars[|bars| - 1];
      WeightedSumBounds(front, low, high);
      AddBounds(SumBy(front, PriceVolume), SumBy(front, Volume), TypicalPrice(b), b.volume, low, high);
    }
  }

  lemma NonNegativeFactor(d: real, v: real)
    requires v > 0.0 && d * v >= 0.0
    ensures d >= 0.0
  {
  }

  lemma QuotientBounds(x: real, v: real, low: real, high: real)
    requires v > 0.0 && Bounded(x, v, low, high)
    ensures low <= x / v <= high
  {
    var q := x / v;
    assert q * v == x;
    assert (q - low) * v == q * v - low * v;
    assert (high - q) * v == high * v - q * v;
    NonNegativeFactor(q - low, v);
    NonNegativeFactor(high - q, v);
  }

  // The average lies between any bounds on the window's lows and highs.
  lemma VwapWithinBounds(bars: seq<Bar>, lookback: nat, low: real, high: real)
    requires RollingVwap(bars, lookback).Some?
    requires WithinPrices(LastBars(bars, lookback), low, high)
    ensures low <= RollingVwap(bars, lookback).value <= high
  {
    var window := LastBars(bars, lookback);
    WeightedSumBounds(window, low, high);
    QuotientBounds(SumBy(window, PriceVolume), SumBy(window, Volume), low, high);
  }
}
