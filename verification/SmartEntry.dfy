// One-shot entry positioning: the point of control, then the VWAP, of the last
// six five-minute candles, when it beats the signal price without passing the
// structural level; rounded to the tick grid.

module SmartEntry {
  import opened Options
  import opened Sorting
  import opened BarAggregation
  import opened Vwap
  import V = VolumeProfile

  const CANDLE_MINUTES: nat := 5
  const LOOKBACK_CANDLES: nat := 6

  datatype Basis = AtPoc | AtVwap | AtSignal

  datatype Entry = Entry(price: real, basis: Basis)

  // Decimal.ROUND_HALF_UP: to the nearest integer, halves away from zero.
  function RoundHalfUp(x: real): int {
    if x >= 0.0 then (x + 0.5).Floor else -(-x + 0.5).Floor
  }

  function Ticks(price: real, tick: real): int
    requires tick > 0.0
  {
    RoundHalfUp(price / tick)
  }

  function RoundToTick(price: real, tick: real): real {
    if tick <= 0.0 then price else Ticks(price, tick) as real * tick
  }

  function CandleStart(): Bucketing {
    Boundary(CANDLE_MINUTES * 60_000)
  }

  predicate Favorable(price: real, long: bool, signal: real, structure: Option<real>) {
    && (if long then price <= signal else price >= signal)
    && (structure.Some? ==> if long then price >= structure.value else price <= structure.value)
  }

  function EntryFrom(candles: seq<Bar>, long: bool, signal: real, atr: real, tick: real,
                     structure: Option<real>): Entry {
    var poc := V.Poc(candles, Max(atr / 20.0, tick));
    var vwap := RollingVwap(candles, LOOKBACK_CANDLES);
    if poc.Some? && Favorable(poc.value, long, signal, structure) then Entry(RoundToTick(poc.value, tick), AtPoc)
    else if vwap.Some? && Favorable(vwap.value, long, signal, structure)
      then Entry(RoundToTick(vwap.value, tick), AtVwap)
    else Entry(signal, AtSignal)
  }

  function Candles(bars: seq<Bar>): seq<Bar> {
    LastBars(Aggregate(bars, CandleStart()), LOOKBACK_CANDLES)
  }

  function ComputeSmartEntryPrice(bars: seq<Bar>, long: bool, signal: real, atr: real, tick: real,
                                  structure: Option<real>): Entry {
    if |Candles(bars)| < LOOKBACK_CANDLES then Entry(signal, AtSignal)
    else EntryFrom(Candles(bars), long, signal, atr, tick, structure)
  }

  // Which price is taken: with six five-minute candles, the point of control of their
  // profile (in buckets of a twentieth of the ATR, but no finer than a tick) if it is
  // favourable, else their VWAP if that is, else the signal price as it is.
  lemma EntryChoice(bars: seq<Bar>, long: bool, signal: real, atr: real, tick: real, structure: Option<real>)
    ensures var candles := Aggregate(bars, Boundary(300_000));
            var e := ComputeSmartEntryPrice(bars, long, signal, atr, tick, structure);
            if |candles| < 6 then e == Entry(signal, AtSignal)
            else
              var six := candles[|candles| - 6..];
              var poc := V.Poc(six, if atr / 20.0 < tick then tick else atr / 20.0);
              var vwap := RollingVwap(six, 6);
              && (e.basis == AtPoc <==> poc.Some? && Favorable(poc.value, long, signal, structure))
              && (e.basis == AtPoc ==> e.price == RoundToTick(poc.value, tick))
              && (e.basis == AtVwap <==>
                    e.basis != AtPoc && vwap.Some? && Favorable(vwap.value, long, signal, structure))
              && (e.basis == AtVwap ==> e.price == RoundToTick(vwap.value, tick))
              && (e.basis == AtSignal ==> e.price == signal)
  {
    assert CandleStart() == Boundary(300_000);
    assert LastBars(Aggregate(bars, Boundary(300_000)), 6) == Candles(bars);
  }

  // A favourable price is one at which the order gains on the signal price without
  // passing the structure level.
  lemma FavorableIff(price: real, long: bool, signal: real, structure: Option<real>)
    ensures Favorable(price, long, signal, structure)
       <==> var side := if long then 1.0 else -1.0;
            side * (signal - price) >= 0.0 && (structure.Some? ==> side * (price - structure.value) >= 0.0)
  {
  }

  // Halfway between two ticks, away from zero.
  lemma HalvesRoundAway(n: int)
    requires n >= 0
    ensures RoundHalfUp(n as real + 0.5) == n + 1 && RoundHalfUp(-(n as real) - 0.5) == -n - 1
  {
  }

  // ----- Rounding -------------------------------------------------------------------

  lemma RoundHalfUpIsMonotone(x: real, y: real)
    requires x <= y
    ensures RoundHalfUp(x) <= RoundHalfUp(y)
  {
  }

  lemma RoundHalfUpIsNearest(x: real)
    ensures -0.5 <= RoundHalfUp(x) as real - x <= 0.5
  {
  }

  lemma ScaledOrder(a: real, b: real, tick: real)
    requires tick > 0.0 && a <= b
    ensures a * tick <= b * tick
    ensures a / tick <= b / tick
  {
    assert b / tick - a / tick == (b - a) / tick >= 0.0;
  }

  lemma RoundingIsMonotone(p: real, q: real, tick: real)
    requires p <= q
    ensures RoundToTick(p, tick) <= RoundToTick(q, tick)
  {
    if tick > 0.0 {
      ScaledOrder(p, q, tick);
      RoundHalfUpIsMonotone(p / tick, q / tick);
      ScaledOrder(Ticks(p, tick) as real, Ticks(q, tick) as real, tick);
    }
  }

  predicate OnGrid(price: real, tick: real) {
    RoundToTick(price, tick) == price
  }

  lemma MultiplesAreOnGrid(price: real, k: int, tick: real)
    requires tick > 0.0 && price == k as real * tick
    ensures OnGrid(price, tick)
  {
    assert price / tick == k as real;
    assert RoundHalfUp(k as real) == k;
  }

  lemma RoundingLandsOnGrid(price: real, tick: real)
    ensures OnGrid(RoundToTick(price, tick), tick)
  {
    if tick > 0.0 {
      MultiplesAreOnGrid(RoundToTick(price, tick), Ticks(price, tick), tick);
    }
  }

  lemma RoundingMovesHalfATick(price: real, tick: real)
    requires tick > 0.0
    ensures -(tick / 2.0) <= RoundToTick(price, tick) - price <= tick / 2.0
  {
    var x := price / tick;
    var n := RoundHalfUp(x) as real;
    RoundHalfUpIsNearest(x);
    assert x * tick == price;
    var d := n - x;
    ScaledOrder(d, 0.5, tick);
    ScaledOrder(-0.5, d, tick);
    assert d * tick == n * tick - x * tick;
  }

  // ----- The entry --------------------------------------------------------------------

  // With the signal and structure prices on the tick grid, an entry taken from the
  // point of control or the VWAP lies between them, on the favourable side, even
  // after rounding; and it is itself on the grid.
  lemma EntryStaysFavorable(bars: seq<Bar>, long: bool, signal: real, atr: real, tick: real, structure: Option<real>)
    requires OnGrid(signal, tick) && (structure.Some? ==> OnGrid(structure.value, tick))
    ensures var e := ComputeSmartEntryPrice(bars, long, signal, atr, tick, structure);
            && OnGrid(e.price, tick)
            && (if long then e.price <= signal else e.price >= signal)
            && (e.basis != AtSignal && structure.Some? ==>
                  if long then structure.value <= e.price else e.price <= structure.value)
  {
    var e := ComputeSmartEntryPrice(bars, long, signal, atr, tick, structure);
    if e.basis != AtSignal {
      var candles := Candles(bars);
      var raw := if e.basis == AtPoc then V.Poc(candles, Max(atr / 20.0, tick)).value
          else RollingVwap(candles, LOOKBACK_CANDLES).value;
      assert e.price == RoundToTick(raw, tick) && Favorable(raw, long, signal, structure);
      RoundingLandsOnGrid(raw, tick);
      if long { RoundingIsMonotone(raw, signal, tick); } else { RoundingIsMonotone(signal, raw, tick); }
      if structure.Some? {
        if long {
          RoundingIsMonotone(structure.value, raw, tick);
        } else {
          RoundingIsMonotone(raw, structure.value, tick);
        }
      }
    }
  }

  // Some reference price is favourable at all.
  predicate HasFavorable(long: bool, signal: real, structure: Option<real>) {
    structure.Some? ==> if long then structure.value <= signal else signal <= structure.value
  }

  // The signal does not round to its worse side, nor the structure level past itself.
  predicate RoundsInward(long: bool, signal: real, tick: real, structure: Option<real>) {
    && (if long then RoundToTick(signal, tick) <= signal else RoundToTick(signal, tick) >= signal)
    && (structure.Some? ==>
          if long then RoundToTick(structure.value, tick) >= structure.value
          else RoundToTick(structure.value, tick) <= structure.value)
  }

  // Every favourable reference price is still favourable once rounded exactly when the
  // two limits round inward (or leave no favourable price at all). Grid prices do.
  lemma RoundedEntriesStayFavorableIff(long: bool, signal: real, tick: real, structure: Option<real>)
    ensures (forall raw :: Favorable(raw, long, signal, structure) ==>
                             Favorable(RoundToTick(raw, tick), long, signal, structure))
       <==> !HasFavorable(long, signal, structure) || RoundsInward(long, signal, tick, structure)
  {
    forall raw | Favorable(raw, long, signal, structure) && RoundsInward(long, signal, tick, structure)
      ensures Favorable(RoundToTick(raw, tick), long, signal, structure)
    {
      if long { RoundingIsMonotone(raw, signal, tick); } else { RoundingIsMonotone(signal, raw, tick); }
      if structure.Some? {
        if long {
          RoundingIsMonotone(structure.value, raw, tick);
        } else {
          RoundingIsMonotone(raw, structure.value, tick);
        }
      }
    }
    if HasFavorable(long, signal, structure) {
      assert Favorable(signal, long, signal, structure);
      assert structure.Some? ==> Favorable(structure.value, long, signal, structure);
    }
  }

  // ----- An entry that crosses its signal ---------------------------------------------------

  // Six five-minute candles, flat, 0.4 apart from 20,000.4 up; the first trades most.
  function SixCandles(): seq<Bar> {
    seq(6, i => Bar(300_000 * i, 20_000.4 + 0.4 * i as real, 20_000.4 + 0.4 * i as real, 20_000.4 + 0.4 * i as real,
                    20_000.4 + 0.4 * i as real, if i == 0 then 2.0 else 1.0))
  }

  lemma SixCandlesAreCandles()
    ensures Candles(SixCandles()) == SixCandles()
  {
    var bars := SixCandles();
    forall i | 0 <= i < |bars|
      ensures CandleStart()(bars[i].time) == bars[i].time
    {
      MultipleStays(i);
    }
    assert forall i, j :: 0 <= i < j < |bars| ==> TimeKey(bars[i]) < TimeKey(bars[j]);
    OwnBucketsAreKept(bars, CandleStart());
  }

  lemma MultipleStays(i: nat)
    ensures 300_000 * i / 300_000 * 300_000 == 300_000 * i
  {
  }

  lemma PriceBucket(i: nat)
    ensures V.BucketIndex(20_000.4 + 0.4 * i as real, 0.4) == 50_001 + i
  {
    assert (20_000.4 + 0.4 * i as real) / 0.4 == 50_001.0 + i as real;
  }

  lemma SixCandlesPoc()
    ensures V.Poc(SixCandles(), 0.4) == Some(20_000.4)
  {
    var bars := SixCandles();
    forall i | 0 <= i < |bars|
      ensures V.BucketIndex(bars[i].low, 0.4) == V.BucketIndex(bars[i].high, 0.4) == 50_001 + i
    {
      PriceBucket(i);
    }
    V.LevelsOfOneEach(bars, 0.4, 50_001);
    var levels := V.Levels(bars, 0.4);
    V.OnePoc(levels, 0, V.PocIndex(levels));
    assert levels[0] == V.Level(50_001, 2.0);
  }

  // With an ATR of 8 the profile's buckets are 0.4 wide, off the tick grid; a long
  // signalled at 20,000.4, the point of control, is rested at 20,000.5, above it.
  lemma OffGridEntryCanCross()
    ensures ComputeSmartEntryPrice(SixCandles(), true, 20_000.4, 8.0, 0.25, None) == Entry(20_000.5, AtPoc)
  {
    SixCandlesAreCandles();
    SixCandlesPoc();
    assert Max(8.0 / 20.0, 0.25) == 0.4;
    assert 20_000.4 / 0.25 == 80_001.6;
    assert RoundToTick(20_000.4, 0.25) == 20_000.5;
  }

  // A VWAP entry is within half a tick of the span of the six candles it averages.
  lemma VwapEntryWithinCandles(bars: seq<Bar>, long: bool, signal: real, atr: real, tick: real,
                               structure: Option<real>, low: real, high: real)
    requires tick > 0.0
    requires ComputeSmartEntryPrice(bars, long, signal, atr, tick, structure).basis == AtVwap
    requires forall i :: 0 <= i < |bars| ==> Sane(bars[i]) && bars[i].volume >= 0.0
    requires forall b :: b in Candles(bars) ==> low <= b.low && b.high <= high
    ensures var e := ComputeSmartEntryPrice(bars, long, signal, atr, tick, structure);
            low - tick / 2.0 <= e.price <= high + tick / 2.0
  {
    var candles := Candles(bars);
    CandlesAreWithin(bars, low, high);
    assert LastBars(candles, LOOKBACK_CANDLES) == candles;
    VwapWithinBounds(candles, LOOKBACK_CANDLES, low, high);
    RoundingMovesHalfATick(RollingVwap(candles, LOOKBACK_CANDLES).value, tick);
  }

  lemma CandlesAreWithin(bars: seq<Bar>, low: real, high: real)
    requires forall i :: 0 <= i < |bars| ==> Sane(bars[i]) && bars[i].volume >= 0.0
    requires forall b :: b in Candles(bars) ==> low <= b.low && b.high <= high
    ensures WithinPrices(Candles(bars), low, high)
  {
    var candles, all := Candles(bars), Aggregate(bars, CandleStart());
    AggregateIsAscending(bars, CandleStart());
    AggregateIsNonNegative(bars, CandleStart());
    assert AllSane(bars);
    forall i | 0 <= i < |candles|
      ensures low <= candles[i].low <= candles[i].close <= candles[i].high <= high && candles[i].volume >= 0.0
    {
      assert candles[i] in candles;
      assert candles[i] == all[|all| - |candles| + i];
    }
  }

  lemma AggregateIsNonNegative(bars: seq<Bar>, start: Bucketing)
    requires forall i :: 0 <= i < |bars| ==> bars[i].volume >= 0.0
    ensures forall i :: 0 <= i < |Aggregate(bars, start)| ==> Aggregate(bars, start)[i].volume >= 0.0
  {
    BucketsAreNonNegative(bars, start);
    var r := Aggregate(bars, start);
    forall i | 0 <= i < |r|
      ensures r[i].volume >= 0.0
    {
      assert r[i] in multiset(Buckets(bars, start));
    }
  }

  lemma {:induction false} BucketsAreNonNegative(bars: seq<Bar>, start: Bucketing)
    requires forall i :: 0 <= i < |bars| ==> bars[i].volume >= 0.0
    ensures forall i :: 0 <= i < |Buckets(bars, start)| ==> Buckets(bars, start)[i].volume >= 0.0
  {
    if bars != [] {
      BucketsAreNonNegative(bars[..|bars| - 1], start);
    }
  }

  lemma OlderBarsLeaveTheCandles(older: seq<Bar>, bars: seq<Bar>, start: Bucketing, n: nat)
    requires Ascending(older + bars) && Monotone(start)
    requires older != [] && bars != [] ==> start(older[|older| - 1].time) < start(bars[0].time)
    requires |Aggregate(bars, start)| >= n > 0
    ensures LastBars(Aggregate(older + bars, start), n) == LastBars(Aggregate(bars, start), n)
  {
    OlderBarsOnlyPrepend(older, bars, start);
    AscendingBuckets(older + bars, start);
    AscendingBuckets(bars, start);
    LastOfConcat(Buckets(older, start), Buckets(bars, start), n);
  }

  lemma LastOfConcat(older: seq<Bar>, bars: seq<Bar>, n: nat)
    requires |bars| >= n > 0
    ensures LastBars(older + bars, n) == LastBars(bars, n)
  {
    assert (older + bars)[|older + bars| - n..] == bars[|bars| - n..];
  }

  // Only the six candles matter: older bars in earlier buckets change nothing.
  lemma OlderBarsChangeNothing(older: seq<Bar>, bars: seq<Bar>, long: bool, signal: real, atr: real, tick: real,
                               structure: Option<real>)
    requires Ascending(older + bars)
    requires older != [] && bars != [] ==> CandleStart()(older[|older| - 1].time) < CandleStart()(bars[0].time)
    requires |Aggregate(bars, CandleStart())| >= LOOKBACK_CANDLES
    ensures ComputeSmartEntryPrice(older + bars, long, signal, atr, tick, structure)
         == ComputeSmartEntryPrice(bars, long, signal, atr, tick, structure)
  {
    BoundaryIsMonotone(CANDLE_MINUTES * 60_000);
    OlderBarsLeaveTheCandles(older, bars, CandleStart(), LOOKBACK_CANDLES);
  }
}
