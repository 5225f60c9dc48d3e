// Swing highs and lows: bars that nothing within a window around them passes.

module PivotDetection {
  import opened BarAggregation

  datatype PivotKind = High | Low

  datatype Pivot = Pivot(price: real, kind: PivotKind)

  function PivotPrice(p: Pivot): real {
    p.price
  }

  // No bar within `around` of bar `i` goes higher (lower).
  predicate IsSwing(bars: seq<Bar>, i: nat, around: nat, kind: PivotKind)
    requires i < |bars|
  {
    match kind
    case High => forall j :: 0 <= j < |bars| && i - around <= j <= i + around ==> bars[j].high <= bars[i].high
    case Low => forall j :: 0 <= j < |bars| && i - around <= j <= i + around ==> bars[i].low <= bars[j].low
  }

  function PivotsOfBar(bars: seq<Bar>, i: nat, around: nat): seq<Pivot>
    requires i < |bars|
  {
    (if IsSwing(bars, i, around, High) then [Pivot(bars[i].high, High)] else []) +
    (if IsSwing(bars, i, around, Low) then [Pivot(bars[i].low, Low)] else [])
  }

  // The pivots of the bars from `first` up to `end`.
  function PivotsBetween(bars: seq<Bar>, around: nat, first: nat, end: int): seq<Pivot>
    requires end <= |bars|
    decreases end
  {
    if end <= first then [] else PivotsBetween(bars, around, first, end - 1) + PivotsOfBar(bars, end - 1, around)
  }

  // A bar too near either end of the chart is no pivot.
  function Pivots(bars: seq<Bar>, around: nat): seq<Pivot> {
    PivotsBetween(bars, around, around, |bars| - around)
  }

  method Highest(window: seq<Bar>) returns (high: real)
    requires window != []
    ensures exists j :: 0 <= j < |window| && window[j].high == high
    ensures forall j :: 0 <= j < |window| ==> window[j].high <= high
  {
    high := window[0].high;
    for k := 1 to |window|
      invariant exists j :: 0 <= j < k && window[j].high == high
      invariant forall j :: 0 <= j < k ==> window[j].high <= high
    {
      if window[k].high > high { high := window[k].high; }
    }
  }

  method Lowest(window: seq<Bar>) returns (low: real)
    requires window != []
    ensures exists j :: 0 <= j < |window| && window[j].low == low
    ensures forall j :: 0 <= j < |window| ==> low <= window[j].low
  {
    low := window[0].low;
    for k := 1 to |window|
      invariant exists j :: 0 <= j < k && window[j].low == low
      invariant forall j :: 0 <= j < k ==> low <= window[j].low
    {
      if window[k].low < low { low := window[k].low; }
    }
  }

  ghost predicate AreExtremes(window: seq<Bar>, high: real, low: real) {
    && (exists j :: 0 <= j < |window| && window[j].high == high)
    && (exists j :: 0 <= j < |window| && window[j].low == low)
    && (forall j :: 0 <= j < |window| ==> window[j].high <= high && low <= window[j].low)
  }

  lemma SwingIsExtreme(bars: seq<Bar>, i: nat, around: nat, high: real, low: real)
    requires around <= i < |bars| - around
    requires AreExtremes(bars[i - around..i + around + 1], high, low)
    ensures bars[i].high == high <==> IsSwing(bars, i, around, High)
    ensures bars[i].low == low <==> IsSwing(bars, i, around, Low)
  {
    var window := bars[i - around..i + around + 1];
    assert forall j :: i - around <= j <= i + around ==> bars[j] == window[j - (i - around)];
    assert window[around] == bars[i];
  }

  // The loop's turn for one bar with a full window on both sides.
  method PushPivots(bars: seq<Bar>, i: nat, around: nat, before: seq<Pivot>) returns (pivots: seq<Pivot>)
    requires around <= i < |bars| - around && before == PivotsBetween(bars, around, around, i)
    ensures pivots == PivotsBetween(bars, around, around, i + 1)
  {
    var window := bars[i - around..i + around + 1];
    var bar := bars[i];
    var high := Highest(window);
    var low := Lowest(window);
    SwingIsExtreme(bars, i, around, high, low);
    var found: seq<Pivot> := [];
    if bar.high == high { found := found + [Pivot(bar.high, High)]; }
    if bar.low == low { found := found + [Pivot(bar.low, Low)]; }
    assert found == PivotsOfBar(bars, i, around);
    pivots := before + found;
  }

  method DetectPivots(bars: seq<Bar>, around: nat) returns (pivots: seq<Pivot>)
    ensures pivots == Pivots(bars, around)
  {
    pivots := [];
    var stop := |bars| - around;
    if stop <= around { return; }
    for i := around to stop
      invariant pivots == PivotsBetween(bars, around, around, i)
    {
      pivots := PushPivots(bars, i, around, pivots);
    }
  }

  // Bar `i` is at least `around` bars from either end, and `p` is its high or low, which
  // no bar within `around` of it passes.
  predicate MakesPivot(bars: seq<Bar>, around: nat, i: int, p: Pivot) {
    && around <= i < |bars| - around
    && match p.kind
       case High => p.price == bars[i].high && forall j :: i - around <= j <= i + around ==> bars[j].high <= p.price
       case Low => p.price == bars[i].low && forall j :: i - around <= j <= i + around ==> p.price <= bars[j].low
  }

  lemma PivotsOfBarAre(bars: seq<Bar>, around: nat, i: nat, p: Pivot)
    requires around <= i < |bars| - around
    ensures p in PivotsOfBar(bars, i, around) <==> MakesPivot(bars, around, i, p)
  {
    assert IsSwing(bars, i, around, High) <==> MakesPivot(bars, around, i, Pivot(bars[i].high, High));
    assert IsSwing(bars, i, around, Low) <==> MakesPivot(bars, around, i, Pivot(bars[i].low, Low));
  }

  lemma InConcat(before: seq<Pivot>, found: seq<Pivot>, p: Pivot)
    ensures p in before + found <==> p in before || p in found
  {
  }

  lemma InNext(bars: seq<Bar>, around: nat, last: nat, p: Pivot)
    requires around <= last < |bars| - around
    ensures p in PivotsBetween(bars, around, around, last + 1)
       <==> p in PivotsBetween(bars, around, around, last) || MakesPivot(bars, around, last, p)
  {
    PivotsOfBarAre(bars, around, last, p);
    InConcat(PivotsBetween(bars, around, around, last), PivotsOfBar(bars, last, around), p);
  }

  // Every pivot is the high or low of some bar that no bar within the window passes ...
  lemma {:induction false} PivotHasMaker(bars: seq<Bar>, around: nat, end: nat, p: Pivot) returns (i: nat)
    requires end <= |bars| - around && p in PivotsBetween(bars, around, around, end)
    ensures around <= i < end && MakesPivot(bars, around, i, p)
    decreases end
  {
    i := end - 1;
    InNext(bars, around, i, p);
    if p in PivotsBetween(bars, around, around, i) {
      i := PivotHasMaker(bars, around, i, p);
    }
  }

  // ... and every such high or low is a pivot.
  lemma {:induction false} MakerHasPivot(bars: seq<Bar>, around: nat, end: nat, p: Pivot, i: nat)
    requires i < end <= |bars| - around && MakesPivot(bars, around, i, p)
    ensures p in PivotsBetween(bars, around, around, end)
    decreases end
  {
    InNext(bars, around, end - 1, p);
    if i < end - 1 { MakerHasPivot(bars, around, end - 1, p, i); }
  }
}
