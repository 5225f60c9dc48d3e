// Support and resistance levels: swing pivots, clustered into runs of neighbouring
// prices. Prices are exact numbers.

module SupportResistance {
  import opened BarAggregation
  import opened PivotDetection
  import opened Sequences
  import opened Sorting

  const PIVOT_LOOKAROUND: nat := 3
  const CLUSTER_TOLERANCE_ATR_MULTIPLE: real := 0.5

  // ----- clusterLevels ---------------------------------------------------------------

  type Cluster = c: seq<real> | c != [] witness [0.0]

  predicate Near(a: real, b: real, tolerance: real) {
    b - a <= tolerance
  }

  // The loop's step: the next price joins the last cluster or opens one.
  function Place(clusters: seq<Cluster>, price: real, tolerance: real): seq<Cluster> {
    var n := |clusters|;
    if n > 0 && Near(clusters[n - 1][|clusters[n - 1]| - 1], price, tolerance)
    then clusters[n - 1 := clusters[n - 1] + [price]]
    else clusters + [[price]]
  }

  function Clusters(prices: seq<real>, tolerance: real): seq<Cluster> {
    if prices == [] then [] else Place(Clusters(prices[..|prices| - 1], tolerance), prices[|prices| - 1], tolerance)
  }

  // Consecutive pieces of the prices, in order ...
  ghost predicate Cuts(clusters: seq<Cluster>, prices: seq<real>) {
    Concat(clusters) == prices
  }

  // ... small steps inside a piece ...
  ghost predicate Tight(c: Cluster, tolerance: real) {
    forall i, j :: 0 <= i < |c| && j == i + 1 && j < |c| ==> c[j] - c[i] <= tolerance
  }

  // ... and a larger step from each piece to the next: the pieces are maximal runs.
  ghost predicate Apart(c: Cluster, d: Cluster, tolerance: real) {
    d[0] - c[|c| - 1] > tolerance
  }

  ghost predicate AreRuns(clusters: seq<Cluster>, tolerance: real) {
    && (forall k :: 0 <= k < |clusters| ==> Tight(clusters[k], tolerance))
    && (forall k, l :: 0 <= k < |clusters| && l == k + 1 && l < |clusters| ==>
        Apart(clusters[k], clusters[l], tolerance))
  }

  ghost predicate AreMaximalRuns(clusters: seq<Cluster>, prices: seq<real>, tolerance: real) {
    Cuts(clusters, prices) && AreRuns(clusters, tolerance)
  }

  lemma PlaceKeepsRuns(clusters: seq<Cluster>, prices: seq<real>, price: real, tolerance: real)
    requires AreMaximalRuns(clusters, prices, tolerance)
    ensures AreMaximalRuns(Place(clusters, price, tolerance), prices + [price], tolerance)
  {
    var n := |clusters|;
    var placed := Place(clusters, price, tolerance);
    if n > 0 && Near(clusters[n - 1][|clusters[n - 1]| - 1], price, tolerance) {
      assert clusters == clusters[..n - 1] + [clusters[n - 1]];
      assert placed == clusters[..n - 1] + [clusters[n - 1] + [price]];
      ConcatOfMore(clusters[..n - 1], clusters[n - 1]);
      ConcatOfMore(clusters[..n - 1], clusters[n - 1] + [price]);
      assert Tight(placed[n - 1], tolerance);
    } else {
      ConcatOfMore(clusters, [price]);
      assert Tight([price], tolerance);
    }
  }

  lemma {:induction false} ClustersAreMaximalRuns(prices: seq<real>, tolerance: real)
    ensures AreMaximalRuns(Clusters(prices, tolerance), prices, tolerance)
  {
    if prices != [] {
      var front := prices[..|prices| - 1];
      ClustersAreMaximalRuns(front, tolerance);
      PlaceKeepsRuns(Clusters(front, tolerance), front, prices[|prices| - 1], tolerance);
      assert front + [prices[|prices| - 1]] == prices;
    }
  }

  lemma ClustersHoldPrices(clusters: seq<Cluster>)
    ensures clusters != [] ==> Concat(clusters) != []
  {
    if clusters != [] {
      var n := |clusters|;
      assert |Concat(clusters)| == |Concat(clusters[..n - 1])| + |clusters[n - 1]|;
    }
  }

  // Taking the last price away again.
  function Unplace(clusters: seq<Cluster>): seq<Cluster>
    requires clusters != []
  {
    var n := |clusters|;
    var last := clusters[n - 1];
    if |last| == 1 then clusters[..n - 1] else clusters[n - 1 := last[..|last| - 1]]
  }

  lemma UnplaceCuts(clusters: seq<Cluster>, prices: seq<real>)
    requires Cuts(clusters, prices) && prices != []
    ensures clusters != []
    ensures var last := clusters[|clusters| - 1]; prices[|prices| - 1] == last[|last| - 1]
    ensures Cuts(Unplace(clusters), prices[..|prices| - 1])
  {
    var n := |clusters|;
    var last := clusters[n - 1];
    var front := Concat(clusters[..n - 1]);
    assert prices == front + last;
    assert prices[..|prices| - 1] == front + last[..|last| - 1];
    if |last| > 1 {
      assert Unplace(clusters) == clusters[..n - 1] + [last[..|last| - 1]];
      ConcatOfMore(clusters[..n - 1], last[..|last| - 1]);
    } else {
      assert front + [] == front;
    }
  }

  lemma UnplaceKeepsRuns(clusters: seq<Cluster>, tolerance: real)
    requires clusters != [] && AreRuns(clusters, tolerance)
    ensures AreRuns(Unplace(clusters), tolerance)
  {
    var n := |clusters|;
    var last := clusters[n - 1];
    if |last| > 1 {
      assert forall i :: 0 <= i < |last| - 1 ==> last[..|last| - 1][i] == last[i];
    }
  }

  lemma UnplaceUndoesPlace(clusters: seq<Cluster>, tolerance: real)
    requires clusters != [] && AreRuns(clusters, tolerance)
    ensures var last := clusters[|clusters| - 1];
            clusters == Place(Unplace(clusters), last[|last| - 1], tolerance)
  {
    var n := |clusters|;
    var last := clusters[n - 1];
    if |last| > 1 {
      assert Near(last[|last| - 2], last[|last| - 1], tolerance);
      assert last[..|last| - 1] + [last[|last| - 1]] == last;
      assert Unplace(clusters)[n - 1 := last] == clusters;
    } else {
      assert clusters == clusters[..n - 1] + [last] && last == [last[0]];
      assert n > 1 ==> Apart(clusters[n - 2], clusters[n - 1], tolerance);
    }
  }

  // The only way to cut the prices into maximal runs.
  lemma {:induction false} MaximalRunsAreUnique(clusters: seq<Cluster>, prices: seq<real>, tolerance: real)
    requires AreMaximalRuns(clusters, prices, tolerance)
    ensures clusters == Clusters(prices, tolerance)
    decreases |prices|
  {
    if prices == [] {
      ClustersHoldPrices(clusters);
    } else {
      UnplaceCuts(clusters, prices);
      UnplaceKeepsRuns(clusters, tolerance);
      UnplaceUndoesPlace(clusters, tolerance);
      MaximalRunsAreUnique(Unplace(clusters), prices[..|prices| - 1], tolerance);
    }
  }

  datatype Level = Level(price: real, touches: nat)

  function LevelPrice(l: Level): real {
    l.price
  }

  function Itself(x: real): real {
    x
  }

  function LevelOf(c: Cluster): Level {
    Level(SumBy(c, Itself) / |c| as real, |c|)
  }

  function SortedPrices(pivots: seq<Pivot>): seq<real> {
    Map(PivotPrice, SortBy(pivots, PivotPrice))
  }

  function Levels(pivots: seq<Pivot>, tolerance: real): seq<Level> {
    if pivots == [] || tolerance <= 0.0 then [] else Map(LevelOf, Clusters(SortedPrices(pivots), tolerance))
  }

  method ClusterLevels(pivots: seq<Pivot>, tolerance: real) returns (levels: seq<Level>)
    ensures levels == Levels(pivots, tolerance)
  {
    if |pivots| == 0 || tolerance <= 0.0 { return []; }
    var sorted := SortBy(pivots, PivotPrice);
    ghost var prices := SortedPrices(pivots);
    var clusters: seq<Cluster> := [];
    for n := 0 to |sorted|
      invariant clusters == Clusters(prices[..n], tolerance)
    {
      assert prices[..n + 1][..n] == prices[..n] && prices[n] == sorted[n].price;
      if |clusters| > 0 {
        var current := clusters[|clusters| - 1];
        if sorted[n].price - current[|current| - 1] <= tolerance {
          clusters := clusters[|clusters| - 1 := current + [sorted[n].price]];
          continue;
        }
      }
      clusters := clusters + [[sorted[n].price]];
    }
    assert prices[..|sorted|] == prices;
    levels := Map(LevelOf, clusters);
  }

  // ----- What the levels are ------------------------------------------------------------

  function Touches(l: Level): real {
    l.touches as real
  }

  lemma {:induction false} TouchesOfClusters(clusters: seq<Cluster>)
    ensures SumBy(Map(LevelOf, clusters), Touches) == |Concat(clusters)| as real
  {
    if clusters != [] {
      var n := |clusters|;
      TouchesOfClusters(clusters[..n - 1]);
      assert Map(LevelOf, clusters)[..n - 1] == Map(LevelOf, clusters[..n - 1]);
    }
  }

  // Every pivot is counted in exactly one level.
  lemma TouchesAddUp(pivots: seq<Pivot>, tolerance: real)
    requires tolerance > 0.0
    ensures SumBy(Levels(pivots, tolerance), Touches) == |pivots| as real
  {
    if pivots != [] {
      var prices := SortedPrices(pivots);
      ClustersAreMaximalRuns(prices, tolerance);
      TouchesOfClusters(Clusters(prices, tolerance));
    }
  }

  // ----- Levels lie inside their runs, and the runs lie apart ------------------------------

  lemma {:induction false} SumWithin(c: seq<real>, low: real, high: real)
    requires forall i :: 0 <= i < |c| ==> low <= c[i] <= high
    ensures low * |c| as real <= SumBy(c, Itself) <= high * |c| as real
  {
    if c != [] {
      SumWithin(c[..|c| - 1], low, high);
    }
  }

  lemma QuotientWithin(sum: real, n: real, low: real, high: real)
    requires n > 0.0 && low * n <= sum <= high * n
    ensures low <= sum / n <= high
  {
    var q := sum / n;
    assert q * n == sum;
    assert q < low ==> (low - q) * n > 0.0;
    assert q > high ==> (q - high) * n > 0.0;
  }

  lemma MeanWithin(c: Cluster)
    requires AscendingReals(c)
    ensures c[0] <= LevelOf(c).price <= c[|c| - 1]
  {
    SumWithin(c, c[0], c[|c| - 1]);
    QuotientWithin(SumBy(c, Itself), |c| as real, c[0], c[|c| - 1]);
  }

  lemma {:induction false} PiecesAscend(clusters: seq<Cluster>, prices: seq<real>, k: nat)
    requires Cuts(clusters, prices) && AscendingReals(prices) && k < |clusters|
    ensures AscendingReals(clusters[k])
  {
    var n := |clusters|;
    var front := Concat(clusters[..n - 1]);
    assert prices == front + clusters[n - 1];
    if k == n - 1 {
      assert forall i :: 0 <= i < |clusters[k]| ==> clusters[k][i] == prices[|front| + i];
    } else {
      assert forall i :: 0 <= i < |front| ==> front[i] == prices[i];
      PiecesAscend(clusters[..n - 1], front, k);
    }
  }

  lemma SortedPricesAscend(pivots: seq<Pivot>)
    ensures AscendingReals(SortedPrices(pivots))
    ensures multiset(SortedPrices(pivots)) == multiset(Map(PivotPrice, pivots))
  {
    var sorted := SortBy(pivots, PivotPrice);
    assert forall i :: 0 <= i < |sorted| ==> SortedPrices(pivots)[i] == PivotPrice(sorted[i]);
    MapOfPermutation(PivotPrice, sorted, pivots);
  }

  // Each level lies between the least and the greatest price of its run.
  lemma LevelsLieInTheirRuns(pivots: seq<Pivot>, tolerance: real)
    ensures var clusters := Clusters(SortedPrices(pivots), tolerance);
            var levels := Levels(pivots, tolerance);
            && |levels| <= |clusters|
            && forall k :: 0 <= k < |levels| ==> clusters[k][0] <= levels[k].price <= clusters[k][|clusters[k]| - 1]
  {
    var prices := SortedPrices(pivots);
    var clusters := Clusters(prices, tolerance);
    var levels := Levels(pivots, tolerance);
    SortedPricesAscend(pivots);
    ClustersAreMaximalRuns(prices, tolerance);
    forall k | 0 <= k < |levels|
      ensures clusters[k][0] <= levels[k].price <= clusters[k][|clusters[k]| - 1]
    {
      PiecesAscend(clusters, prices, k);
      MeanWithin(clusters[k]);
    }
  }

  // Successive levels are more than the tolerance apart.
  lemma LevelsLieApart(pivots: seq<Pivot>, tolerance: real)
    ensures FarApart(Map(LevelPrice, Levels(pivots, tolerance)), tolerance)
  {
    var clusters := Clusters(SortedPrices(pivots), tolerance);
    var levels := Levels(pivots, tolerance);
    var prices := Map(LevelPrice, levels);
    ClustersAreMaximalRuns(SortedPrices(pivots), tolerance);
    LevelsLieInTheirRuns(pivots, tolerance);
    forall i, j | 0 <= i < |prices| && j == i + 1 && j < |prices|
      ensures !Near(prices[i], prices[j], tolerance)
    {
      assert Apart(clusters[i], clusters[j], tolerance);
      assert prices[i] == levels[i].price && prices[j] == levels[j].price;
    }
  }

  // Each price more than the tolerance above the one before it.
  ghost predicate FarApart(prices: seq<real>, tolerance: real) {
    forall i, j :: 0 <= i < |prices| && j == i + 1 && j < |prices| ==> !Near(prices[i], prices[j], tolerance)
  }

  lemma {:induction false} FarApartAscends(prices: seq<real>, tolerance: real, i: nat, j: nat)
    requires FarApart(prices, tolerance) && tolerance > 0.0 && i < j < |prices|
    ensures prices[i] < prices[j]
    decreases j
  {
    assert !Near(prices[j - 1], prices[j], tolerance);
    if i < j - 1 { FarApartAscends(prices, tolerance, i, j - 1); }
  }

  // The final sort by price changes nothing.
  lemma LevelsComeSorted(pivots: seq<Pivot>, tolerance: real)
    ensures StrictlySortedBy(Levels(pivots, tolerance), LevelPrice)
    ensures SortBy(Levels(pivots, tolerance), LevelPrice) == Levels(pivots, tolerance)
  {
    var levels := Levels(pivots, tolerance);
    LevelsLieApart(pivots, tolerance);
    forall i, j | 0 <= i < j < |levels|
      ensures LevelPrice(levels[i]) < LevelPrice(levels[j])
    {
      FarApartAscends(Map(LevelPrice, levels), tolerance, i, j);
    }
    SortedIsFixed(levels, LevelPrice);
  }

  // Only the prices of the pivots matter, and not their order.
  lemma PivotOrderIsIrrelevant(pivots: seq<Pivot>, others: seq<Pivot>, tolerance: real)
    requires multiset(Map(PivotPrice, pivots)) == multiset(Map(PivotPrice, others))
    ensures Levels(pivots, tolerance) == Levels(others, tolerance)
  {
    SortedPricesAscend(pivots);
    SortedPricesAscend(others);
    AscendingIsUnique(SortedPrices(pivots), SortedPrices(others));
    assert |multiset(Map(PivotPrice, pivots))| == |pivots| && |multiset(Map(PivotPrice, others))| == |others|;
  }

  // ----- Clustering the levels again ------------------------------------------------------------

  function AsPivot(l: Level): Pivot {
    Pivot(l.price, High)
  }

  function Singleton(x: real): Cluster {
    [x]
  }

  lemma {:induction false} SingletonsConcat(prices: seq<real>)
    ensures Concat(Map(Singleton, prices)) == prices
  {
    if prices != [] {
      var n := |prices|;
      SingletonsConcat(prices[..n - 1]);
      assert Map(Singleton, prices)[..n - 1] == Map(Singleton, prices[..n - 1]);
      assert Concat(Map(Singleton, prices)) == Concat(Map(Singleton, prices)[..n - 1]) + Map(Singleton, prices)[n - 1];
    }
  }

  lemma FarApartPricesStayAlone(prices: seq<real>, tolerance: real)
    requires FarApart(prices, tolerance)
    ensures Clusters(prices, tolerance) == Map(Singleton, prices)
  {
    SingletonsConcat(prices);
    MaximalRunsAreUnique(Map(Singleton, prices), prices, tolerance);
  }

  lemma LoneLevelsKeepPrices(prices: seq<real>)
    ensures Map(LevelPrice, Map(LevelOf, Map(Singleton, prices))) == prices
  {
    var kept := Map(LevelPrice, Map(LevelOf, Map(Singleton, prices)));
    forall k | 0 <= k < |prices|
      ensures kept[k] == prices[k]
    {
      SumOfOne(prices[k], Itself);
    }
  }

  lemma LevelsAsPivots(pivots: seq<Pivot>, tolerance: real)
    ensures var levels := Levels(pivots, tolerance); SortedPrices(Map(AsPivot, levels)) == Map(LevelPrice, levels)
  {
    var levels := Levels(pivots, tolerance);
    var again := Map(AsPivot, levels);
    LevelsComeSorted(pivots, tolerance);
    assert forall i :: 0 <= i < |again| ==> PivotPrice(again[i]) == LevelPrice(levels[i]);
    SortedIsFixed(again, PivotPrice);
  }

  // Clustering level prices once more keeps every price.
  lemma ReclusteringKeepsPrices(pivots: seq<Pivot>, tolerance: real)
    ensures var levels := Levels(pivots, tolerance);
            Map(LevelPrice, Levels(Map(AsPivot, levels), tolerance)) == Map(LevelPrice, levels)
  {
    var levels := Levels(pivots, tolerance);
    if levels != [] {
      var prices := Map(LevelPrice, levels);
      LevelsAsPivots(pivots, tolerance);
      LevelsLieApart(pivots, tolerance);
      FarApartPricesStayAlone(prices, tolerance);
      LoneLevelsKeepPrices(prices);
    }
  }

  // ----- computeSupportResistanceLevels -------------------------------------------------------------

  datatype LevelType = Support | Resistance

  datatype SrLevel = SrLevel(price: real, touches: nat, kind: LevelType)

  function SrPrice(l: SrLevel): real {
    l.price
  }

  // Below `s` supports under the price, from `s` on resistances at or over it.
  ghost predicate DividesAt(levels: seq<SrLevel>, currentPrice: real, s: nat) {
    && s <= |levels|
    && (forall k :: 0 <= k < s ==> levels[k].kind == Support && levels[k].price < currentPrice)
    && (forall k :: s <= k < |levels| ==> levels[k].kind == Resistance && currentPrice <= levels[k].price)
  }

  function Typed(currentPrice: real): Level -> SrLevel {
    (c: Level) => SrLevel(c.price, c.touches, if c.price < currentPrice then Support else Resistance)
  }

  method ComputeSupportResistanceLevels(bars: seq<Bar>, currentPrice: real, atr: real) returns (levels: seq<SrLevel>)
    ensures atr <= 0.0 ==> levels == []
    ensures atr > 0.0 ==>
              levels == Map(Typed(currentPrice),
                            Levels(Pivots(bars, PIVOT_LOOKAROUND), atr * CLUSTER_TOLERANCE_ATR_MULTIPLE))
    ensures StrictlySortedBy(levels, SrPrice)
    ensures exists s :: DividesAt(levels, currentPrice, s)
  {
    levels := [];
    if atr <= 0.0 {
      assert DividesAt(levels, currentPrice, 0);
      return;
    }
    var pivots := DetectPivots(bars, PIVOT_LOOKAROUND);
    var clustered := ClusterLevels(pivots, atr * CLUSTER_TOLERANCE_ATR_MULTIPLE);
    levels := Map(Typed(currentPrice), clustered);
    TypedLevelsDivide(pivots, atr * CLUSTER_TOLERANCE_ATR_MULTIPLE, currentPrice);
    levels := SortBy(levels, SrPrice);
  }

  lemma TypedLevelsDivide(pivots: seq<Pivot>, tolerance: real, currentPrice: real)
    ensures var typed := Map(Typed(currentPrice), Levels(pivots, tolerance));
            && StrictlySortedBy(typed, SrPrice)
            && SortBy(typed, SrPrice) == typed
            && exists s :: DividesAt(typed, currentPrice, s)
  {
    var levels := Levels(pivots, tolerance);
    var typed := Map(Typed(currentPrice), levels);
    LevelsComeSorted(pivots, tolerance);
    assert forall k :: 0 <= k < |typed| ==> SrPrice(typed[k]) == LevelPrice(levels[k]);
    SortedIsFixed(typed, SrPrice);
    SortedTypesDivide(typed, currentPrice);
  }

  lemma SortedTypesDivide(typed: seq<SrLevel>, currentPrice: real)
    requires StrictlySortedBy(typed, SrPrice)
    requires forall k :: 0 <= k < |typed| ==>
               typed[k].kind == if typed[k].price < currentPrice then Support else Resistance
    ensures exists s :: DividesAt(typed, currentPrice, s)
  {
    var s := 0;
    while s < |typed| && typed[s].price < currentPrice
      invariant s <= |typed|
      invariant forall k :: 0 <= k < s ==> typed[k].price < currentPrice
    {
      s := s + 1;
    }
    assert forall k :: s < k < |typed| ==> SrPrice(typed[s]) < SrPrice(typed[k]);
    assert DividesAt(typed, currentPrice, s);
  }
}
