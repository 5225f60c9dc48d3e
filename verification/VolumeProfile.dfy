// Volume at price: each bar's volume spread evenly over the price buckets its
// range touches, the point of control, and the greedy value area around it.

module VolumeProfile {
  import opened Options
  import opened Sorting
  import opened BarAggregation

  // The map's keys are multiples of the bucket size; `bucket` is the multiple.
  datatype Level = Level(bucket: int, volume: real)

  datatype PricedLevel = PricedLevel(price: real, volume: real)

  datatype Profile = Profile(levels: seq<PricedLevel>, poc: Option<real>, valueAreaHigh: Option<real>,
                             valueAreaLow: Option<real>)

  const EMPTY_PROFILE := Profile([], None, None, None)

  function BucketKey(l: Level): real {
    l.bucket as real
  }

  function VolumeOf(l: Level): real {
    l.volume
  }

  function Price(l: Level, size: real): real {
    l.bucket as real * size
  }

  function Priced(levels: seq<Level>, size: real): seq<PricedLevel> {
    seq(|levels|, i requires 0 <= i < |levels| => PricedLevel(Price(levels[i], size), levels[i].volume))
  }

  // ----- Spreading -------------------------------------------------------------

  function BucketIndex(price: real, size: real): int
    requires size > 0.0
  {
    (price / size).Floor
  }

  function LevelIndex(levels: seq<Level>, bucket: int): (i: nat)
    ensures i <= |levels|
    ensures i < |levels| ==> levels[i].bucket == bucket
    ensures forall j :: 0 <= j < i ==> levels[j].bucket != bucket
  {
    if levels == [] || levels[0].bucket == bucket then 0 else 1 + LevelIndex(levels[1..], bucket)
  }

  // buckets.set(key, (buckets.get(key) ?? 0) + volume)
  function AddAt(levels: seq<Level>, bucket: int, volume: real): seq<Level> {
    var i := LevelIndex(levels, bucket);
    if i < |levels| then levels[i := Level(bucket, levels[i].volume + volume)] else levels + [Level(bucket, volume)]
  }

  // The buckets a bar touches: `count` of them from `first`, an equal share of
  // its volume in each. A bar whose high lies below its low may touch none.
  datatype Slice = Slice(first: int, count: nat, share: real)

  function SliceOf(b: Bar, size: real): Slice
    requires size > 0.0
  {
    var (lo, hi) := (BucketIndex(b.low, size), BucketIndex(b.high, size));
    if hi < lo then Slice(lo, 0, 0.0) else Slice(lo, hi - lo + 1, b.volume / (hi - lo + 1) as real)
  }

  // `n` of a slice's buckets filled.
  function Spread(levels: seq<Level>, s: Slice, n: nat): seq<Level> {
    if n == 0 then levels else AddAt(Spread(levels, s, n - 1), s.first + n - 1, s.share)
  }

  function SpreadAll(slices: seq<Slice>): seq<Level> {
    if slices == [] then []
    else
      var s := slices[|slices| - 1];
      Spread(SpreadAll(slices[..|slices| - 1]), s, s.count)
  }

  function Slices(bars: seq<Bar>, size: real): (r: seq<Slice>)
    requires size > 0.0
    ensures |r| == |bars|
  {
    seq(|bars|, i requires 0 <= i < |bars| => SliceOf(bars[i], size))
  }

  function Levels(bars: seq<Bar>, size: real): seq<Level>
    requires size > 0.0
  {
    SortBy(SpreadAll(Slices(bars, size)), BucketKey)
  }

  // ----- Point of control and value area ------------------------------------------

  // The first level with the greatest volume.
  predicate IsPoc(levels: seq<Level>, p: nat) {
    && p < |levels|
    && (forall i :: 0 <= i < |levels| ==> levels[i].volume <= levels[p].volume)
    && (forall i :: 0 <= i < p ==> levels[i].volume < levels[p].volume)
  }

  function PocIndex(levels: seq<Level>): (p: nat)
    requires levels != []
    ensures IsPoc(levels, p)
  {
    if |levels| == 1 then 0
    else
      var p := PocIndex(levels[..|levels| - 1]);
      if levels[|levels| - 1].volume > levels[p].volume then |levels| - 1 else p
  }

  function Covered(levels: seq<Level>, lo: nat, hi: nat): real
    requires lo <= hi < |levels|
  {
    SumBy(levels[lo..hi + 1], VolumeOf)
  }

  datatype Range = Range(lo: nat, hi: nat)

  predicate Within(levels: seq<Level>, r: Range) {
    r.lo <= r.hi < |levels|
  }

  // One turn of the expansion; the range itself when the turn ends in `break`.
  function Grow(levels: seq<Level>, r: Range): (g: Range)
    requires Within(levels, r)
    ensures Within(levels, g)
  {
    var below := if r.lo > 0 then levels[r.lo - 1].volume else -1.0;
    var above := if r.hi < |levels| - 1 then levels[r.hi + 1].volume else -1.0;
    if above >= below && r.hi < |levels| - 1 then Range(r.lo, r.hi + 1)
    else if r.lo > 0 then Range(r.lo - 1, r.hi)
    else r
  }

  predicate WantsMore(levels: seq<Level>, r: Range, target: real)
    requires Within(levels, r)
  {
    Covered(levels, r.lo, r.hi) < target && (r.lo > 0 || r.hi < |levels| - 1)
  }

  function Expand(levels: seq<Level>, r: Range, target: real): (v: Range)
    requires Within(levels, r)
    ensures Within(levels, v)
    decreases |levels| - (r.hi - r.lo)
  {
    if !WantsMore(levels, r, target) || Grow(levels, r) == r then r
    else Expand(levels, Grow(levels, r), target)
  }

  function Total(levels: seq<Level>): real {
    SumBy(levels, VolumeOf)
  }

  function Target(levels: seq<Level>, pct: real): real {
    Total(levels) * pct
  }

  function ValueArea(levels: seq<Level>, pct: real): (v: Range)
    requires levels != []
    ensures Within(levels, v)
  {
    var p := PocIndex(levels);
    Expand(levels, Range(p, p), Target(levels, pct))
  }

  function Poc(bars: seq<Bar>, size: real): Option<real> {
    if size <= 0.0 then None
    else
      var levels := Levels(bars, size);
      if levels == [] then None else Some(Price(levels[PocIndex(levels)], size))
  }

  // The point of control is the price of the first level of greatest volume; there is
  // none exactly without a bucket size or a level.
  lemma PocIs(bars: seq<Bar>, size: real)
    ensures Poc(bars, size).None? <==> size <= 0.0 || Levels(bars, size) == []
    ensures Poc(bars, size).Some? ==>
              exists p: nat :: IsPoc(Levels(bars, size), p)
                               && Poc(bars, size).value == Levels(bars, size)[p].bucket as real * size
  {
  }

  // ----- computeVolumeProfile ---------------------------------------------------------

  // Math.round(x / size)
  function NearestMultiple(x: real, size: real): int
    requires size > 0.0
  {
    (x / size + 0.5).Floor
  }

  lemma MultipleIsNearest(x: real, k: int, size: real)
    requires size > 0.0 && x == k as real * size
    ensures x / size == k as real
    ensures NearestMultiple(x, size) == k
  {
  }

  lemma CoveredOne(levels: seq<Level>, p: nat)
    requires p < |levels|
    ensures Covered(levels, p, p) == levels[p].volume
  {
    assert levels[p..p + 1] == [levels[p]];
    SumOfOne(levels[p], VolumeOf);
  }

  lemma CoveredGrows(levels: seq<Level>, lo: nat, hi: nat)
    requires lo <= hi < |levels|
    ensures hi + 1 < |levels| ==> Covered(levels, lo, hi + 1) == Covered(levels, lo, hi) + levels[hi + 1].volume
    ensures lo > 0 ==> Covered(levels, lo - 1, hi) == Covered(levels, lo, hi) + levels[lo - 1].volume
  {
    var here := levels[lo..hi + 1];
    if hi + 1 < |levels| {
      assert levels[lo..hi + 2] == here + [levels[hi + 1]];
      SumOfConcat(here, [levels[hi + 1]], VolumeOf);
      SumOfOne(levels[hi + 1], VolumeOf);
    }
    if lo > 0 {
      assert levels[lo - 1..hi + 1] == [levels[lo - 1]] + here;
      SumOfConcat([levels[lo - 1]], here, VolumeOf);
      SumOfOne(levels[lo - 1], VolumeOf);
    }
  }

  method ComputeVolumeProfile(bars: seq<Bar>, bucketSize: real, valueAreaPct: real) returns (profile: Profile)
    ensures bars == [] || bucketSize <= 0.0 || Levels(bars, bucketSize) == [] ==> profile == EMPTY_PROFILE
    ensures bars != [] && bucketSize > 0.0 && Levels(bars, bucketSize) != [] ==>
              var levels := Levels(bars, bucketSize);
              var (p, area) := (PocIndex(levels), ValueArea(levels, valueAreaPct));
              profile == Profile(Priced(levels, bucketSize), Some(Price(levels[p], bucketSize)),
                                 Some(Price(levels[area.hi], bucketSize)), Some(Price(levels[area.lo], bucketSize)))
    ensures bars != [] ==> profile.poc == Poc(bars, bucketSize)
  {
    if |bars| == 0 || bucketSize <= 0.0 {
      return EMPTY_PROFILE;
    }

    var buckets := FillBuckets(bars, bucketSize);
    var levels := SortBy(buckets, BucketKey);
    if |levels| == 0 {
      return EMPTY_PROFILE;
    }

    var pocIndex := FindPoc(levels);
    var lowIdx, highIdx := ExpandValueArea(levels, pocIndex, valueAreaPct);
    profile := Profile(Priced(levels, bucketSize), Some(Price(levels[pocIndex], bucketSize)),
                       Some(Price(levels[highIdx], bucketSize)), Some(Price(levels[lowIdx], bucketSize)));
  }

  method FindPoc(levels: seq<Level>) returns (pocIndex: nat)
    requires levels != []
    ensures pocIndex < |levels| && pocIndex == PocIndex(levels)
  {
    pocIndex := 0;
    for i := 1 to |levels|
      invariant IsPoc(levels[..i], pocIndex)
    {
      if levels[i].volume > levels[pocIndex].volume { pocIndex := i; }
    }
    assert levels[..|levels|] == levels;
    OnePoc(levels, pocIndex, PocIndex(levels));
  }

  lemma OnePoc(levels: seq<Level>, p: nat, q: nat)
    requires IsPoc(levels, p) && IsPoc(levels, q)
    ensures p == q
  {
    assert levels[p].volume <= levels[q].volume <= levels[p].volume;
  }

  // The bucket map, in insertion order.
  method FillBuckets(bars: seq<Bar>, bucketSize: real) returns (buckets: seq<Level>)
    requires bucketSize > 0.0
    ensures buckets == SpreadAll(Slices(bars, bucketSize))
  {
    ghost var slices := Slices(bars, bucketSize);
    buckets := [];
    for n := 0 to |bars|
      invariant buckets == SpreadAll(slices[..n])
    {
      var bar := bars[n];
      var lowBucket := (bar.low / bucketSize).Floor as real * bucketSize;
      var highBucket := (bar.high / bucketSize).Floor as real * bucketSize;
      var bucketCount := NearestMultiple(highBucket - lowBucket, bucketSize) + 1;
      SpanInBuckets(highBucket, lowBucket, BucketIndex(bar.high, bucketSize), BucketIndex(bar.low, bucketSize),
                    bucketSize);
      assert slices[..n + 1][..n] == slices[..n] && slices[n] == SliceOf(bar, bucketSize);
      if bucketCount > 0 {
        var volumePerBucket := bar.volume / bucketCount as real;
        buckets := FillOne(buckets, slices[n], lowBucket, bucketSize, bucketCount, volumePerBucket);
      }
    }
    assert slices[..|bars|] == slices;
  }

  method FillOne(before: seq<Level>, ghost s: Slice, lowBucket: real, bucketSize: real, bucketCount: nat,
                 volumePerBucket: real)
    returns (buckets: seq<Level>)
    requires bucketSize > 0.0 && lowBucket == s.first as real * bucketSize
    requires bucketCount == s.count && volumePerBucket == s.share
    ensures buckets == Spread(before, s, s.count)
  {
    buckets := before;
    for i := 0 to bucketCount
      invariant buckets == Spread(before, s, i)
    {
      KeyOfStep(lowBucket, s.first, i, bucketSize);
      var key := NearestMultiple(lowBucket + i as real * bucketSize, bucketSize);
      buckets := AddAt(buckets, key, volumePerBucket);
    }
  }

  lemma KeyOfStep(lowBucket: real, first: int, i: nat, size: real)
    requires size > 0.0 && lowBucket == first as real * size
    ensures NearestMultiple(lowBucket + i as real * size, size) == first + i
  {
    var x := lowBucket + i as real * size;
    var a := first as real;
    var b := i as real;
    assert a * size + b * size == (a + b) * size;
    MultipleIsNearest(x, first + i, size);
  }

  lemma SpanInBuckets(highBucket: real, lowBucket: real, hi: int, lo: int, size: real)
    requires size > 0.0 && highBucket == hi as real * size && lowBucket == lo as real * size
    ensures NearestMultiple(highBucket - lowBucket, size) == hi - lo
  {
    var x := highBucket - lowBucket;
    var a := hi as real;
    var b := lo as real;
    assert a * size - b * size == (a - b) * size;
    MultipleIsNearest(x, hi - lo, size);
  }

  method ExpandValueArea(levels: seq<Level>, pocIndex: nat, valueAreaPct: real) returns (lowIdx: nat, highIdx: nat)
    requires pocIndex < |levels| && pocIndex == PocIndex(levels)
    ensures Range(lowIdx, highIdx) == ValueArea(levels, valueAreaPct)
  {
    var totalVolume := SumVolumes(levels);
    var target := totalVolume * valueAreaPct;
    assert target == Target(levels, valueAreaPct);
    lowIdx, highIdx := ExpandFrom(levels, pocIndex, target);
  }

  method SumVolumes(levels: seq<Level>) returns (totalVolume: real)
    ensures totalVolume == Total(levels)
  {
    totalVolume := 0.0;
    for i := 0 to |levels|
      invariant totalVolume == SumBy(levels[..i], VolumeOf)
    {
      totalVolume := totalVolume + levels[i].volume;
      assert levels[..i + 1][..i] == levels[..i];
    }
    assert levels[..|levels|] == levels;
  }

  method ExpandFrom(levels: seq<Level>, pocIndex: nat, target: real) returns (lowIdx: nat, highIdx: nat)
    requires pocIndex < |levels|
    ensures Range(lowIdx, highIdx) == Expand(levels, Range(pocIndex, pocIndex), target)
  {
    var coveredVolume := levels[pocIndex].volume;
    lowIdx, highIdx := pocIndex, pocIndex;
    CoveredOne(levels, pocIndex);
    while coveredVolume < target && (lowIdx > 0 || highIdx < |levels| - 1)
      invariant lowIdx <= highIdx < |levels|
      invariant coveredVolume == Covered(levels, lowIdx, highIdx)
      invariant Expand(levels, Range(lowIdx, highIdx), target) == Expand(levels, Range(pocIndex, pocIndex), target)
      decreases |levels| - (highIdx - lowIdx)
    {
      CoveredGrows(levels, lowIdx, highIdx);
      var belowVolume := if lowIdx > 0 then levels[lowIdx - 1].volume else -1.0;
      var aboveVolume := if highIdx < |levels| - 1 then levels[highIdx + 1].volume else -1.0;
      if aboveVolume >= belowVolume && highIdx < |levels| - 1 {
        highIdx := highIdx + 1;
        coveredVolume := coveredVolume + levels[highIdx].volume;
      } else if lowIdx > 0 {
        lowIdx := lowIdx - 1;
        coveredVolume := coveredVolume + levels[lowIdx].volume;
      } else {
        break;
      }
    }
  }

  // ----- What the levels are ----------------------------------------------------------

  ghost predicate Distinct(levels: seq<Level>) {
    forall i, j :: 0 <= i < j < |levels| ==> BucketKey(levels[i]) != BucketKey(levels[j])
  }

  // The volume of a level if its bucket is selected.
  function Selected(select: int -> bool): Level -> real {
    (l: Level) => if select(l.bucket) then l.volume else 0.0
  }

  function Only(k: int): int -> bool {
    bucket => bucket == k
  }

  function All(): int -> bool {
    bucket => true
  }

  // The volume standing in a bucket.
  function VolumeAt(levels: seq<Level>, k: int): real {
    SumBy(levels, Selected(Only(k)))
  }

  function Gift(select: int -> bool, bucket: int, volume: real): real {
    if select(bucket) then volume else 0.0
  }

  lemma AddAtSelected(levels: seq<Level>, bucket: int, volume: real, select: int -> bool)
    ensures SumBy(AddAt(levels, bucket, volume), Selected(select))
         == SumBy(levels, Selected(select)) + Gift(select, bucket, volume)
  {
    var f := Selected(select);
    var i := LevelIndex(levels, bucket);
    var r := AddAt(levels, bucket, volume);
    if i < |levels| {
      SumAfterUpdate(levels, i, Level(bucket, levels[i].volume + volume), f);
    } else {
      assert r[..|levels|] == levels;
    }
  }

  // What the first `n` buckets of a slice give to the selected buckets.
  function GivenBy(s: Slice, n: nat, select: int -> bool): real {
    if n == 0 then 0.0 else GivenBy(s, n - 1, select) + Gift(select, s.first + n - 1, s.share)
  }

  function Given(select: int -> bool): Slice -> real {
    (s: Slice) => GivenBy(s, s.count, select)
  }

  // Any measure that one addition raises by its gift is raised by all of them.
  lemma {:induction false} SpreadRaises(levels: seq<Level>, s: Slice, n: nat, select: int -> bool,
                                        measure: seq<Level> -> real)
    requires forall xs, bucket, volume ::
        measure(AddAt(xs, bucket, volume)) == measure(xs) + Gift(select, bucket, volume)
    ensures measure(Spread(levels, s, n)) == measure(levels) + GivenBy(s, n, select)
  {
    if n > 0 {
      SpreadRaises(levels, s, n - 1, select, measure);
    }
  }

  lemma SpreadSelected(levels: seq<Level>, s: Slice, n: nat, select: int -> bool)
    ensures SumBy(Spread(levels, s, n), Selected(select)) == SumBy(levels, Selected(select)) + GivenBy(s, n, select)
  {
    var measure := (xs: seq<Level>) => SumBy(xs, Selected(select));
    forall xs, bucket, volume
      ensures measure(AddAt(xs, bucket, volume)) == measure(xs) + Gift(select, bucket, volume)
    {
      AddAtSelected(xs, bucket, volume, select);
    }
    SpreadRaises(levels, s, n, select, measure);
  }

  lemma {:induction false} SpreadAllSelected(slices: seq<Slice>, select: int -> bool)
    ensures SumBy(SpreadAll(slices), Selected(select)) == SumBy(slices, Given(select))
  {
    if slices != [] {
      SpreadAllSelected(slices[..|slices| - 1], select);
      var s := slices[|slices| - 1];
      SpreadSelected(SpreadAll(slices[..|slices| - 1]), s, s.count, select);
    }
  }

  lemma {:induction false} SpreadDistinct(levels: seq<Level>, s: Slice, n: nat)
    requires Distinct(levels)
    ensures Distinct(Spread(levels, s, n))
  {
    if n > 0 {
      SpreadDistinct(levels, s, n - 1);
    }
  }

  lemma {:induction false} SpreadAllDistinct(slices: seq<Slice>)
    ensures Distinct(SpreadAll(slices))
  {
    if slices != [] {
      SpreadAllDistinct(slices[..|slices| - 1]);
      var s := slices[|slices| - 1];
      SpreadDistinct(SpreadAll(slices[..|slices| - 1]), s, s.count);
    }
  }

  // What a bar puts into bucket `k`, said without any loop.
  function ShareIn(k: int): Slice -> real {
    (s: Slice) => if s.first <= k < s.first + s.count then s.share else 0.0
  }

  lemma {:induction false} GivenToOnly(s: Slice, n: nat, k: int)
    ensures GivenBy(s, n, Only(k)) == if s.first <= k < s.first + n then s.share else 0.0
  {
    if n > 0 {
      GivenToOnly(s, n - 1, k);
    }
  }

  lemma {:induction false} GivenToAll(s: Slice, n: nat)
    ensures GivenBy(s, n, All()) == n as real * s.share
  {
    if n > 0 {
      GivenToAll(s, n - 1);
      var m := (n - 1) as real;
      assert (m + 1.0) * s.share == m * s.share + s.share;
    }
  }

  lemma {:induction false} GivenToOne(slices: seq<Slice>, k: int)
    ensures SumBy(slices, Given(Only(k))) == SumBy(slices, ShareIn(k))
  {
    if slices != [] {
      GivenToOne(slices[..|slices| - 1], k);
      var s := slices[|slices| - 1];
      GivenToOnly(s, s.count, k);
    }
  }

  // Levels are sorted by price, one per bucket, and each holds exactly the sum of
  // the even shares of the bars touching its bucket.
  lemma LevelsHoldTheirShares(bars: seq<Bar>, size: real, k: int)
    requires size > 0.0
    ensures StrictlySortedBy(Levels(bars, size), BucketKey)
    ensures VolumeAt(Levels(bars, size), k) == SumBy(Slices(bars, size), ShareIn(k))
  {
    var raw := SpreadAll(Slices(bars, size));
    SpreadAllDistinct(Slices(bars, size));
    DistinctSortsStrictly(raw, BucketKey);
    SumOfPermutation(Levels(bars, size), raw, Selected(Only(k)));
    SpreadAllSelected(Slices(bars, size), Only(k));
    GivenToOne(Slices(bars, size), k);
  }

  // ----- The same, told by the bars alone ---------------------------------------------

  // The bar's range, from its low to its high, reaches into bucket `k`.
  predicate Touches(b: Bar, k: int, size: real) {
    k as real * size <= b.high && b.low < (k + 1) as real * size
  }

  lemma IndexIs(price: real, k: int, size: real)
    requires size > 0.0
    ensures k <= BucketIndex(price, size) <==> k as real * size <= price
  {
    var q, x := price / size, k as real;
    assert price == q * size;
    if x <= q {
      assert x * size <= q * size;
    } else {
      assert q * size < x * size;
    }
  }

  lemma TouchesIff(b: Bar, k: int, size: real)
    requires size > 0.0
    ensures Touches(b, k, size) <==> BucketIndex(b.low, size) <= k <= BucketIndex(b.high, size)
  {
    IndexIs(b.high, k, size);
    IndexIs(b.low, k + 1, size);
  }

  function Between(lo: int, hi: int): (t: set<int>)
    ensures forall k :: k in t <==> lo <= k <= hi
    ensures |t| == if lo <= hi then hi - lo + 1 else 0
    decreases if lo <= hi then hi - lo + 1 else 0
  {
    if hi < lo then {} else Between(lo, hi - 1) + {hi}
  }

  // The buckets a bar touches.
  function TouchedBy(b: Bar, size: real): (t: set<int>)
    requires size > 0.0
    ensures forall k :: k in t <==> Touches(b, k, size)
  {
    var t := Between(BucketIndex(b.low, size), BucketIndex(b.high, size));
    assert forall k :: Touches(b, k, size) <==> k in t by {
      forall k ensures Touches(b, k, size) <==> k in t { TouchesIff(b, k, size); }
    }
    t
  }

  // An even share of its volume for each of them.
  function EvenShare(k: int, size: real): Bar -> real {
    (b: Bar) => if size > 0.0 && Touches(b, k, size) && TouchedBy(b, size) != {}
                then b.volume / |TouchedBy(b, size)| as real else 0.0
  }

  lemma SliceSharesEvenly(b: Bar, k: int, size: real)
    requires size > 0.0
    ensures ShareIn(k)(SliceOf(b, size)) == EvenShare(k, size)(b)
  {
    TouchesIff(b, k, size);
    var lo, hi := BucketIndex(b.low, size), BucketIndex(b.high, size);
    var t := Between(lo, hi);
    forall j
      ensures j in t <==> j in TouchedBy(b, size)
    {
      TouchesIff(b, j, size);
    }
    assert t == TouchedBy(b, size);
  }

  lemma {:induction false} SlicesShareEvenly(bars: seq<Bar>, k: int, size: real)
    requires size > 0.0
    ensures SumBy(Slices(bars, size), ShareIn(k)) == SumBy(bars, EvenShare(k, size))
  {
    if bars != [] {
      SlicesShareEvenly(bars[..|bars| - 1], k, size);
      assert Slices(bars, size)[..|bars| - 1] == Slices(bars[..|bars| - 1], size);
      SliceSharesEvenly(bars[|bars| - 1], k, size);
    }
  }

  predicate HasBucket(levels: seq<Level>, k: int) {
    exists i :: 0 <= i < |levels| && levels[i].bucket == k
  }

  lemma AddAtBuckets(levels: seq<Level>, bucket: int, volume: real, k: int)
    ensures HasBucket(AddAt(levels, bucket, volume), k) <==> HasBucket(levels, k) || k == bucket
  {
    var i, r := LevelIndex(levels, bucket), AddAt(levels, bucket, volume);
    assert r[i].bucket == bucket;
    if j :| 0 <= j < |levels| && levels[j].bucket == k {
      assert r[j].bucket == k;
    }
  }

  lemma {:induction false} SpreadBuckets(levels: seq<Level>, s: Slice, n: nat, k: int)
    ensures HasBucket(Spread(levels, s, n), k) <==> HasBucket(levels, k) || s.first <= k < s.first + n
  {
    if n > 0 {
      var front := Spread(levels, s, n - 1);
      SpreadBuckets(levels, s, n - 1, k);
      AddAtBuckets(front, s.first + n - 1, s.share, k);
      assert Spread(levels, s, n) == AddAt(front, s.first + n - 1, s.share);
    }
  }

  lemma {:induction false} AllBuckets(bars: seq<Bar>, size: real, k: int)
    requires size > 0.0
    ensures HasBucket(SpreadAll(Slices(bars, size)), k) <==> exists i :: 0 <= i < |bars| && Touches(bars[i], k, size)
  {
    if bars != [] {
      var n := |bars| - 1;
      AllBuckets(bars[..n], size, k);
      assert Slices(bars, size)[..n] == Slices(bars[..n], size);
      var s := SliceOf(bars[n], size);
      assert s.first <= k < s.first + s.count <==> Touches(bars[n], k, size) by { TouchesIff(bars[n], k, size); }
      SpreadBuckets(SpreadAll(Slices(bars[..n], size)), s, s.count, k);
      if i :| 0 <= i < n && Touches(bars[..n][i], k, size) {
        assert Touches(bars[i], k, size);
      }
      if i :| 0 <= i < |bars| && Touches(bars[i], k, size) {
        assert i < n ==> Touches(bars[..n][i], k, size);
      }
    }
  }

  // There is a level for exactly the buckets that some bar touches, and it holds an even
  // share of the volume of each of those bars.
  lemma BucketsHoldEvenShares(bars: seq<Bar>, size: real, k: int)
    requires size > 0.0
    ensures VolumeAt(Levels(bars, size), k) == SumBy(bars, EvenShare(k, size))
    ensures HasBucket(Levels(bars, size), k) <==> exists i :: 0 <= i < |bars| && Touches(bars[i], k, size)
    ensures forall i :: 0 <= i < |Levels(bars, size)| && Levels(bars, size)[i].bucket == k ==>
              Levels(bars, size)[i].volume == SumBy(bars, EvenShare(k, size))
  {
    LevelsHoldTheirShares(bars, size, k);
    OneLevelAt(Levels(bars, size), k);
    SlicesShareEvenly(bars, k, size);
    AllBuckets(bars, size, k);
    var raw, levels := SpreadAll(Slices(bars, size)), Levels(bars, size);
    SameBuckets(raw, levels, k);
    SameBuckets(levels, raw, k);
  }

  lemma {:induction false} OneLevelAt(levels: seq<Level>, k: int)
    requires Distinct(levels)
    ensures HasBucket(levels, k) || VolumeAt(levels, k) == 0.0
    ensures forall i :: 0 <= i < |levels| && levels[i].bucket == k ==> levels[i].volume == VolumeAt(levels, k)
  {
    if levels != [] {
      var n := |levels| - 1;
      OneLevelAt(levels[..n], k);
      if i :| 0 <= i < |levels[..n]| && levels[..n][i].bucket == k {
        assert levels[i].bucket == k;
        assert BucketKey(levels[i]) != BucketKey(levels[n]);
      } else if levels[n].bucket == k {
        assert forall i :: 0 <= i < n ==> levels[..n][i] == levels[i];
      }
    }
  }

  lemma SameBuckets(xs: seq<Level>, ys: seq<Level>, k: int)
    requires multiset(xs) == multiset(ys)
    ensures HasBucket(xs, k) ==> HasBucket(ys, k)
  {
    if i :| 0 <= i < |xs| && xs[i].bucket == k {
      assert xs[i] in multiset(ys);
      var j :| 0 <= j < |ys| && ys[j] == xs[i];
      assert ys[j].bucket == k;
    }
  }

  // What a bar is expected to contribute: all its volume, unless its high falls
  // in a lower bucket than its low.
  function Counted(size: real): Bar -> real
    requires size > 0.0
  {
    (b: Bar) => if size > 0.0 && BucketIndex(b.low, size) <= BucketIndex(b.high, size) then b.volume else 0.0
  }

  // Conservation: the levels' volumes sum to the bars' volumes, less the bars
  // whose high falls in a lower bucket than their low, which no bucket receives.
  lemma ProfileConservesVolume(bars: seq<Bar>, size: real)
    requires size > 0.0
    ensures Total(Levels(bars, size)) == SumBy(bars, Counted(size))
    ensures (forall b :: b in bars ==> b.low <= b.high) ==> Total(Levels(bars, size)) == SumBy(bars, Volume)
  {
    var raw := SpreadAll(Slices(bars, size));
    SelectAll(raw);
    SpreadAllSelected(Slices(bars, size), All());
    SumOfPermutation(Levels(bars, size), raw, VolumeOf);
    SlicesGive(bars, size);
    if forall b :: b in bars ==> b.low <= b.high {
      AllCounted(bars, size);
    }
  }

  lemma {:induction false} SelectAll(levels: seq<Level>)
    ensures SumBy(levels, Selected(All())) == Total(levels)
  {
    if levels != [] {
      SelectAll(levels[..|levels| - 1]);
    }
  }

  lemma {:induction false} SlicesGive(bars: seq<Bar>, size: real)
    requires size > 0.0
    ensures SumBy(Slices(bars, size), Given(All())) == SumBy(bars, Counted(size))
  {
    if bars != [] {
      var b := bars[|bars| - 1];
      SlicesGive(bars[..|bars| - 1], size);
      assert Slices(bars, size)[..|bars| - 1] == Slices(bars[..|bars| - 1], size);
      var s := SliceOf(b, size);
      GivenToAll(s, s.count);
      if s.count > 0 {
        ShareTimesCount(b.volume, s.count);
      }
    }
  }

  lemma ShareTimesCount(volume: real, count: nat)
    requires count > 0
    ensures count as real * (volume / count as real) == volume
  {
  }

  lemma BucketIndexIsMonotone(p: real, q: real, size: real)
    requires size > 0.0 && p <= q
    ensures BucketIndex(p, size) <= BucketIndex(q, size)
  {
    assert q / size - p / size == (q - p) / size >= 0.0;
  }

  lemma {:induction false} AllCounted(bars: seq<Bar>, size: real)
    requires size > 0.0 && forall b :: b in bars ==> b.low <= b.high
    ensures SumBy(bars, Counted(size)) == SumBy(bars, Volume)
  {
    if bars != [] {
      AllCounted(bars[..|bars| - 1], size);
      var b := bars[|bars| - 1];
      assert b in bars;
      BucketIndexIsMonotone(b.low, b.high, size);
    }
  }

  // ----- What the value area is ---------------------------------------------------------

  // How the expansion ended: the range contains where it started; it is where it
  // started, or its last step was made from a range still below the target and
  // took the greater neighbour (the upper one on a tie); and it stopped on the
  // target, on the whole profile, or on `break`.
  ghost predicate Expanded(levels: seq<Level>, from: Range, v: Range, target: real)
    requires Within(levels, from) && Within(levels, v)
  {
    && v.lo <= from.lo <= from.hi <= v.hi
    && (v == from || exists r :: LastStep(levels, from, r, v, target))
    && (WantsMore(levels, v, target) ==> v.lo == 0 && v.hi < |levels| - 1 && levels[v.hi + 1].volume < -1.0)
  }

  ghost predicate LastStep(levels: seq<Level>, from: Range, r: Range, v: Range, target: real)
    requires Within(levels, from) && Within(levels, v)
  {
    && Within(levels, r)
    && r.lo <= from.lo && from.hi <= r.hi
    && Covered(levels, r.lo, r.hi) < target
    && ((v == Range(r.lo, r.hi + 1) && (r.lo > 0 ==> levels[r.hi + 1].volume >= levels[r.lo - 1].volume))
        || (v.lo == r.lo - 1 && v.hi == r.hi
            && (r.hi < |levels| - 1 ==> levels[r.lo - 1].volume > levels[r.hi + 1].volume)))
  }

  lemma {:induction false} ExpandExpands(levels: seq<Level>, from: Range, r: Range, target: real)
    requires Within(levels, from) && Within(levels, r)
    requires r.lo <= from.lo <= from.hi <= r.hi
    requires r == from || exists q :: LastStep(levels, from, q, r, target)
    ensures Expanded(levels, from, Expand(levels, r, target), target)
    decreases |levels| - (r.hi - r.lo)
  {
    var g := Grow(levels, r);
    if WantsMore(levels, r, target) && g != r {
      assert LastStep(levels, from, r, g, target);
      ExpandExpands(levels, from, g, target);
    }
  }

  // The value area contains the point of control and was still short of its
  // share one greedy step before it stopped.
  lemma ValueAreaIsTight(levels: seq<Level>, pct: real)
    requires levels != []
    ensures var (p, v) := (PocIndex(levels), ValueArea(levels, pct));
            Expanded(levels, Range(p, p), v, Target(levels, pct))
  {
    var p := PocIndex(levels);
    ExpandExpands(levels, Range(p, p), Range(p, p), Target(levels, pct));
  }

  lemma {:induction false} NonNegativeSum(xs: seq<Level>)
    requires forall i :: 0 <= i < |xs| ==> xs[i].volume >= 0.0
    ensures Total(xs) >= 0.0
  {
    if xs != [] {
      NonNegativeSum(xs[..|xs| - 1]);
    }
  }

  lemma AtMostTheWhole(total: real, pct: real)
    requires total >= 0.0 && pct <= 1.0
    ensures total * pct <= total
  {
  }

  // With volumes that are not negative the `break` is never taken, and a share of
  // at most the whole is always reached.
  lemma ValueAreaReachesItsShare(levels: seq<Level>, pct: real)
    requires levels != [] && pct <= 1.0
    requires forall i :: 0 <= i < |levels| ==> levels[i].volume >= 0.0
    ensures var v := ValueArea(levels, pct); Covered(levels, v.lo, v.hi) >= Target(levels, pct)
  {
    ValueAreaIsTight(levels, pct);
    var v := ValueArea(levels, pct);
    NonNegativeSum(levels);
    AtMostTheWhole(Total(levels), pct);
    CoveredWhole(levels);
  }

  lemma CoveredWhole(levels: seq<Level>)
    requires levels != []
    ensures Covered(levels, 0, |levels| - 1) == Total(levels)
  {
    assert levels[0..|levels|] == levels;
  }

  // Levels built from bars with such volumes have them too.
  lemma LevelsAreNonNegative(bars: seq<Bar>, size: real)
    requires size > 0.0 && forall b :: b in bars ==> b.volume >= 0.0
    ensures forall i :: 0 <= i < |Levels(bars, size)| ==> Levels(bars, size)[i].volume >= 0.0
  {
    var slices := Slices(bars, size);
    forall i | 0 <= i < |slices|
      ensures slices[i].share >= 0.0
    {
      assert bars[i] in bars;
    }
    RawNonNegative(slices);
    var (raw, sorted) := (SpreadAll(slices), Levels(bars, size));
    forall i | 0 <= i < |sorted|
      ensures sorted[i].volume >= 0.0
    {
      assert sorted[i] in multiset(raw);
    }
  }

  lemma {:induction false} RawNonNegative(slices: seq<Slice>)
    requires forall i :: 0 <= i < |slices| ==> slices[i].share >= 0.0
    ensures forall l :: l in SpreadAll(slices) ==> l.volume >= 0.0
  {
    if slices != [] {
      RawNonNegative(slices[..|slices| - 1]);
      var s := slices[|slices| - 1];
      SpreadNonNegative(SpreadAll(slices[..|slices| - 1]), s, s.count);
    }
  }

  lemma {:induction false} SpreadNonNegative(levels: seq<Level>, s: Slice, n: nat)
    requires s.share >= 0.0 && forall l :: l in levels ==> l.volume >= 0.0
    ensures forall l :: l in Spread(levels, s, n) ==> l.volume >= 0.0
  {
    if n > 0 {
      SpreadNonNegative(levels, s, n - 1);
    }
  }

  // The loop is left by `break`: it would go on, and has nowhere to grow.
  predicate BreaksFrom(levels: seq<Level>, r: Range, target: real)
    requires Within(levels, r)
  {
    var v := Expand(levels, r, target);
    WantsMore(levels, v, target) && Grow(levels, v) == v
  }

  predicate BreaksOff(levels: seq<Level>, pct: real)
    requires levels != []
  {
    var p := PocIndex(levels);
    BreaksFrom(levels, Range(p, p), Target(levels, pct))
  }

  // ----- When the expansion breaks off ------------------------------------------------

  // Level `j` above `p` has less than -1, and less than every level below `p`.
  ghost predicate Blocks(levels: seq<Level>, p: nat, j: nat) {
    && p < j < |levels|
    && levels[j].volume < -1.0
    && forall i :: 0 <= i < p ==> levels[j].volume < levels[i].volume
  }

  ghost predicate BlocksFirst(levels: seq<Level>, p: nat, j: nat) {
    Blocks(levels, p, j) && forall h :: p < h < j ==> !Blocks(levels, p, h)
  }

  // Where the expansion ends when no target stops it.
  function Furthest(levels: seq<Level>, r: Range): (v: Range)
    requires Within(levels, r)
    ensures Within(levels, v)
    decreases |levels| - (r.hi - r.lo)
  {
    if Grow(levels, r) == r then r else Furthest(levels, Grow(levels, r))
  }

  // The greatest volume covered on the way.
  function GreatestCover(levels: seq<Level>, r: Range): real
    requires Within(levels, r)
    decreases |levels| - (r.hi - r.lo)
  {
    var here := Covered(levels, r.lo, r.hi);
    if Grow(levels, r) == r then here
    else
      var ahead := GreatestCover(levels, Grow(levels, r));
      if here >= ahead then here else ahead
  }

  lemma {:induction false} BreaksFromIff(levels: seq<Level>, r: Range, target: real)
    requires Within(levels, r)
    ensures BreaksFrom(levels, r, target)
       <==> GreatestCover(levels, r) < target && Furthest(levels, r) != Range(0, |levels| - 1)
    ensures BreaksFrom(levels, r, target) ==> Expand(levels, r, target) == Furthest(levels, r)
    decreases |levels| - (r.hi - r.lo)
  {
    var g := Grow(levels, r);
    if g != r {
      BreaksFromIff(levels, g, target);
    }
  }

  function LeastBelow(levels: seq<Level>, p: nat): (m: nat)
    requires 0 < p <= |levels|
    ensures m < p && forall i :: 0 <= i < p ==> levels[m].volume <= levels[i].volume
  {
    if p == 1 then 0
    else
      var m := LeastBelow(levels, p - 1);
      if levels[p - 1].volume < levels[m].volume then p - 1 else m
  }

  // On the way from `p`: no blocking level has been taken in, and once the least
  // level below `p` has been, the next one up is smaller still or less than -1 is
  // smaller anyway.
  ghost predicate OnTheWay(levels: seq<Level>, p: nat, r: Range)
    requires Within(levels, r)
  {
    && r.lo <= p <= r.hi
    && (forall h :: p < h <= r.hi ==> !Blocks(levels, p, h))
    && (p > 0 ==>
          var m := LeastBelow(levels, p);
          || m < r.lo
          || levels[m].volume > -1.0
          || r.hi == |levels| - 1
          || levels[r.hi + 1].volume < levels[m].volume)
  }

  lemma GrowStaysOnTheWay(levels: seq<Level>, p: nat, r: Range)
    requires Within(levels, r) && OnTheWay(levels, p, r)
    ensures OnTheWay(levels, p, Grow(levels, r))
  {
    var g := Grow(levels, r);
    if g.hi > r.hi {
      assert r.lo > 0 ==> levels[r.lo - 1].volume <= levels[g.hi].volume;
    }
  }

  ghost predicate IsBlocked(levels: seq<Level>, p: nat) {
    exists j: nat :: Blocks(levels, p, j)
  }

  lemma {:induction false} FurthestIsBlockedOrWhole(levels: seq<Level>, p: nat, r: Range)
    requires Within(levels, r) && OnTheWay(levels, p, r)
    ensures var v := Furthest(levels, r);
            || (v == Range(0, |levels| - 1) && !IsBlocked(levels, p))
            || (v.lo == 0 && BlocksFirst(levels, p, v.hi + 1) && IsBlocked(levels, p))
    decreases |levels| - (r.hi - r.lo)
  {
    if Grow(levels, r) != r {
      GrowStaysOnTheWay(levels, p, r);
      FurthestIsBlockedOrWhole(levels, p, Grow(levels, r));
    } else if r.hi < |levels| - 1 {
      assert Blocks(levels, p, r.hi + 1);
    }
  }

  lemma BreaksFromStartIff(levels: seq<Level>, p: nat, target: real)
    requires p < |levels|
    ensures BreaksFrom(levels, Range(p, p), target)
       <==> IsBlocked(levels, p) && GreatestCover(levels, Range(p, p)) < target
    ensures BreaksFrom(levels, Range(p, p), target) ==>
              var v := Expand(levels, Range(p, p), target);
              v.lo == 0 && BlocksFirst(levels, p, v.hi + 1)
  {
    BreaksFromIff(levels, Range(p, p), target);
    FurthestIsBlockedOrWhole(levels, p, Range(p, p));
  }

  // The `break` is taken exactly when some level above the point of control has less
  // than -1 and less than every level below it, and the target exceeds all that is
  // covered on the way to the first such level. The area then ends under that level.
  lemma BreaksOffIff(levels: seq<Level>, pct: real)
    requires levels != []
    ensures var p := PocIndex(levels);
            && (BreaksOff(levels, pct)
                <==> IsBlocked(levels, p) && GreatestCover(levels, Range(p, p)) < Target(levels, pct))
            && (BreaksOff(levels, pct) ==>
                  var v := ValueArea(levels, pct);
                  v.lo == 0 && BlocksFirst(levels, p, v.hi + 1))
  {
    BreaksFromStartIff(levels, PocIndex(levels), Target(levels, pct));
  }

  lemma OrdinaryVolumesNeverBreak(levels: seq<Level>, pct: real)
    requires levels != []
    requires forall i :: 0 <= i < |levels| ==> levels[i].volume >= -1.0
    ensures !BreaksOff(levels, pct)
  {
    BreaksFromStartIff(levels, PocIndex(levels), Target(levels, pct));
  }

  lemma BreaksForSomeTargetIff(levels: seq<Level>, p: nat)
    requires p < |levels|
    ensures (exists target :: BreaksFrom(levels, Range(p, p), target)) <==> IsBlocked(levels, p)
  {
    forall target
      ensures BreaksFrom(levels, Range(p, p), target) ==> IsBlocked(levels, p)
    {
      BreaksFromStartIff(levels, p, target);
    }
    BreaksFromStartIff(levels, p, GreatestCover(levels, Range(p, p)) + 1.0);
  }

  // So levels can make the loop break, for some target, exactly when they have such a
  // level; and for some share, if their total is not zero.
  lemma BreakIsPossibleIff(levels: seq<Level>)
    requires levels != []
    ensures var p := PocIndex(levels);
            && ((exists target :: BreaksFrom(levels, Range(p, p), target)) <==> IsBlocked(levels, p))
            && (Total(levels) != 0.0 ==> ((exists pct :: BreaksOff(levels, pct)) <==> IsBlocked(levels, p)))
  {
    var p := PocIndex(levels);
    BreaksForSomeTargetIff(levels, p);
    if Total(levels) != 0.0 && IsBlocked(levels, p) {
      var target :| BreaksFrom(levels, Range(p, p), target);
      ShareOf(levels, target);
      assert BreaksOff(levels, target / Total(levels));
    }
  }

  lemma ShareOf(levels: seq<Level>, target: real)
    requires Total(levels) != 0.0
    ensures Target(levels, target / Total(levels)) == target
  {
  }

  // The area falls short of its share exactly when the loop breaks off or the whole
  // profile falls short.
  lemma FallsShortIff(levels: seq<Level>, pct: real)
    requires levels != []
    ensures var v := ValueArea(levels, pct);
            Covered(levels, v.lo, v.hi) < Target(levels, pct)
            <==> BreaksOff(levels, pct) || (v == Range(0, |levels| - 1) && Total(levels) < Target(levels, pct))
  {
    ValueAreaIsTight(levels, pct);
    CoveredWhole(levels);
  }

  // ----- Bars that touch one bucket each --------------------------------------------------

  ghost predicate OneEach(bars: seq<Bar>, size: real, first: int)
    requires size > 0.0
  {
    forall i :: 0 <= i < |bars| ==> BucketIndex(bars[i].low, size) == BucketIndex(bars[i].high, size) == first + i
  }

  function OwnLevels(bars: seq<Bar>, first: int): seq<Level> {
    seq(|bars|, i requires 0 <= i < |bars| => Level(first + i, bars[i].volume))
  }

  lemma AppendedLevel(levels: seq<Level>, bucket: int, volume: real)
    requires forall i :: 0 <= i < |levels| ==> levels[i].bucket != bucket
    ensures Spread(levels, Slice(bucket, 1, volume), 1) == levels + [Level(bucket, volume)]
  {
    assert Spread(levels, Slice(bucket, 1, volume), 0) == levels;
  }

  lemma {:induction false} OwnSlices(bars: seq<Bar>, size: real, first: int)
    requires size > 0.0 && OneEach(bars, size, first)
    ensures SpreadAll(Slices(bars, size)) == OwnLevels(bars, first)
  {
    if bars != [] {
      var n := |bars| - 1;
      OwnSlices(bars[..n], size, first);
      assert Slices(bars, size)[..n] == Slices(bars[..n], size);
      assert Slices(bars, size)[n] == Slice(first + n, 1, bars[n].volume);
      AppendedLevel(OwnLevels(bars[..n], first), first + n, bars[n].volume);
      assert OwnLevels(bars, first) == OwnLevels(bars[..n], first) + [Level(first + n, bars[n].volume)];
    }
  }

  // One bar to a bucket, in ascending buckets, makes one level of each.
  lemma LevelsOfOneEach(bars: seq<Bar>, size: real, first: int)
    requires size > 0.0 && OneEach(bars, size, first)
    ensures Levels(bars, size) == OwnLevels(bars, first)
  {
    OwnSlices(bars, size, first);
    SortedIsFixed(OwnLevels(bars, first), BucketKey);
  }

  function FlatBar(price: real, volume: real): Bar {
    Bar(0, price, price, price, price, volume)
  }

  function FourBars(): seq<Bar> {
    [FlatBar(0.0, 5.0), FlatBar(1.0, -2.0), FlatBar(2.0, 5.0), FlatBar(3.0, 5.0)]
  }

  lemma FourBarsLevels()
    ensures Levels(FourBars(), 1.0) == [Level(0, 5.0), Level(1, -2.0), Level(2, 5.0), Level(3, 5.0)]
  {
    var bars := FourBars();
    assert OneEach(bars, 1.0, 0);
    LevelsOfOneEach(bars, 1.0, 0);
  }

  // Four bars, one of negative volume, and the usual share of 70%: the area stops at
  // the point of control, at 5 of the 9.1 it wants.
  lemma NegativeVolumeCanBreak()
    ensures var levels := Levels(FourBars(), 1.0);
            && levels != [] && BreaksOff(levels, 0.7)
            && ValueArea(levels, 0.7) == Range(0, 0)
            && Covered(levels, 0, 0) == 5.0 && Target(levels, 0.7) == 9.1
  {
    FourBarsLevels();
    FourLevelsBreak(Levels(FourBars(), 1.0));
  }

  lemma FourLevelsBreak(levels: seq<Level>)
    requires levels == [Level(0, 5.0), Level(1, -2.0), Level(2, 5.0), Level(3, 5.0)]
    ensures BreaksOff(levels, 0.7) && ValueArea(levels, 0.7) == Range(0, 0)
    ensures Covered(levels, 0, 0) == 5.0 && Target(levels, 0.7) == 9.1
  {
    FourLevels(levels);
    assert Grow(levels, Range(0, 0)) == Range(0, 0);
  }

  lemma FourLevels(levels: seq<Level>)
    requires levels == [Level(0, 5.0), Level(1, -2.0), Level(2, 5.0), Level(3, 5.0)]
    ensures PocIndex(levels) == 0 && Total(levels) == 13.0 && Covered(levels, 0, 0) == 5.0
  {
    OnePoc(levels, 0, PocIndex(levels));
    CoveredOne(levels, 0);
    assert SumBy(levels[..0], VolumeOf) == 0.0;
    assert levels[..1][..0] == levels[..0] && levels[..2][..1] == levels[..1];
    assert levels[..3][..2] == levels[..2] && levels[..4] == levels;
    assert SumBy(levels[..1], VolumeOf) == 5.0;
    assert SumBy(levels[..2], VolumeOf) == 3.0;
    assert SumBy(levels[..3], VolumeOf) == 8.0;
  }
}
