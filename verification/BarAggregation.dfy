// Bucketing OHLCV bars to wall-clock boundaries. Prices and volumes are exact
// numbers, times milliseconds. A JavaScript Map iterates in insertion order, so
// the bucket map is the sequence of its values in that order.

module BarAggregation {
  import opened Sorting

  datatype Bar = Bar(time: int, open: real, high: real, low: real, close: real, volume: real)

  function TimeKey(b: Bar): real {
    b.time as real
  }

  function Volume(b: Bar): real {
    b.volume
  }

  function Max(x: real, y: real): real {
    if x < y then y else x
  }

  function Min(x: real, y: real): real {
    if y < x then y else x
  }

  // The start of the bucket an instant falls in.
  type Bucketing = int -> int

  // Math.floor(t / width) * width
  function Boundary(width: nat): Bucketing
    requires width > 0
  {
    t => t / width * width
  }

  function NewBucket(b: Bar, start: Bucketing): Bar {
    b.(time := start(b.time))
  }

  function Merge(bucket: Bar, b: Bar): Bar {
    bucket.(high := Max(bucket.high, b.high), low := Min(bucket.low, b.low),
            close := b.close, volume := bucket.volume + b.volume)
  }

  function IndexOf(buckets: seq<Bar>, time: int): (i: nat)
    ensures i <= |buckets|
    ensures i < |buckets| ==> buckets[i].time == time
    ensures forall j :: 0 <= j < i ==> buckets[j].time != time
  {
    if buckets == [] then 0
    else if buckets[0].time == time then 0
    else 1 + IndexOf(buckets[1..], time)
  }

  // One turn of the loop: the bar's bucket updated in place, or appended.
  function Put(buckets: seq<Bar>, b: Bar, start: Bucketing): seq<Bar> {
    var i := IndexOf(buckets, start(b.time));
    if i < |buckets| then buckets[i := Merge(buckets[i], b)] else buckets + [NewBucket(b, start)]
  }

  function Buckets(bars: seq<Bar>, start: Bucketing): seq<Bar> {
    if bars == [] then [] else Put(Buckets(bars[..|bars| - 1], start), bars[|bars| - 1], start)
  }

  function Aggregate(bars: seq<Bar>, start: Bucketing): seq<Bar> {
    SortBy(Buckets(bars, start), TimeKey)
  }

  method AggregateBars(bars: seq<Bar>, bucketMinutes: nat) returns (aggregated: seq<Bar>)
    requires bucketMinutes > 0
    ensures aggregated == Aggregate(bars, Boundary(bucketMinutes * 60_000))
  {
    var bucketMs := bucketMinutes * 60_000;
    var buckets: seq<Bar> := [];
    for n := 0 to |bars|
      invariant buckets == Buckets(bars[..n], Boundary(bucketMs))
    {
      var bar := bars[n];
      var key := bar.time / bucketMs * bucketMs;
      var existing := IndexOf(buckets, key);
      if existing == |buckets| {
        buckets := buckets + [Bar(key, bar.open, bar.high, bar.low, bar.close, bar.volume)];
      } else {
        var bucket := buckets[existing];
        bucket := bucket.(high := Max(bucket.high, bar.high));
        bucket := bucket.(low := Min(bucket.low, bar.low));
        bucket := bucket.(close := bar.close);
        bucket := bucket.(volume := bucket.volume + bar.volume);
        buckets := buckets[existing := bucket];
      }
      assert bars[..n + 1][..n] == bars[..n];
    }
    assert bars[..|bars|] == bars;
    aggregated := SortBy(buckets, TimeKey);
  }

  // ----- For any bars at all ---------------------------------------------------

  predicate Sane(b: Bar) {
    b.low <= b.open <= b.high && b.low <= b.close <= b.high
  }

  ghost predicate DistinctTimes(r: seq<Bar>) {
    forall i, j :: 0 <= i < j < |r| ==> TimeKey(r[i]) != TimeKey(r[j])
  }

  function Times(r: seq<Bar>): set<int> {
    set b | b in r :: b.time
  }

  function Starts(bars: seq<Bar>, start: Bucketing): set<int> {
    set b | b in bars :: start(b.time)
  }

  lemma {:induction false} BucketsAreDistinct(bars: seq<Bar>, start: Bucketing)
    ensures DistinctTimes(Buckets(bars, start))
  {
    if bars != [] {
      BucketsAreDistinct(bars[..|bars| - 1], start);
    }
  }

  lemma PutAddsItsStart(before: seq<Bar>, b: Bar, start: Bucketing)
    ensures Times(Put(before, b, start)) == Times(before) + {start(b.time)}
  {
    var r := Put(before, b, start);
    var i := IndexOf(before, start(b.time));
    assert r[i] in r && r[i].time == start(b.time);
    forall k | 0 <= k < |before|
      ensures r[k].time == before[k].time && r[k].time in Times(r) && before[k].time in Times(before)
    {
      assert r[k] in r && before[k] in before;
    }
    forall t | t in Times(before)
      ensures t in Times(r)
    {
      var c :| c in before && c.time == t;
      var k :| 0 <= k < |before| && before[k] == c;
    }
    forall t | t in Times(r)
      ensures t in Times(before) + {start(b.time)}
    {
      var c :| c in r && c.time == t;
      var k :| 0 <= k < |r| && r[k] == c;
    }
  }

  lemma {:induction false} BucketsCover(bars: seq<Bar>, start: Bucketing)
    ensures Times(Buckets(bars, start)) == Starts(bars, start)
  {
    if bars != [] {
      var front, last := bars[..|bars| - 1], bars[|bars| - 1];
      assert bars == front + [last];
      BucketsCover(front, start);
      PutAddsItsStart(Buckets(front, start), last, start);
      assert Starts(bars, start) == Starts(front, start) + {start(last.time)};
    }
  }

  // ----- What a bucket holds, said without the map ---------------------------------

  // The bars of one bucket, in their order.
  function Members(bars: seq<Bar>, start: Bucketing, time: int): seq<Bar> {
    if bars == [] then []
    else
      var last := bars[|bars| - 1];
      Members(bars[..|bars| - 1], start, time) + if start(last.time) == time then [last] else []
  }

  // Open of the first, close of the last, the extremes and the whole volume of `members`.
  ghost predicate Summarizes(bucket: Bar, members: seq<Bar>) {
    && members != []
    && bucket.open == members[0].open && bucket.close == members[|members| - 1].close
    && (forall j :: 0 <= j < |members| ==> bucket.low <= members[j].low && members[j].high <= bucket.high)
    && (exists j :: 0 <= j < |members| && members[j].high == bucket.high)
    && (exists j :: 0 <= j < |members| && members[j].low == bucket.low)
    && bucket.volume == SumBy(members, Volume)
  }

  lemma NewBucketSummarizes(b: Bar, start: Bucketing)
    ensures Summarizes(NewBucket(b, start), [b])
  {
    SumOfOne(b, Volume);
    assert [b][0].high == b.high && [b][0].low == b.low;
  }

  lemma MergeSummarizes(bucket: Bar, members: seq<Bar>, b: Bar)
    requires Summarizes(bucket, members)
    ensures Summarizes(Merge(bucket, b), members + [b])
  {
    var more, n := members + [b], |members|;
    assert more[..n] == members && more[n] == b;
    var h :| 0 <= h < n && members[h].high == bucket.high;
    var l :| 0 <= l < n && members[l].low == bucket.low;
    assert more[h] == members[h] && more[l] == members[l];
    assert more[if bucket.high < b.high then n else h].high == Merge(bucket, b).high;
    assert more[if b.low < bucket.low then n else l].low == Merge(bucket, b).low;
  }

  lemma {:induction false} NoMembers(bars: seq<Bar>, start: Bucketing, time: int)
    requires forall j :: 0 <= j < |Buckets(bars, start)| ==> Buckets(bars, start)[j].time != time
    ensures Members(bars, start, time) == []
  {
    if bars != [] {
      BucketsCover(bars, start);
      var front, last := bars[..|bars| - 1], bars[|bars| - 1];
      PutAddsItsStart(Buckets(front, start), last, start);
      assert time !in Times(Buckets(bars, start));
      assert start(last.time) != time;
      forall j | 0 <= j < |Buckets(front, start)|
        ensures Buckets(front, start)[j].time != time
      {
        assert Buckets(front, start)[j] in Buckets(front, start);
      }
      NoMembers(front, start, time);
    }
  }

  lemma OthersStay(front: seq<Bar>, last: Bar, start: Bucketing, i: nat)
    requires i < |Buckets(front, start)| && i != IndexOf(Buckets(front, start), start(last.time))
    ensures var bucket := Buckets(front, start)[i];
            && Put(Buckets(front, start), last, start)[i] == bucket
            && Members(front + [last], start, bucket.time) == Members(front, start, bucket.time)
  {
    var before := Buckets(front, start);
    var at := IndexOf(before, start(last.time));
    BucketsAreDistinct(front, start);
    assert (front + [last])[..|front|] == front;
    assert at < |before| ==> TimeKey(before[i]) != TimeKey(before[at]);
    assert Members(front, start, before[i].time) + [] == Members(front, start, before[i].time);
  }

  ghost predicate AllSummarize(buckets: seq<Bar>, bars: seq<Bar>, start: Bucketing) {
    forall i :: 0 <= i < |buckets| ==> Summarizes(buckets[i], Members(bars, start, buckets[i].time))
  }

  lemma ItsOwnGrows(front: seq<Bar>, last: Bar, start: Bucketing, at: nat)
    requires AllSummarize(Buckets(front, start), front, start)
    requires at == IndexOf(Buckets(front, start), start(last.time))
    ensures var after := Put(Buckets(front, start), last, start);
            Summarizes(after[at], Members(front + [last], start, after[at].time))
  {
    var before, members := Buckets(front, start), Members(front, start, start(last.time));
    assert (front + [last])[..|front|] == front;
    assert Members(front + [last], start, start(last.time)) == members + [last];
    if at < |before| {
      assert Summarizes(before[at], Members(front, start, before[at].time));
      MergeSummarizes(before[at], members, last);
    } else {
      NoMembers(front, start, start(last.time));
      NewBucketSummarizes(last, start);
      assert [] + [last] == [last];
    }
  }

  lemma PutSummarizes(front: seq<Bar>, last: Bar, start: Bucketing)
    requires AllSummarize(Buckets(front, start), front, start)
    ensures AllSummarize(Put(Buckets(front, start), last, start), front + [last], start)
  {
    var before, after := Buckets(front, start), Put(Buckets(front, start), last, start);
    var at := IndexOf(before, start(last.time));
    ItsOwnGrows(front, last, start, at);
    forall i | 0 <= i < |after|
      ensures Summarizes(after[i], Members(front + [last], start, after[i].time))
    {
      if i != at {
        OthersStay(front, last, start, i);
        assert Summarizes(before[i], Members(front, start, before[i].time));
      }
    }
  }

  lemma {:induction false} BucketsSummarize(bars: seq<Bar>, start: Bucketing)
    ensures AllSummarize(Buckets(bars, start), bars, start)
  {
    if bars != [] {
      var front, last := bars[..|bars| - 1], bars[|bars| - 1];
      assert bars == front + [last];
      BucketsSummarize(front, start);
      PutSummarizes(front, last, start);
    }
  }

  // Each aggregated bar sums up exactly the bars of its bucket, and every bar has one.
  lemma AggregateSummarizes(bars: seq<Bar>, start: Bucketing, i: nat)
    requires i < |Aggregate(bars, start)|
    ensures var bar := Aggregate(bars, start)[i]; Summarizes(bar, Members(bars, start, bar.time))
    ensures Times(Aggregate(bars, start)) == Starts(bars, start)
  {
    var raw, sorted := Buckets(bars, start), Aggregate(bars, start);
    assert sorted[i] in multiset(raw);
    var j :| 0 <= j < |raw| && raw[j] == sorted[i];
    BucketsSummarize(bars, start);
    assert Summarizes(raw[j], Members(bars, start, raw[j].time));
    BucketsCover(bars, start);
    forall b
      ensures b in sorted <==> b in raw
    {
      assert b in multiset(sorted) <==> b in multiset(raw);
    }
  }

  ghost predicate AllSane(bars: seq<Bar>) {
    forall i :: 0 <= i < |bars| ==> Sane(bars[i])
  }

  lemma {:induction false} BucketsStaySane(bars: seq<Bar>, start: Bucketing)
    requires AllSane(bars)
    ensures AllSane(Buckets(bars, start))
  {
    if bars != [] {
      BucketsStaySane(bars[..|bars| - 1], start);
    }
  }

  // Whatever the order of the bars, the times come out strictly increasing, one
  // for each bucket some bar falls in, and sane bars stay sane.
  lemma AggregateIsAscending(bars: seq<Bar>, start: Bucketing)
    ensures StrictlySortedBy(Aggregate(bars, start), TimeKey)
    ensures Times(Aggregate(bars, start)) == Starts(bars, start)
    ensures AllSane(bars) ==> AllSane(Aggregate(bars, start))
  {
    var (m, r) := (Buckets(bars, start), Aggregate(bars, start));
    BucketsAreDistinct(bars, start);
    BucketsCover(bars, start);
    DistinctSortsStrictly(m, TimeKey);
    forall b
      ensures b in r <==> b in m
    {
      assert b in multiset(r) <==> b in multiset(m);
    }
    if AllSane(bars) {
      BucketsStaySane(bars, start);
      forall i | 0 <= i < |r|
        ensures Sane(r[i])
      {
        assert r[i] in m;
      }
    }
  }

  // Every output time is a multiple of the width.
  lemma AggregateIsAligned(bars: seq<Bar>, width: nat)
    requires width > 0
    ensures forall t :: t in Times(Aggregate(bars, Boundary(width))) ==> t % width == 0
  {
    AggregateIsAscending(bars, Boundary(width));
    forall t | t in Starts(bars, Boundary(width))
      ensures t % width == 0
    {
      var c :| c in bars && t == Boundary(width)(c.time);
      MultipleOf(width, c.time / width);
    }
  }

  lemma MultipleOf(d: nat, q: int)
    requires d > 0
    ensures q * d % d == 0
  {
    QuotientIs(q * d, d, q, 0);
  }

  lemma {:induction false} BucketsKeepVolume(bars: seq<Bar>, start: Bucketing)
    ensures SumBy(Buckets(bars, start), Volume) == SumBy(bars, Volume)
  {
    if bars != [] {
      var front, last := bars[..|bars| - 1], bars[|bars| - 1];
      BucketsKeepVolume(front, start);
      var before := Buckets(front, start);
      var i := IndexOf(before, start(last.time));
      if i < |before| {
        SumAfterUpdate(before, i, Merge(before[i], last), Volume);
      } else {
        assert (before + [NewBucket(last, start)])[..|before|] == before;
      }
    }
  }

  // No volume is lost or invented, for any bars in any order.
  lemma AggregateConservesVolume(bars: seq<Bar>, start: Bucketing)
    ensures SumBy(Aggregate(bars, start), Volume) == SumBy(bars, Volume)
  {
    BucketsKeepVolume(bars, start);
    SumOfPermutation(Aggregate(bars, start), Buckets(bars, start), Volume);
  }

  // ----- For ascending bars ---------------------------------------------------------

  ghost predicate Ascending(bars: seq<Bar>) {
    forall i, j :: 0 <= i < j < |bars| ==> bars[i].time <= bars[j].time
  }

  ghost predicate Monotone(start: Bucketing) {
    forall s, t :: s <= t ==> start(s) <= start(t)
  }

  // On ascending input a bar only ever meets the bucket inserted last.
  function Push(buckets: seq<Bar>, b: Bar, start: Bucketing): seq<Bar> {
    var n := |buckets|;
    if n > 0 && buckets[n - 1].time == start(b.time)
    then buckets[..n - 1] + [Merge(buckets[n - 1], b)]
    else buckets + [NewBucket(b, start)]
  }

  lemma PutIsPush(buckets: seq<Bar>, b: Bar, start: Bucketing)
    requires StrictlySortedBy(buckets, TimeKey)
    requires buckets != [] ==> buckets[|buckets| - 1].time <= start(b.time)
    ensures Put(buckets, b, start) == Push(buckets, b, start)
    ensures StrictlySortedBy(Push(buckets, b, start), TimeKey)
  {
    var n := |buckets|;
    assert forall j :: 0 <= j < n - 1 ==> TimeKey(buckets[j]) < TimeKey(buckets[n - 1]);
  }

  // One more ascending bar is pushed behind the buckets so far.
  lemma {:induction false} AscendingPushes(bars: seq<Bar>, start: Bucketing)
    requires Ascending(bars) && Monotone(start) && bars != []
    ensures StrictlySortedBy(Buckets(bars, start), TimeKey)
    ensures Buckets(bars, start) == Push(Buckets(bars[..|bars| - 1], start), bars[|bars| - 1], start)
    ensures var r := Buckets(bars, start); r[|r| - 1].time == start(bars[|bars| - 1].time)
  {
    var front, last := bars[..|bars| - 1], bars[|bars| - 1];
    if front == [] {
      assert Buckets(front, start) == [];
    } else {
      AscendingPushes(front, start);
      assert front[|front| - 1].time <= last.time;
    }
    PutIsPush(Buckets(front, start), last, start);
  }

  // Buckets come out in order, so the final sort changes nothing.
  lemma AscendingBuckets(bars: seq<Bar>, start: Bucketing)
    requires Ascending(bars) && Monotone(start)
    ensures StrictlySortedBy(Buckets(bars, start), TimeKey)
    ensures Aggregate(bars, start) == Buckets(bars, start)
    ensures bars != [] ==>
              var r := Buckets(bars, start);
              && r == Push(Buckets(bars[..|bars| - 1], start), bars[|bars| - 1], start)
              && r[|r| - 1].time == start(bars[|bars| - 1].time)
  {
    if bars != [] {
      AscendingPushes(bars, start);
    }
    SortedIsFixed(Buckets(bars, start), TimeKey);
  }

  ghost predicate Nests(fine: Bucketing, coarse: Bucketing) {
    forall t :: coarse(fine(t)) == coarse(t)
  }

  // A bar pushed into a fine bucket and on into the coarse one arrives there as
  // if pushed directly.
  lemma PushThrough(coarse: seq<Bar>, bucket: Bar, b: Bar, fine: Bucketing, wide: Bucketing)
    requires Nests(fine, wide)
    ensures bucket.time == fine(b.time) ==>
              Push(coarse, Merge(bucket, b), wide) == Push(Push(coarse, bucket, wide), b, wide)
    ensures Push(coarse, NewBucket(b, fine), wide) == Push(coarse, b, wide)
  {
    assert wide(fine(b.time)) == wide(b.time);
    if bucket.time == fine(b.time) {
      var n := |coarse|;
      var once := Push(coarse, bucket, wide);
      assert once[|once| - 1].time == wide(b.time);
      if n > 0 && coarse[n - 1].time == wide(b.time) {
        assert once[..|once| - 1] == coarse[..n - 1];
      } else {
        assert once[..|once| - 1] == coarse;
      }
    }
  }

  lemma SortedTimes(r: seq<Bar>)
    requires StrictlySortedBy(r, TimeKey)
    ensures Ascending(r)
  {
    forall i, j | 0 <= i < j < |r|
      ensures r[i].time <= r[j].time
    {
      assert TimeKey(r[i]) < TimeKey(r[j]);
    }
  }

  lemma PrefixAscends(bars: seq<Bar>, n: nat)
    requires Ascending(bars) && n <= |bars|
    ensures Ascending(bars[..n])
  {
  }

  lemma BucketsAscend(bars: seq<Bar>, start: Bucketing)
    requires Ascending(bars) && Monotone(start)
    ensures Ascending(Buckets(bars, start))
  {
    if bars != [] {
      AscendingPushes(bars, start);
    }
    SortedTimes(Buckets(bars, start));
  }

  // Pushing a bar into the fine buckets and bucketing again is bucketing the fine
  // buckets and pushing the bar straight into those.
  lemma CoarseStep(before: seq<Bar>, last: Bar, fine: Bucketing, wide: Bucketing)
    requires Ascending(before) && Ascending(Push(before, last, fine)) && Monotone(wide) && Nests(fine, wide)
    ensures Buckets(Push(before, last, fine), wide) == Push(Buckets(before, wide), last, wide)
  {
    var r := Push(before, last, fine);
    var n := |before|;
    AscendingPushes(r, wide);
    if n > 0 && before[n - 1].time == fine(last.time) {
      assert r[..|r| - 1] == before[..n - 1];
      AscendingPushes(before, wide);
      PushThrough(Buckets(before[..n - 1], wide), before[n - 1], last, fine, wide);
    } else {
      assert r[..|r| - 1] == before;
      PushThrough(Buckets(before, wide), last, last, fine, wide);
    }
  }

  lemma {:induction false} CoarseOfFine(bars: seq<Bar>, fine: Bucketing, wide: Bucketing)
    requires Ascending(bars) && Monotone(fine) && Monotone(wide) && Nests(fine, wide)
    ensures Buckets(Buckets(bars, fine), wide) == Buckets(bars, wide)
  {
    if bars != [] {
      var front := bars[..|bars| - 1];
      PrefixAscends(bars, |bars| - 1);
      CoarseOfFine(front, fine, wide);
      AscendingPushes(bars, fine);
      AscendingPushes(bars, wide);
      BucketsAscend(front, fine);
      BucketsAscend(bars, fine);
      CoarseStep(Buckets(front, fine), bars[|bars| - 1], fine, wide);
    }
  }

  // ----- The width arithmetic -----------------------------------------------------------

  lemma Scaled(k: nat, x: int, y: int)
    requires x <= y
    ensures k * x <= k * y
  {
  }

  lemma QuotientIs(t: int, d: nat, q: int, r: int)
    requires d > 0 && t == d * q + r && 0 <= r < d
    ensures t / d == q
  {
    var e := t / d - q;
    assert d * e == r - t % d;
    if e >= 1 { Scaled(d, 1, e); }
    if e <= -1 { Scaled(d, e, -1); }
  }

  lemma BoundaryIsMonotone(width: nat)
    requires width > 0
    ensures Monotone(Boundary(width))
  {
    forall s, t | s <= t
      ensures Boundary(width)(s) <= Boundary(width)(t)
    {
      QuotientsAscend(s, t, width);
      Scaled(width, s / width, t / width);
    }
  }

  lemma QuotientsAscend(s: int, t: int, d: nat)
    requires d > 0 && s <= t
    ensures s / d <= t / d
  {
    var e := s / d - t / d;
    assert d * e == s - t - s % d + t % d;
    if e >= 1 { Scaled(d, 1, e); }
  }

  // Finer boundaries nest in coarser ones.
  lemma BoundariesNest(fine: nat, ratio: nat)
    requires fine > 0 && ratio > 0
    ensures Nests(Boundary(fine), Boundary(fine * ratio))
  {
    forall t
      ensures Boundary(fine * ratio)(Boundary(fine)(t)) == Boundary(fine * ratio)(t)
    {
      NestedQuotients(t, fine, ratio);
    }
  }

  lemma NestedQuotients(t: int, fine: nat, ratio: nat)
    requires fine > 0 && ratio > 0
    ensures t / fine * fine / (fine * ratio) == t / (fine * ratio)
  {
    var (q, r) := (t / fine, t % fine);
    var (Q, R) := (q / ratio, q % ratio);
    SplitProduct(fine, ratio, Q, R, q);
    QuotientIs(t, fine * ratio, Q, fine * R + r);
    QuotientIs(q * fine, fine * ratio, Q, fine * R);
  }

  lemma SplitProduct(fine: nat, ratio: nat, Q: int, R: int, q: int)
    requires q == ratio * Q + R && 0 <= R < ratio
    ensures q * fine == fine * ratio * Q + fine * R
    ensures 0 <= fine * R <= fine * ratio - fine
  {
    Scaled(fine, R, ratio - 1);
  }

  // Aggregating to `fine` milliseconds and then to a multiple of them is
  // aggregating straight to the multiple.
  lemma AggregationComposes(bars: seq<Bar>, fine: nat, ratio: nat)
    requires fine > 0 && ratio > 0 && Ascending(bars)
    ensures Aggregate(Aggregate(bars, Boundary(fine)), Boundary(fine * ratio))
        == Aggregate(bars, Boundary(fine * ratio))
  {
    var (f, w) := (Boundary(fine), Boundary(fine * ratio));
    BoundaryIsMonotone(fine);
    BoundaryIsMonotone(fine * ratio);
    BoundariesNest(fine, ratio);
    CoarseOfFine(bars, f, w);
    AscendingBuckets(bars, f);
    AscendingBuckets(bars, w);
    SortedTimes(Buckets(bars, f));
    AscendingBuckets(Buckets(bars, f), w);
  }

  lemma TwoBars(a: Bar, b: Bar, start: Bucketing)
    ensures Buckets([a, b], start) ==
              if start(a.time) == start(b.time) then [Merge(NewBucket(a, start), b)]
              else [NewBucket(a, start), NewBucket(b, start)]
  {
    assert [a, b][..1] == [a] && [a][..0] == [];
    assert Buckets([], start) == [];
    assert Buckets([a], start) == [NewBucket(a, start)];
  }

  // It needs the ascending order the source asks for: here the later minute comes
  // first, so the earlier one gives the close of the two-minute bar, unless a first
  // pass over single minutes re-sorts them.
  lemma CompositionNeedsAscendingBars()
    ensures var bars := [Bar(60_000, 2.0, 2.0, 2.0, 2.0, 1.0), Bar(0, 1.0, 1.0, 1.0, 1.0, 1.0)];
            Aggregate(Aggregate(bars, Boundary(60_000)), Boundary(120_000)) != Aggregate(bars, Boundary(120_000))
  {
    var late, early := Bar(60_000, 2.0, 2.0, 2.0, 2.0, 1.0), Bar(0, 1.0, 1.0, 1.0, 1.0, 1.0);
    var minute, two := Boundary(60_000), Boundary(120_000);
    assert minute(60_000) == 60_000 && minute(0) == 0 && two(60_000) == 0 && two(0) == 0;
    LatePairDiffers(late, early, minute, two);
  }

  lemma LatePairDiffers(late: Bar, early: Bar, minute: Bucketing, two: Bucketing)
    requires early.time < late.time && early.close != late.close
    requires minute(late.time) == late.time && minute(early.time) == early.time && two(late.time) == two(early.time)
    ensures Aggregate(Aggregate([late, early], minute), two) != Aggregate([late, early], two)
  {
    TwoBars(late, early, minute);
    TwoBars(late, early, two);
    TwoBars(early, late, two);
    assert NewBucket(late, minute) == late && NewBucket(early, minute) == early;
    SortPair(late, early);
    SortedIsFixed(Buckets([late, early], two), TimeKey);
    SortedIsFixed(Buckets([early, late], two), TimeKey);
    assert Aggregate([late, early], two)[0].close == early.close;
    assert Aggregate([early, late], two)[0].close == late.close;
  }

  lemma SortPair(late: Bar, early: Bar)
    requires early.time < late.time
    ensures SortBy([late, early], TimeKey) == [early, late]
  {
    assert [late, early][..1] == [late] && [late][..0] == [];
    SortedIsFixed([late], TimeKey);
    assert InsertBy([], early, TimeKey) == [early];
    assert InsertBy([late], early, TimeKey) == [early, late];
  }

  lemma AscendingParts(older: seq<Bar>, bars: seq<Bar>)
    requires Ascending(older + bars)
    ensures Ascending(older) && Ascending(bars)
  {
    var all := older + bars;
    assert forall i :: 0 <= i < |older| ==> all[i] == older[i];
    assert forall i :: 0 <= i < |bars| ==> all[|older| + i] == bars[i];
  }

  // Older bars in older buckets only prepend their buckets.
  lemma {:induction false} OlderBarsOnlyPrepend(older: seq<Bar>, bars: seq<Bar>, start: Bucketing)
    requires Ascending(older + bars) && Monotone(start)
    requires older != [] && bars != [] ==> start(older[|older| - 1].time) < start(bars[0].time)
    ensures Ascending(older) && Ascending(bars)
    ensures Buckets(older + bars, start) == Buckets(older, start) + Buckets(bars, start)
    decreases |bars|
  {
    AscendingParts(older, bars);
    if bars == [] {
      assert older + bars == older;
    } else {
      var front := bars[..|bars| - 1];
      assert (older + bars)[..|older + bars| - 1] == older + front;
      PrefixAscends(older + bars, |older + bars| - 1);
      OlderBarsOnlyPrepend(older, front, start);
      OlderThenOneMore(older, bars, start);
    }
  }

  lemma OlderThenOneMore(older: seq<Bar>, bars: seq<Bar>, start: Bucketing)
    requires Ascending(older + bars) && Ascending(bars) && Ascending(older) && Monotone(start) && bars != []
    requires older != [] ==> start(older[|older| - 1].time) < start(bars[0].time)
    requires var front := bars[..|bars| - 1];
             Buckets(older + front, start) == Buckets(older, start) + Buckets(front, start)
    ensures Buckets(older + bars, start) == Buckets(older, start) + Buckets(bars, start)
  {
    var all := older + bars;
    var front, last := bars[..|bars| - 1], bars[|bars| - 1];
    assert all[..|all| - 1] == older + front && all[|all| - 1] == last;
    AscendingPushes(all, start);
    AscendingPushes(bars, start);
    OlderEndBefore(older, bars, start);
    PushBehind(Buckets(older, start), Buckets(front, start), last, start);
  }

  lemma OlderEndBefore(older: seq<Bar>, bars: seq<Bar>, start: Bucketing)
    requires Ascending(bars) && Ascending(older) && Monotone(start) && bars != []
    requires older != [] ==> start(older[|older| - 1].time) < start(bars[0].time)
    ensures var o, f, last := Buckets(older, start), Buckets(bars[..|bars| - 1], start), bars[|bars| - 1];
            f == [] && o != [] ==> o[|o| - 1].time != start(last.time)
  {
    var front := bars[..|bars| - 1];
    if front == [] {
      assert Buckets(older, start) != [] ==> older != [];
      if older != [] { AscendingPushes(older, start); }
    } else {
      PrefixAscends(bars, |bars| - 1);
      AscendingPushes(front, start);
      assert Buckets(front, start) != [];
    }
  }

  lemma PushBehind(o: seq<Bar>, f: seq<Bar>, b: Bar, start: Bucketing)
    requires f == [] && o != [] ==> o[|o| - 1].time != start(b.time)
    ensures Push(o + f, b, start) == o + Push(f, b, start)
  {
    if f == [] {
      assert o + f == o;
    } else {
      assert (o + f)[|o + f| - 1] == f[|f| - 1];
      assert (o + f)[..|o + f| - 1] == o + f[..|f| - 1];
    }
  }

  ghost predicate BeginBuckets(bars: seq<Bar>, start: Bucketing) {
    forall i :: 0 <= i < |bars| ==> start(bars[i].time) == bars[i].time
  }

  lemma NewBucketsAppend(before: seq<Bar>, b: Bar, start: Bucketing)
    requires start(b.time) == b.time && forall i :: 0 <= i < |before| ==> before[i].time != b.time
    ensures Put(before, b, start) == before + [b]
  {
    assert NewBucket(b, start) == b;
  }

  lemma {:induction false} OwnBuckets(bars: seq<Bar>, n: nat, start: Bucketing)
    requires BeginBuckets(bars, start) && StrictlySortedBy(bars, TimeKey) && n <= |bars|
    ensures Buckets(bars[..n], start) == bars[..n]
  {
    if n > 0 {
      OwnBuckets(bars, n - 1, start);
      var front, last := bars[..n - 1], bars[n - 1];
      assert bars[..n][..n - 1] == front && front + [last] == bars[..n];
      forall i | 0 <= i < |front|
        ensures front[i].time != last.time
      {
        assert TimeKey(bars[i]) < TimeKey(last);
      }
      NewBucketsAppend(front, last, start);
    }
  }

  // Bars that begin their buckets, in ascending order, are their own aggregate.
  lemma OwnBucketsAreKept(bars: seq<Bar>, start: Bucketing)
    requires BeginBuckets(bars, start) && StrictlySortedBy(bars, TimeKey)
    ensures Aggregate(bars, start) == bars
  {
    OwnBuckets(bars, |bars|, start);
    assert bars[..|bars|] == bars;
    SortedIsFixed(bars, TimeKey);
  }
}
