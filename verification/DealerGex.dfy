// Dealer gamma exposure by strike, the call and put walls, and the gamma flip:
// the price where cumulative net exposure, summed from the lowest strike, crosses
// zero. Strikes, gammas and open interest are exact numbers.

module DealerGex {
  import opened Options
  import opened Sorting
  import opened Session

  datatype OptionRow = OptionRow(isCall: bool, strike: real, expiration: int, openInterest: real, gamma: real)

  datatype StrikeGex = StrikeGex(strike: real, callGex: real, putGex: real) {
    function Net(): real {
      callGex + putGex
    }
  }

  function StrikeKey(s: StrikeGex): real {
    s.strike
  }

  function NetKey(s: StrikeGex): real {
    s.Net()
  }

  const CONTRACT_SIZE: real := 100.0

  function ContractGex(o: OptionRow, spot: real): real {
    var gex := spot * o.gamma * o.openInterest * CONTRACT_SIZE * spot * 0.01;
    if o.isCall then gex else -gex
  }

  // The dollars of delta that a one per cent move of the spot makes dealers hedge on
  // contracts of a hundred: calls count for them, puts against.
  lemma ContractGexIs(o: OptionRow, spot: real)
    ensures ContractGex(o, spot) == (if o.isCall then 1.0 else -1.0) * (spot * spot * o.gamma * o.openInterest)
    ensures ContractGex(o.(isCall := !o.isCall), spot) == -ContractGex(o, spot)
  {
    var hundred := spot * o.gamma * o.openInterest * 100.0 * spot * 0.01;
    assert hundred == spot * o.gamma * o.openInterest * spot;
    assert spot * o.gamma * o.openInterest * spot == spot * spot * o.gamma * o.openInterest;
  }

  // ----- computeGexByStrike ------------------------------------------------------

  function RowIndex(rows: seq<StrikeGex>, strike: real): (i: nat)
    ensures i <= |rows|
    ensures i < |rows| ==> rows[i].strike == strike
    ensures forall j :: 0 <= j < i ==> rows[j].strike != strike
  {
    if rows == [] || rows[0].strike == strike then 0 else 1 + RowIndex(rows[1..], strike)
  }

  function Add(row: StrikeGex, isCall: bool, gex: real): StrikeGex {
    if isCall then row.(callGex := row.callGex + gex) else row.(putGex := row.putGex + gex)
  }

  function PutAt(rows: seq<StrikeGex>, strike: real, isCall: bool, gex: real): seq<StrikeGex> {
    var i := RowIndex(rows, strike);
    if i < |rows| then rows[i := Add(rows[i], isCall, gex)]
    else rows + [Add(StrikeGex(strike, 0.0, 0.0), isCall, gex)]
  }

  function Put(rows: seq<StrikeGex>, o: OptionRow, spot: real): seq<StrikeGex> {
    PutAt(rows, o.strike, o.isCall, ContractGex(o, spot))
  }

  function Rows(options: seq<OptionRow>, spot: real): seq<StrikeGex> {
    if options == [] then [] else Put(Rows(options[..|options| - 1], spot), options[|options| - 1], spot)
  }

  function GexByStrike(options: seq<OptionRow>, spot: real): seq<StrikeGex> {
    SortBy(Rows(options, spot), StrikeKey)
  }

  method ComputeGexByStrike(options: seq<OptionRow>, spotPrice: real) returns (byStrike: seq<StrikeGex>)
    ensures byStrike == GexByStrike(options, spotPrice)
  {
    var rows: seq<StrikeGex> := [];
    for n := 0 to |options|
      invariant rows == Rows(options[..n], spotPrice)
    {
      var o := options[n];
      var gex := ContractGex(o, spotPrice);
      var i := RowIndex(rows, o.strike);
      var entry := if i < |rows| then rows[i] else StrikeGex(o.strike, 0.0, 0.0);
      if o.isCall {
        entry := entry.(callGex := entry.callGex + gex);
      } else {
        entry := entry.(putGex := entry.putGex + gex);
      }
      rows := if i < |rows| then rows[i := entry] else rows + [entry];
      assert options[..n + 1][..n] == options[..n];
    }
    assert options[..|options|] == options;
    byStrike := SortBy(rows, StrikeKey);
  }

  // ----- What a row holds, said without the map --------------------------------------

  // Exposure of the calls (or puts) struck at `strike`.
  function LegAt(strike: real, isCall: bool, spot: real): OptionRow -> real {
    (o: OptionRow) => if o.strike == strike && o.isCall == isCall then ContractGex(o, spot) else 0.0
  }

  function RowOf(options: seq<OptionRow>, strike: real, spot: real): StrikeGex {
    StrikeGex(strike, SumBy(options, LegAt(strike, true, spot)), SumBy(options, LegAt(strike, false, spot)))
  }

  function Strikes(options: seq<OptionRow>): set<real> {
    set o | o in options :: o.strike
  }

  ghost predicate DistinctStrikes(rows: seq<StrikeGex>) {
    forall i, j :: 0 <= i < j < |rows| ==> StrikeKey(rows[i]) != StrikeKey(rows[j])
  }

  ghost predicate Describes(rows: seq<StrikeGex>, options: seq<OptionRow>, spot: real) {
    && (forall i :: 0 <= i < |rows| ==>
        rows[i].strike in Strikes(options) && rows[i] == RowOf(options, rows[i].strike, spot))
    && (forall o :: o in options ==> HasStrike(rows, o.strike))
  }

  ghost predicate HasStrike(rows: seq<StrikeGex>, strike: real) {
    exists i :: 0 <= i < |rows| && rows[i].strike == strike
  }

  lemma {:induction false} NothingAtAbsentStrike(options: seq<OptionRow>, strike: real, isCall: bool, spot: real)
    requires strike !in Strikes(options)
    ensures SumBy(options, LegAt(strike, isCall, spot)) == 0.0
  {
    if options != [] {
      var front := options[..|options| - 1];
      var last := options[|options| - 1];
      assert last in options && last.strike in Strikes(options);
      assert forall o :: o in front ==> o in options;
      NothingAtAbsentStrike(front, strike, isCall, spot);
    }
  }

  lemma RowOfMore(front: seq<OptionRow>, o: OptionRow, strike: real, spot: real)
    ensures RowOf(front + [o], strike, spot) ==
              if o.strike == strike then Add(RowOf(front, strike, spot), o.isCall, ContractGex(o, spot))
              else RowOf(front, strike, spot)
  {
    assert (front + [o])[..|front|] == front;
  }

  lemma HasStrikeIff(rows: seq<StrikeGex>, strike: real)
    ensures HasStrike(rows, strike) <==> RowIndex(rows, strike) < |rows|
  {
  }

  lemma {:induction false} RowsAreDistinct(options: seq<OptionRow>, spot: real)
    ensures DistinctStrikes(Rows(options, spot))
  {
    if options != [] {
      var front := options[..|options| - 1];
      var o := options[|options| - 1];
      RowsAreDistinct(front, spot);
      var before := Rows(front, spot);
      var rows := Put(before, o, spot);
      assert forall i :: 0 <= i < |before| ==> StrikeKey(rows[i]) == StrikeKey(before[i]);
    }
  }

  lemma {:induction false} RowsCover(options: seq<OptionRow>, spot: real, strike: real)
    ensures HasStrike(Rows(options, spot), strike) <==> strike in Strikes(options)
  {
    if options != [] {
      var front := options[..|options| - 1];
      var o := options[|options| - 1];
      assert options == front + [o];
      RowsCover(front, spot, strike);
      var before := Rows(front, spot);
      var rows := Put(before, o, spot);
      assert Strikes(options) == Strikes(front) + {o.strike} by {
        assert forall x :: x in options <==> x in front || x == o;
      }
      if HasStrike(before, strike) {
        var i :| 0 <= i < |before| && before[i].strike == strike;
        assert rows[i].strike == strike;
      } else if o.strike == strike {
        assert rows[RowIndex(before, o.strike)].strike == strike;
      } else {
        assert forall i :: 0 <= i < |rows| ==>
            rows[i].strike == o.strike || (i < |before| && rows[i].strike == before[i].strike);
      }
    }
  }

  lemma {:induction false} RowsHoldTheirLegs(options: seq<OptionRow>, spot: real, i: nat)
    requires i < |Rows(options, spot)|
    ensures var row := Rows(options, spot)[i]; row == RowOf(options, row.strike, spot)
  {
    var front := options[..|options| - 1];
    var o := options[|options| - 1];
    assert options == front + [o];
    var before := Rows(front, spot);
    var at := RowIndex(before, o.strike);
    RowsAreDistinct(front, spot);
    if i < |before| {
      RowsHoldTheirLegs(front, spot, i);
      RowOfMore(front, o, before[i].strike, spot);
      assert before[i].strike == o.strike ==> i == at by {
        assert i < at ==> before[i].strike != o.strike;
        assert at < i ==> StrikeKey(before[at]) != StrikeKey(before[i]);
      }
    } else {
      RowsCover(front, spot, o.strike);
      HasStrikeIff(before, o.strike);
      NothingAtAbsentStrike(front, o.strike, true, spot);
      NothingAtAbsentStrike(front, o.strike, false, spot);
      RowOfMore(front, o, o.strike, spot);
    }
  }

  lemma RowsDescribe(options: seq<OptionRow>, spot: real)
    ensures DistinctStrikes(Rows(options, spot))
    ensures Describes(Rows(options, spot), options, spot)
  {
    var rows := Rows(options, spot);
    RowsAreDistinct(options, spot);
    forall i | 0 <= i < |rows|
      ensures rows[i].strike in Strikes(options) && rows[i] == RowOf(options, rows[i].strike, spot)
    {
      RowsCover(options, spot, rows[i].strike);
      RowsHoldTheirLegs(options, spot, i);
    }
    forall o | o in options
      ensures HasStrike(rows, o.strike)
    {
      RowsCover(options, spot, o.strike);
    }
  }

  // The rows: strikes strictly increasing, exactly the options' strikes, each
  // holding exactly the sums of its own calls and puts.
  lemma GexByStrikeDescribes(options: seq<OptionRow>, spot: real)
    ensures StrictlySortedBy(GexByStrike(options, spot), StrikeKey)
    ensures Describes(GexByStrike(options, spot), options, spot)
  {
    var raw := Rows(options, spot);
    var rows := GexByStrike(options, spot);
    RowsDescribe(options, spot);
    DistinctSortsStrictly(raw, StrikeKey);
    forall i | 0 <= i < |rows|
      ensures rows[i].strike in Strikes(options) && rows[i] == RowOf(options, rows[i].strike, spot)
    {
      assert rows[i] in multiset(raw);
      var j :| 0 <= j < |raw| && raw[j] == rows[i];
    }
    forall o | o in options
      ensures HasStrike(rows, o.strike)
    {
      assert HasStrike(raw, o.strike);
      var j :| 0 <= j < |raw| && raw[j].strike == o.strike;
      assert raw[j] in multiset(rows);
      var i :| 0 <= i < |rows| && rows[i] == raw[j];
    }
  }

  ghost predicate SameStrikes(a: seq<StrikeGex>, b: seq<StrikeGex>) {
    forall k :: HasStrike(a, k) <==> HasStrike(b, k)
  }

  lemma TailStrikes(a: seq<StrikeGex>, k: real)
    requires a != [] && StrictlySortedBy(a, StrikeKey)
    ensures HasStrike(a[1..], k) <==> HasStrike(a, k) && k != a[0].strike
  {
    if HasStrike(a[1..], k) {
      var i :| 0 <= i < |a[1..]| && a[1..][i].strike == k;
      assert a[i + 1].strike == k && StrikeKey(a[0]) < StrikeKey(a[i + 1]);
    }
    if HasStrike(a, k) && k != a[0].strike {
      var i :| 0 <= i < |a| && a[i].strike == k;
      assert a[1..][i - 1].strike == k;
    }
  }

  lemma HeadIsLeast(a: seq<StrikeGex>, k: real)
    requires a != [] && StrictlySortedBy(a, StrikeKey) && HasStrike(a, k)
    ensures HasStrike(a, a[0].strike) && a[0].strike <= k
  {
    var i :| 0 <= i < |a| && a[i].strike == k;
    assert i > 0 ==> StrikeKey(a[0]) < StrikeKey(a[i]);
  }

  // Strictly sorted rows with the same strikes, each the same function of its
  // strike, are the same rows.
  lemma {:induction false} SortedRowsAreUnique(a: seq<StrikeGex>, b: seq<StrikeGex>, row: real -> StrikeGex)
    requires StrictlySortedBy(a, StrikeKey) && StrictlySortedBy(b, StrikeKey)
    requires forall i :: 0 <= i < |a| ==> a[i] == row(a[i].strike)
    requires forall i :: 0 <= i < |b| ==> b[i] == row(b[i].strike)
    requires SameStrikes(a, b)
    ensures a == b
    decreases |a|
  {
    assert b != [] ==> HasStrike(b, b[0].strike);
    if a != [] {
      assert HasStrike(a, a[0].strike) && HasStrike(b, a[0].strike);
      HeadIsLeast(b, a[0].strike);
      HeadIsLeast(a, b[0].strike);
      assert a[0].strike == b[0].strike;
      forall k
        ensures HasStrike(a[1..], k) <==> HasStrike(b[1..], k)
      {
        TailStrikes(a, k);
        TailStrikes(b, k);
      }
      SortedRowsAreUnique(a[1..], b[1..], row);
      assert a == [a[0]] + a[1..] && b == [b[0]] + b[1..];
    }
  }

  lemma DescribedStrikes(a: seq<StrikeGex>, options: seq<OptionRow>, spot: real, k: real)
    requires Describes(a, options, spot)
    ensures HasStrike(a, k) <==> k in Strikes(options)
  {
    if HasStrike(a, k) {
      var i :| 0 <= i < |a| && a[i].strike == k;
    }
  }

  // The result does not depend on the order the chain lists its options in.
  lemma OptionOrderIsIrrelevant(options: seq<OptionRow>, others: seq<OptionRow>, spot: real)
    requires multiset(options) == multiset(others)
    ensures GexByStrike(options, spot) == GexByStrike(others, spot)
  {
    var a := GexByStrike(options, spot);
    var b := GexByStrike(others, spot);
    GexByStrikeDescribes(options, spot);
    GexByStrikeDescribes(others, spot);
    SameStrikeSets(options, others);
    forall k
      ensures HasStrike(a, k) <==> HasStrike(b, k)
    {
      DescribedStrikes(a, options, spot, k);
      DescribedStrikes(b, others, spot, k);
    }
    forall i | 0 <= i < |b|
      ensures b[i] == RowOf(options, b[i].strike, spot)
    {
      SumOfPermutation(options, others, LegAt(b[i].strike, true, spot));
      SumOfPermutation(options, others, LegAt(b[i].strike, false, spot));
    }
    SortedRowsAreUnique(a, b, k => RowOf(options, k, spot));
  }

  lemma SameStrikeSets(options: seq<OptionRow>, others: seq<OptionRow>)
    requires multiset(options) == multiset(others)
    ensures Strikes(options) == Strikes(others)
  {
    forall o
      ensures o in options <==> o in others
    {
      assert o in multiset(options) <==> o in multiset(others);
    }
  }

  function ContractKey(spot: real): OptionRow -> real {
    (o: OptionRow) => ContractGex(o, spot)
  }

  lemma PutAtAddsGex(rows: seq<StrikeGex>, strike: real, isCall: bool, gex: real)
    ensures SumBy(PutAt(rows, strike, isCall, gex), NetKey) == SumBy(rows, NetKey) + gex
  {
    var i := RowIndex(rows, strike);
    if i < |rows| {
      SumAfterUpdate(rows, i, Add(rows[i], isCall, gex), NetKey);
    } else {
      var row := Add(StrikeGex(strike, 0.0, 0.0), isCall, gex);
      SumOfConcat(rows, [row], NetKey);
      SumOfOne(row, NetKey);
    }
  }

  lemma {:induction false} RowsConserveGex(options: seq<OptionRow>, spot: real)
    ensures SumBy(Rows(options, spot), NetKey) == SumBy(options, ContractKey(spot))
  {
    if options != [] {
      var front := options[..|options| - 1];
      var o := options[|options| - 1];
      RowsConserveGex(front, spot);
      PutAtAddsGex(Rows(front, spot), o.strike, o.isCall, ContractGex(o, spot));
    }
  }

  // Net exposure over the strikes is the exposure of all the contracts.
  lemma TotalGexIsConserved(options: seq<OptionRow>, spot: real)
    ensures SumBy(GexByStrike(options, spot), NetKey) == SumBy(options, ContractKey(spot))
  {
    RowsConserveGex(options, spot);
    SumOfPermutation(GexByStrike(options, spot), Rows(options, spot), NetKey);
  }

  // ----- bucketOptionsByExpiration ------------------------------------------------------

  predicate SameUtcDate(a: int, b: int) {
    Midnight(a) == Midnight(b)
  }

  // Same day of the epoch.
  lemma SameUtcDateIff(a: int, b: int)
    ensures SameUtcDate(a, b) <==> a / 86_400_000 == b / 86_400_000
  {
    assert Midnight(a) == a / 86_400_000 * 86_400_000 && Midnight(b) == b / 86_400_000 * 86_400_000;
  }

  function ZeroDte(options: seq<OptionRow>, at: int, same: bool): seq<OptionRow> {
    if options == [] then []
    else
      var last := options[|options| - 1];
      ZeroDte(options[..|options| - 1], at, same) + if SameUtcDate(last.expiration, at) == same then [last] else []
  }

  lemma {:induction false} SplitPartitions(options: seq<OptionRow>, at: int)
    ensures multiset(ZeroDte(options, at, true)) + multiset(ZeroDte(options, at, false)) == multiset(options)
  {
    if options != [] {
      var front := options[..|options| - 1];
      var last := options[|options| - 1];
      SplitPartitions(front, at);
      var same := SameUtcDate(last.expiration, at);
      assert options == front + [last];
      assert multiset(options) == multiset(front) + multiset([last]);
      assert ZeroDte(options, at, same) == ZeroDte(front, at, same) + [last];
      assert ZeroDte(options, at, !same) == ZeroDte(front, at, !same) + [];
      assert ZeroDte(options, at, !same) == ZeroDte(front, at, !same);
    }
  }

  predicate OnDay(o: OptionRow, at: int) {
    o.expiration / 86_400_000 == at / 86_400_000
  }

  lemma SplitSortsAll(options: seq<OptionRow>, at: int, same: bool)
    ensures forall o :: o in ZeroDte(options, at, same) ==> OnDay(o, at) == same
  {
    forall o | o in ZeroDte(options, at, same)
      ensures OnDay(o, at) == same
    {
      SplitSorts(options, at, same, o);
      SameUtcDateIff(o.expiration, at);
    }
  }

  lemma {:induction false} SplitSorts(options: seq<OptionRow>, at: int, same: bool, o: OptionRow)
    requires o in ZeroDte(options, at, same)
    ensures SameUtcDate(o.expiration, at) == same
  {
    var front := options[..|options| - 1];
    if o in ZeroDte(front, at, same) { SplitSorts(front, at, same, o); }
  }

  method BucketOptionsByExpiration(options: seq<OptionRow>, at: int)
      returns (zeroDte: seq<OptionRow>, structural: seq<OptionRow>)
    ensures zeroDte == ZeroDte(options, at, true) && structural == ZeroDte(options, at, false)
    ensures multiset(zeroDte) + multiset(structural) == multiset(options)
    ensures forall o :: o in zeroDte ==> OnDay(o, at)
    ensures forall o :: o in structural ==> !OnDay(o, at)
  {
    zeroDte, structural := [], [];
    for n := 0 to |options|
      invariant zeroDte == ZeroDte(options[..n], at, true) && structural == ZeroDte(options[..n], at, false)
    {
      assert options[..n + 1][..n] == options[..n];
      if SameUtcDate(options[n].expiration, at) {
        zeroDte := zeroDte + [options[n]];
      } else {
        structural := structural + [options[n]];
      }
    }
    assert options[..|options|] == options;
    SplitPartitions(options, at);
    SplitSortsAll(options, at, true);
    SplitSortsAll(options, at, false);
  }

  // Net exposure standing at a strike, zero when the strike has no row.
  function NetAt(rows: seq<StrikeGex>, strike: real): real {
    var i := RowIndex(rows, strike);
    if i < |rows| then rows[i].Net() else 0.0
  }

  lemma NetAtIsTheLegs(options: seq<OptionRow>, strike: real, spot: real)
    ensures NetAt(GexByStrike(options, spot), strike) == RowOf(options, strike, spot).Net()
  {
    var rows := GexByStrike(options, spot);
    GexByStrikeDescribes(options, spot);
    var i := RowIndex(rows, strike);
    if i == |rows| {
      assert !HasStrike(rows, strike);
      assert forall o :: o in options ==> HasStrike(rows, o.strike);
      NothingAtAbsentStrike(options, strike, true, spot);
      NothingAtAbsentStrike(options, strike, false, spot);
    }
  }

  lemma {:induction false} SumOfSplit(options: seq<OptionRow>, at: int, f: OptionRow -> real)
    ensures SumBy(options, f) == SumBy(ZeroDte(options, at, true), f) + SumBy(ZeroDte(options, at, false), f)
  {
    if options != [] {
      var front := options[..|options| - 1];
      var last := options[|options| - 1];
      SumOfSplit(front, at, f);
      var same := SameUtcDate(last.expiration, at);
      var chosen := ZeroDte(front, at, same);
      var other := ZeroDte(front, at, !same);
      assert ZeroDte(options, at, same) == chosen + [last];
      assert ZeroDte(options, at, !same) == other + [] == other;
      SumOfConcat(chosen, [last], f);
      SumOfOne(last, f);
    }
  }

  // At every strike the blended net is the same-day net plus the structural net.
  lemma BlendedIsZeroDtePlusStructural(options: seq<OptionRow>, at: int, strike: real, spot: real)
    ensures NetAt(GexByStrike(options, spot), strike)
         == NetAt(GexByStrike(ZeroDte(options, at, true), spot), strike)
          + NetAt(GexByStrike(ZeroDte(options, at, false), spot), strike)
  {
    NetAtIsTheLegs(options, strike, spot);
    NetAtIsTheLegs(ZeroDte(options, at, true), strike, spot);
    NetAtIsTheLegs(ZeroDte(options, at, false), strike, spot);
    SumOfSplit(options, at, LegAt(strike, true, spot));
    SumOfSplit(options, at, LegAt(strike, false, spot));
  }

  // ----- findGammaWalls --------------------------------------------------------------------

  // `wall` is the first strike of greatest positive net; None when no net is positive.
  ghost predicate IsCallWall(rows: seq<StrikeGex>, wall: Option<real>) {
    match wall
    case None => forall i :: 0 <= i < |rows| ==> rows[i].Net() <= 0.0
    case Some(strike) =>
      exists w :: 0 <= w < |rows| && rows[w].strike == strike && rows[w].Net() > 0.0
        && (forall i :: 0 <= i < |rows| ==> rows[i].Net() <= rows[w].Net())
        && (forall i :: 0 <= i < w ==> rows[i].Net() < rows[w].Net())
  }

  function Mirrored(rows: seq<StrikeGex>): seq<StrikeGex> {
    seq(|rows|, i requires 0 <= i < |rows| => StrikeGex(rows[i].strike, -rows[i].callGex, -rows[i].putGex))
  }

  method FindGammaWalls(byStrike: seq<StrikeGex>) returns (callWall: Option<real>, putWall: Option<real>)
    ensures IsCallWall(byStrike, callWall)
    ensures IsCallWall(Mirrored(byStrike), putWall)
  {
    if |byStrike| == 0 { return None, None; }
    var call := 0;
    var put := 0;
    for i := 0 to |byStrike|
      invariant call < |byStrike| && put < |byStrike|
      invariant if i == 0 then call == put == 0 else call < i && put < i
      invariant forall j :: 0 <= j < i ==> byStrike[j].Net() <= byStrike[call].Net()
      invariant forall j :: 0 <= j < call ==> byStrike[j].Net() < byStrike[call].Net()
      invariant forall j :: 0 <= j < i ==> byStrike[put].Net() <= byStrike[j].Net()
      invariant forall j :: 0 <= j < put ==> byStrike[put].Net() < byStrike[j].Net()
    {
      if byStrike[i].Net() > byStrike[call].Net() { call := i; }
      if byStrike[i].Net() < byStrike[put].Net() { put := i; }
    }
    callWall := if byStrike[call].Net() > 0.0 then Some(byStrike[call].strike) else None;
    putWall := if byStrike[put].Net() < 0.0 then Some(byStrike[put].strike) else None;
    var m := Mirrored(byStrike);
    assert forall i :: 0 <= i < |m| ==> m[i].strike == byStrike[i].strike && m[i].Net() == -byStrike[i].Net();
    assert putWall.Some? ==> m[put].strike == putWall.value;
  }

  // ----- findGammaFlip ----------------------------------------------------------------------

  // Cumulative net through row `i`.
  function Cumulative(rows: seq<StrikeGex>, i: nat): real
    requires i < |rows|
  {
    if i == 0 then rows[0].Net() else Cumulative(rows, i - 1) + rows[i].Net()
  }

  // The nets of the strikes up to `i`, summed.
  lemma {:induction false} CumulativeIsSum(rows: seq<StrikeGex>, i: nat)
    requires i < |rows|
    ensures Cumulative(rows, i) == SumBy(rows[..i + 1], NetKey)
  {
    assert rows[..i + 1][..i] == rows[..i];
    if i > 0 { CumulativeIsSum(rows, i - 1); }
  }

  predicate Crosses(before: real, after: real) {
    (before <= 0.0 && after > 0.0) || (before >= 0.0 && after < 0.0)
  }

  predicate CrossesAt(rows: seq<StrikeGex>, i: nat) {
    0 < i < |rows| && Crosses(Cumulative(rows, i - 1), Cumulative(rows, i))
  }

  function Ratio(n: real, d: real): real
    requires d != 0.0
  {
    n / d
  }

  function Share(u: real, w: real): real {
    u * w
  }

  // Where the straight line from (s0, t0) to (s1, t1) is zero.
  function ZeroBetween(s0: real, t0: real, s1: real, t1: real): real
    requires Crosses(t0, t1)
  {
    s0 + Share(Ratio(0.0 - t0, t1 - t0), s1 - s0)
  }

  function CrossingPrice(rows: seq<StrikeGex>, i: nat): real
    requires CrossesAt(rows, i)
  {
    ZeroBetween(rows[i - 1].strike, Cumulative(rows, i - 1), rows[i].strike, Cumulative(rows, i))
  }

  function Distance(x: real, y: real): real {
    if x < y then y - x else x - y
  }

  // `flip` is the first of the crossings nearest to spot.
  ghost predicate IsFlip(rows: seq<StrikeGex>, n: nat, spot: real, flip: Option<real>) {
    match flip
    case None => forall i :: 0 < i < n ==> !CrossesAt(rows, i)
    case Some(x) =>
      exists i :: 0 < i < n && CrossesAt(rows, i) && x == CrossingPrice(rows, i)
        && (forall j :: 0 < j < n && CrossesAt(rows, j) ==> Distance(x, spot) <= Distance(CrossingPrice(rows, j), spot))
        && (forall j :: 0 < j < i && CrossesAt(rows, j) ==> Distance(x, spot) < Distance(CrossingPrice(rows, j), spot))
  }

  method FindGammaFlip(byStrike: seq<StrikeGex>, spotPrice: real) returns (flip: Option<real>)
    ensures IsFlip(byStrike, |byStrike|, spotPrice, flip)
  {
    flip := None;
    if |byStrike| < 2 { return; }
    var prevStrike := byStrike[0].strike;
    var prevTotal := byStrike[0].Net();
    for i := 1 to |byStrike|
      invariant prevStrike == byStrike[i - 1].strike && prevTotal == Cumulative(byStrike, i - 1)
      invariant IsFlip(byStrike, i, spotPrice, flip)
    {
      var s := byStrike[i];
      var newTotal := prevTotal + s.Net();
      if (prevTotal <= 0.0 && newTotal > 0.0) || (prevTotal >= 0.0 && newTotal < 0.0) {
        var span := newTotal - prevTotal;
        var t := if span == 0.0 then 0.5 else Ratio(0.0 - prevTotal, span);
        var crossing := prevStrike + Share(t, s.strike - prevStrike);
        assert CrossesAt(byStrike, i) && crossing == CrossingPrice(byStrike, i);
        KeepNearest(byStrike, i, spotPrice, flip);
        if flip.None? || Distance(crossing, spotPrice) < Distance(flip.value, spotPrice) {
          flip := Some(crossing);
        }
      } else {
        SkipRow(byStrike, i, spotPrice, flip);
      }
      prevStrike := s.strike;
      prevTotal := newTotal;
    }
  }

  // The reduce step: a later crossing replaces the best one only when strictly nearer.
  lemma KeepNearest(rows: seq<StrikeGex>, i: nat, spot: real, flip: Option<real>)
    requires IsFlip(rows, i, spot, flip) && CrossesAt(rows, i)
    ensures var c := CrossingPrice(rows, i);
            var nearer := flip.None? || Distance(c, spot) < Distance(flip.value, spot);
            IsFlip(rows, i + 1, spot, if nearer then Some(c) else flip)
  {
    var c := CrossingPrice(rows, i);
    if flip.Some? && !(Distance(c, spot) < Distance(flip.value, spot)) {
      var k :| 0 < k < i && CrossesAt(rows, k) && flip.value == CrossingPrice(rows, k)
        && (forall j :: 0 < j < i && CrossesAt(rows, j) ==>
            Distance(flip.value, spot) <= Distance(CrossingPrice(rows, j), spot))
        && (forall j :: 0 < j < k && CrossesAt(rows, j) ==>
            Distance(flip.value, spot) < Distance(CrossingPrice(rows, j), spot));
      assert 0 < k < i + 1;
    } else {
      assert 0 < i < i + 1;
    }
  }

  lemma SkipRow(rows: seq<StrikeGex>, i: nat, spot: real, flip: Option<real>)
    requires 0 < i && IsFlip(rows, i, spot, flip) && !CrossesAt(rows, i)
    ensures IsFlip(rows, i + 1, spot, flip)
  {
    if flip.Some? {
      var k :| 0 < k < i && CrossesAt(rows, k) && flip.value == CrossingPrice(rows, k)
        && (forall j :: 0 < j < i && CrossesAt(rows, j) ==>
            Distance(flip.value, spot) <= Distance(CrossingPrice(rows, j), spot))
        && (forall j :: 0 < j < k && CrossesAt(rows, j) ==>
            Distance(flip.value, spot) < Distance(CrossingPrice(rows, j), spot));
      assert 0 < k < i + 1;
    }
  }

  // The straight line between two points.
  function LineAt(s0: real, t0: real, s1: real, t1: real, x: real): real
    requires s0 < s1
  {
    t0 + Share(Ratio(x - s0, s1 - s0), t1 - t0)
  }

  lemma ZeroBetweenIsAZero(s0: real, t0: real, s1: real, t1: real)
    requires s0 < s1 && Crosses(t0, t1)
    ensures var x := ZeroBetween(s0, t0, s1, t1); s0 <= x < s1 && LineAt(s0, t0, s1, t1, x) == 0.0
  {
    var u := Ratio(0.0 - t0, t1 - t0);
    var x := ZeroBetween(s0, t0, s1, t1);
    UnitFraction(0.0 - t0, t1 - t0);
    ProperPart(u, s1 - s0);
    PartOfWhole(u, s1 - s0);
    assert x - s0 == Share(u, s1 - s0);
  }

  lemma UnitFraction(n: real, d: real)
    requires 0.0 <= n < d || d < n <= 0.0
    ensures 0.0 <= Ratio(n, d) < 1.0 && Share(Ratio(n, d), d) == n
  {
    var u := n / d;
    assert u * d == n;
    ProductBelow(u, if d > 0.0 then d else -d, if d > 0.0 then n else -n);
  }

  lemma ProductBelow(u: real, d: real, n: real)
    requires d > 0.0 && 0.0 <= n < d && u * d == n
    ensures 0.0 <= u < 1.0
  {
    assert u < 0.0 ==> u * d < 0.0;
    assert u >= 1.0 ==> (u - 1.0) * d >= 0.0;
  }

  lemma ProperPart(u: real, w: real)
    requires 0.0 <= u < 1.0 && w > 0.0
    ensures 0.0 <= Share(u, w) < w
  {
    var rest := Share(1.0 - u, w);
    assert rest > 0.0;
    assert rest == w - Share(u, w);
  }

  lemma PartOfWhole(u: real, w: real)
    requires w > 0.0
    ensures Ratio(Share(u, w), w) == u
  {
  }

  // No crossing is nearer to the spot price than the flip, on either side of it.
  lemma FlipIsNearest(rows: seq<StrikeGex>, spot: real, x: real, i: nat)
    requires IsFlip(rows, |rows|, spot, Some(x)) && 0 < i < |rows| && CrossesAt(rows, i)
    ensures var c := CrossingPrice(rows, i);
            if c >= spot then spot - c <= x - spot <= c - spot else c - spot <= x - spot <= spot - c
  {
    assert Distance(x, spot) <= Distance(CrossingPrice(rows, i), spot);
  }

  // Any flip lies between two neighbouring strikes whose cumulative totals
  // straddle zero, and the total interpolated there is exactly zero.
  lemma FlipIsAZeroOfTheTotals(rows: seq<StrikeGex>, spot: real, x: real)
    requires StrictlySortedBy(rows, StrikeKey)
    requires IsFlip(rows, |rows|, spot, Some(x))
    ensures exists i :: 0 < i < |rows| && CrossesAt(rows, i) && rows[i - 1].strike <= x < rows[i].strike
              && rows[i - 1].strike < rows[i].strike
              && LineAt(rows[i - 1].strike, Cumulative(rows, i - 1), rows[i].strike, Cumulative(rows, i), x) == 0.0
  {
    var i :| 0 < i < |rows| && CrossesAt(rows, i) && x == CrossingPrice(rows, i);
    var below, above := rows[i - 1].strike, rows[i].strike;
    var before, after := Cumulative(rows, i - 1), Cumulative(rows, i);
    assert StrikeKey(rows[i - 1]) < StrikeKey(rows[i]);
    ZeroBetweenIsAZero(below, before, above, after);
    assert x == ZeroBetween(below, before, above, after);
    assert CrossesAt(rows, i) && below <= x < above && LineAt(below, before, above, after, x) == 0.0;
  }

  // The totals keep one strict sign and then, perhaps, stay at zero for good.
  ghost predicate OneSided(rows: seq<StrikeGex>, n: nat, p: nat)
    requires n <= |rows|
  {
    && p <= n
    && (forall i :: p <= i < n ==> Cumulative(rows, i) == 0.0)
    && ((forall i :: 0 <= i < p ==> Cumulative(rows, i) > 0.0)
        || (forall i :: 0 <= i < p ==> Cumulative(rows, i) < 0.0))
  }

  lemma {:induction false} NoCrossingIsOneSided(rows: seq<StrikeGex>, n: nat)
    requires n <= |rows| && forall i :: 0 < i < n ==> !CrossesAt(rows, i)
    ensures exists p :: OneSided(rows, n, p)
  {
    if n == 0 {
      assert OneSided(rows, 0, 0);
    } else {
      NoCrossingIsOneSided(rows, n - 1);
      var p :| OneSided(rows, n - 1, p);
      assert n > 1 ==> !CrossesAt(rows, n - 1);
      if Cumulative(rows, n - 1) == 0.0 {
        assert OneSided(rows, n, p);
      } else {
        assert n > 1 ==> Cumulative(rows, n - 2) != 0.0;
        assert p == n - 1;
        assert OneSided(rows, n, n);
      }
    }
  }

  // Exactly when there is no flip.
  lemma NoFlipIffOneSided(rows: seq<StrikeGex>, spot: real, flip: Option<real>)
    requires IsFlip(rows, |rows|, spot, flip)
    ensures flip == None <==> exists p :: OneSided(rows, |rows|, p)
  {
    if flip == None {
      NoCrossingIsOneSided(rows, |rows|);
    }
    if p :| OneSided(rows, |rows|, p) {
      forall i | 0 < i < |rows|
        ensures !CrossesAt(rows, i)
      {
        assert i < p ==> i - 1 < p;
      }
    }
  }

  // The discrete intermediate-value theorem: totals of both signs force a flip.
  lemma BothSignsForceAFlip(rows: seq<StrikeGex>, spot: real, flip: Option<real>, a: nat, b: nat)
    requires IsFlip(rows, |rows|, spot, flip)
    requires a < |rows| && Cumulative(rows, a) < 0.0
    requires b < |rows| && Cumulative(rows, b) > 0.0
    ensures flip.Some?
  {
    NoFlipIffOneSided(rows, spot, flip);
  }
}
