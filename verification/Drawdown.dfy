// Maximum drawdown and longest time under water of an equity curve, in one pass.
// Equity values are exact numbers, without a negative zero.

module Drawdown {

  import opened Options

  // The greatest of the first `j + 1` values.
  function RunMax(equity: seq<real>, j: nat): (m: real)
    requires j < |equity|
    ensures forall i :: 0 <= i <= j ==> equity[i] <= m
    ensures exists i :: 0 <= i <= j && equity[i] == m
  {
    if j == 0 then equity[0]
    else
      var before := RunMax(equity, j - 1);
      if before >= equity[j] then before else equity[j]
  }

  ghost predicate AllPositive(equity: seq<real>) {
    forall i :: 0 <= i < |equity| ==> equity[i] > 0.0
  }

  // The fall from the running peak to point `j`, as a fraction of the peak.
  function Fall(peak: real, value: real): real
    requires peak > 0.0
  {
    (peak - value) / peak
  }

  function Change(peak: real, value: real): real
    requires peak > 0.0
  {
    (value - peak) / peak
  }

  // A peak below zero turns the sign of the fraction, so nothing falls from it.
  function FallAt(equity: seq<real>, j: nat): real
    requires j < |equity|
  {
    if RunMax(equity, j) > 0.0 then Fall(RunMax(equity, j), equity[j]) else 0.0
  }

  // A fall from a peak of zero is infinite, from one below zero a rise.
  predicate UnderWater(equity: seq<real>, j: nat)
    requires j < |equity|
  {
    RunMax(equity, j) >= 0.0 && equity[j] < RunMax(equity, j)
  }

  // Where the peak is zero the point that made it divides zero by zero.
  ghost predicate PeaksAtZero(equity: seq<real>, n: nat)
    requires n <= |equity|
  {
    exists j :: 0 <= j < n && RunMax(equity, j) == 0.0
  }

  // The deepest fall from a running peak among the first `n` points.
  ghost predicate IsDeepest(equity: seq<real>, n: nat, dd: real)
    requires n <= |equity|
  {
    && (forall j :: 0 <= j < n ==> FallAt(equity, j) <= dd)
    && (if n == 0 then dd == 0.0 else exists j :: 0 <= j < n && FallAt(equity, j) == dd)
  }

  ghost predicate Submerged(equity: seq<real>, from: int, to: int)
    requires 0 <= from && to <= |equity|
  {
    forall j :: from <= j < to ==> UnderWater(equity, j)
  }

  // The longest stretch of consecutive points under water among the first `n`.
  ghost predicate IsLongest(equity: seq<real>, n: nat, longest: nat)
    requires n <= |equity|
  {
    && (exists a, b :: 0 <= a <= b <= n && b - a == longest && Submerged(equity, a, b))
    && (forall a, b :: 0 <= a <= b <= n && Submerged(equity, a, b) ==> b - a <= longest)
  }

  // The stretch under water that ends at point `n`.
  ghost predicate IsCurrent(equity: seq<real>, n: nat, current: nat)
    requires n <= |equity|
  {
    && current <= n
    && Submerged(equity, n - current, n)
    && (current < n ==> !UnderWater(equity, n - current - 1))
  }

  lemma FallSign(peak: real, value: real)
    requires peak > 0.0
    ensures (Fall(peak, value) > 0.0 <==> value < peak) && (Fall(peak, value) == 0.0 <==> value == peak)
    ensures (Fall(peak, value) >= 1.0 <==> value <= 0.0) && (Fall(peak, value) < 1.0 <==> value > 0.0)
    ensures Change(peak, value) == -Fall(peak, value)
  {
    var f := Fall(peak, value);
    assert f * peak == peak - value;
    SignOfProduct(f, peak);
    var h := f - 1.0;
    assert h * peak == f * peak - peak == -value;
    SignOfProduct(h, peak);
    var g := Change(peak, value);
    assert g * peak == value - peak;
    assert (g + f) * peak == 0.0;
    SignOfProduct(g + f, peak);
  }

  lemma SignOfProduct(x: real, y: real)
    requires y > 0.0
    ensures (x > 0.0 <==> x * y > 0.0) && (x < 0.0 <==> x * y < 0.0) && (x == 0.0 <==> x * y == 0.0)
  {
  }

  // The quotient of one turn: none for zero by zero.
  datatype Quotient = Finite(value: real) | MinusInfinity | NotANumber

  function Divided(peak: real, value: real): Quotient
    requires value <= peak
  {
    if peak != 0.0 then Finite((value - peak) / peak)
    else if value < peak then MinusInfinity
    else NotANumber
  }

  // Math.max(maxDd, -dd), with None for NaN and for what a NaN has swallowed.
  function Deeper(maxDd: Option<real>, dd: Quotient): Option<real>
    requires dd.MinusInfinity? ==> maxDd.None?
  {
    match dd
    case Finite(value) => if maxDd.Some? then Some(Higher(maxDd.value, -value)) else None
    case MinusInfinity => None
    case NotANumber => None
  }

  predicate IsNegative(dd: Quotient) {
    dd.MinusInfinity? || (dd.Finite? && dd.value < 0.0)
  }

  datatype Tally = Tally(runningMax: real, maxDd: Option<real>, longest: nat, current: nat)

  function Higher(x: real, y: real): real {
    if x >= y then x else y
  }

  // What the tally means after `n` points.
  ghost predicate Tracks(equity: seq<real>, n: nat, t: Tally)
    requires equity != [] && n <= |equity|
  {
    && t.runningMax == (if n == 0 then equity[0] else RunMax(equity, n - 1))
    && (t.maxDd.None? <==> PeaksAtZero(equity, n))
    && (t.maxDd.Some? ==> t.maxDd.value >= 0.0 && IsDeepest(equity, n, t.maxDd.value))
    && IsCurrent(equity, n, t.current)
    && IsLongest(equity, n, t.longest)
  }

  lemma TracksNothing(equity: seq<real>)
    requires equity != []
    ensures Tracks(equity, 0, Tally(equity[0], Some(0.0), 0, 0))
  {
    assert Submerged(equity, 0, 0);
  }

  // What one division says about its point.
  lemma QuotientMeans(equity: seq<real>, n: nat)
    requires n < |equity|
    ensures var dd := Divided(RunMax(equity, n), equity[n]);
            && (IsNegative(dd) <==> UnderWater(equity, n))
            && (dd.Finite? <==> RunMax(equity, n) != 0.0)
            && (dd.MinusInfinity? ==> n > 0 && RunMax(equity, n - 1) == 0.0)
            && (dd.Finite? && RunMax(equity, n) > 0.0 ==> -dd.value == FallAt(equity, n))
            && (dd.Finite? && RunMax(equity, n) < 0.0 ==> -dd.value <= 0.0)
  {
    var peak := RunMax(equity, n);
    if peak > 0.0 {
      FallSign(peak, equity[n]);
    } else if peak < 0.0 {
      var dd := (equity[n] - peak) / peak;
      assert dd * peak == equity[n] - peak <= 0.0;
      SignOfProduct(dd, -peak);
    }
  }

  lemma PeaksOneMore(equity: seq<real>, n: nat)
    requires n < |equity|
    ensures PeaksAtZero(equity, n + 1) <==> PeaksAtZero(equity, n) || RunMax(equity, n) == 0.0
  {
  }

  // The deepest fall after one more division.
  lemma DeeperMeans(equity: seq<real>, n: nat, maxDd: Option<real>)
    requires n < |equity|
    requires maxDd.None? <==> PeaksAtZero(equity, n)
    requires maxDd.Some? ==> maxDd.value >= 0.0 && IsDeepest(equity, n, maxDd.value)
    ensures var dd := Divided(RunMax(equity, n), equity[n]);
            && (dd.MinusInfinity? ==> maxDd.None?)
            && (Deeper(maxDd, dd).None? <==> PeaksAtZero(equity, n + 1))
            && (Deeper(maxDd, dd).Some? ==>
                  Deeper(maxDd, dd).value >= 0.0 && IsDeepest(equity, n + 1, Deeper(maxDd, dd).value))
  {
    QuotientMeans(equity, n);
    PeaksOneMore(equity, n);
    if maxDd.Some? {
      DeepestOfMore(equity, n, maxDd.value);
    }
  }

  // The stretch under water after one more point.
  predicate Lengthens(t: Tally, next: Tally, under: bool) {
    && next.current == (if under then t.current + 1 else 0)
    && next.longest == if under && t.longest < t.current + 1 then t.current + 1 else t.longest
  }

  lemma StretchTracks(equity: seq<real>, n: nat, t: Tally, next: Tally)
    requires n < |equity| && IsCurrent(equity, n, t.current) && IsLongest(equity, n, t.longest)
    requires Lengthens(t, next, UnderWater(equity, n))
    ensures IsCurrent(equity, n + 1, next.current) && IsLongest(equity, n + 1, next.longest)
  {
    StretchOfMore(equity, n, t.current, t.longest);
  }

  lemma TracksOneMore(equity: seq<real>, n: nat, t: Tally, next: Tally)
    requires n < |equity| && Tracks(equity, n, t)
    requires next.runningMax == RunMax(equity, n)
    requires var dd := Divided(next.runningMax, equity[n]);
             && (dd.MinusInfinity? ==> t.maxDd.None?)
             && next.maxDd == Deeper(t.maxDd, dd)
    requires Lengthens(t, next, UnderWater(equity, n))
    ensures Tracks(equity, n + 1, next)
  {
    DeeperMeans(equity, n, t.maxDd);
    StretchTracks(equity, n, t, next);
  }

  lemma PeakMoves(equity: seq<real>, n: nat, peak: real)
    requires n < |equity| && peak == if n == 0 then equity[0] else RunMax(equity, n - 1)
    ensures Higher(peak, equity[n]) == RunMax(equity, n)
  {
  }

  // The loop body of maxDrawdown at point `n`.
  method Turn(equity: seq<real>, n: nat, t: Tally) returns (next: Tally)
    requires n < |equity| && Tracks(equity, n, t)
    ensures Tracks(equity, n + 1, next)
  {
    PeakMoves(equity, n, t.runningMax);
    QuotientMeans(equity, n);
    DeeperMeans(equity, n, t.maxDd);
    next := t.(runningMax := Higher(t.runningMax, equity[n]));
    var dd := Divided(next.runningMax, equity[n]);
    next := next.(maxDd := Deeper(t.maxDd, dd));
    if IsNegative(dd) {
      next := next.(current := t.current + 1);
      next := next.(longest := if t.longest >= next.current then t.longest else next.current);
    } else {
      next := next.(current := 0);
    }
    TracksOneMore(equity, n, t, next);
  }

  // What the function returns for the whole curve.
  ghost predicate Describes(equity: seq<real>, maxDd: Option<real>, longest: nat) {
    && (maxDd.None? <==> PeaksAtZero(equity, |equity|))
    && (maxDd.Some? ==> IsDeepest(equity, |equity|, maxDd.value))
    && IsLongest(equity, |equity|, longest)
  }

  lemma NothingToDescribe()
    ensures Describes([], Some(0.0), 0)
  {
    assert Submerged([], 0, 0);
  }

  lemma TracksDescribes(equity: seq<real>, t: Tally)
    requires equity != [] && Tracks(equity, |equity|, t)
    ensures Describes(equity, t.maxDd, t.longest)
  {
  }

  // The deepest fall is not a number exactly when the running peak is zero somewhere.
  method MaxDrawdown(equity: seq<real>) returns (maxDd: Option<real>, longest: nat)
    ensures maxDd.None? <==> PeaksAtZero(equity, |equity|)
    ensures maxDd.Some? ==> IsDeepest(equity, |equity|, maxDd.value)
    ensures IsLongest(equity, |equity|, longest)
  {
    if |equity| == 0 {
      NothingToDescribe();
      return Some(0.0), 0;
    }
    var t := TallyAll(equity);
    TracksDescribes(equity, t);
    return t.maxDd, t.longest;
  }

  method TallyAll(equity: seq<real>) returns (t: Tally)
    requires equity != []
    ensures Tracks(equity, |equity|, t)
  {
    t := Tally(equity[0], Some(0.0), 0, 0);
    TracksNothing(equity);
    for n := 0 to |equity|
      invariant Tracks(equity, n, t)
    {
      t := Turn(equity, n, t);
    }
  }

  lemma DeepestOfMore(equity: seq<real>, n: nat, dd: real)
    requires n < |equity| && dd >= 0.0 && IsDeepest(equity, n, dd)
    ensures FallAt(equity, n) >= 0.0
    ensures IsDeepest(equity, n + 1, Higher(dd, FallAt(equity, n)))
  {
    if RunMax(equity, n) > 0.0 {
      FallSign(RunMax(equity, n), equity[n]);
    }
    if n == 0 {
      assert RunMax(equity, 0) == equity[0];
    } else if dd >= FallAt(equity, n) {
      var j :| 0 <= j < n && FallAt(equity, j) == dd;
      assert 0 <= j < n + 1;
    }
  }

  lemma StretchOfMore(equity: seq<real>, n: nat, current: nat, longest: nat)
    requires n < |equity| && IsCurrent(equity, n, current) && IsLongest(equity, n, longest)
    ensures UnderWater(equity, n) ==> IsCurrent(equity, n + 1, current + 1)
    ensures UnderWater(equity, n) ==> IsLongest(equity, n + 1, if longest >= current + 1 then longest else current + 1)
    ensures !UnderWater(equity, n) ==> IsCurrent(equity, n + 1, 0) && IsLongest(equity, n + 1, longest)
  {
    var a0, b0 :| 0 <= a0 <= b0 <= n && b0 - a0 == longest && Submerged(equity, a0, b0);
    var here := UnderWater(equity, n);
    var best := if here && longest < current + 1 then current + 1 else longest;
    if here {
      assert Submerged(equity, n - current, n + 1);
    }
    forall a, b | 0 <= a <= b <= n + 1 && Submerged(equity, a, b)
      ensures b - a <= best
    {
      if b == n + 1 && a < b {
        assert UnderWater(equity, n);
        assert current < n ==> !UnderWater(equity, n - current - 1);
      } else {
        assert b - a <= longest;
      }
    }
  }

  // ----- What the number means ----------------------------------------------------------

  // The greatest fall from any point to any later one, relative to the earlier.
  ghost predicate IsGreatestFall(equity: seq<real>, dd: real)
    requires AllPositive(equity)
  {
    && (forall i, j :: 0 <= i <= j < |equity| ==> Fall(equity[i], equity[j]) <= dd)
    && (equity != [] ==> exists i, j :: 0 <= i <= j < |equity| && Fall(equity[i], equity[j]) == dd)
  }

  lemma HigherPeakFallsFurther(a: real, m: real, x: real)
    requires 0.0 < a <= m && x > 0.0
    ensures Fall(a, x) <= Fall(m, x)
  {
    var f, g := Fall(a, x), Fall(m, x);
    assert f * a == a - x;
    assert g * m == m - x;
    FallSign(a, x);
    assert (1.0 - f) * a == x && (1.0 - g) * m == x;
    SmallerShare(1.0 - f, a, 1.0 - g, m);
  }

  lemma SmallerShare(p: real, a: real, q: real, m: real)
    requires 0.0 < a <= m && p * a == q * m && p > 0.0
    ensures q <= p
  {
    assert q > p ==> q * m > p * m;
    assert p * m >= p * a;
  }

  lemma DeepestIsGreatestFall(equity: seq<real>, dd: real)
    requires AllPositive(equity) && IsDeepest(equity, |equity|, dd)
    ensures IsGreatestFall(equity, dd)
  {
    forall i, j | 0 <= i <= j < |equity|
      ensures Fall(equity[i], equity[j]) <= dd
    {
      HigherPeakFallsFurther(equity[i], RunMax(equity, j), equity[j]);
      assert FallAt(equity, j) <= dd;
    }
    if equity != [] {
      var j :| 0 <= j < |equity| && FallAt(equity, j) == dd;
      var i :| 0 <= i <= j && equity[i] == RunMax(equity, j);
      assert Fall(equity[i], equity[j]) == dd;
    }
  }

  // A curve loses all of its peak or more exactly when a value of zero or less comes
  // after one above zero.
  lemma WholeLossIffNonPositive(equity: seq<real>, dd: real)
    requires IsDeepest(equity, |equity|, dd)
    ensures dd >= 1.0 <==> exists i, j :: 0 <= i < j < |equity| && equity[i] > 0.0 >= equity[j]
  {
    if i, j :| 0 <= i < j < |equity| && equity[i] > 0.0 >= equity[j] {
      assert RunMax(equity, j) >= equity[i];
      FallSign(RunMax(equity, j), equity[j]);
      assert FallAt(equity, j) <= dd;
    }
    if dd >= 1.0 {
      var j :| 0 <= j < |equity| && FallAt(equity, j) == dd;
      FallSign(RunMax(equity, j), equity[j]);
      var i :| 0 <= i <= j && equity[i] == RunMax(equity, j);
      assert equity[i] > 0.0 >= equity[j];
    }
  }

  // ----- computePortfolioStats ------------------------------------------------------------

  function Positives(equity: seq<real>): (clean: seq<real>)
    ensures AllPositive(clean)
  {
    if equity == [] then []
    else
      var last := equity[|equity| - 1];
      Positives(equity[..|equity| - 1]) + if last > 0.0 then [last] else []
  }

  // The filter drops the non-positive points and nothing else ...
  lemma {:induction false} PositivesAreKept(equity: seq<real>, x: real)
    ensures multiset(Positives(equity))[x] == if x > 0.0 then multiset(equity)[x] else 0
  {
    if equity != [] {
      var front, last := equity[..|equity| - 1], equity[|equity| - 1];
      PositivesAreKept(front, x);
      assert equity == front + [last];
      assert multiset(equity) == multiset(front) + multiset([last]);
      assert last > 0.0 ==> multiset(Positives(equity)) == multiset(Positives(front)) + multiset([last]);
      assert last <= 0.0 ==> Positives(equity) == Positives(front);
    }
  }

  // ... and leaves a clean curve as it is.
  lemma {:induction false} CleanCurvesAreKept(equity: seq<real>)
    requires AllPositive(equity)
    ensures Positives(equity) == equity
  {
    if equity != [] {
      CleanCurvesAreKept(equity[..|equity| - 1]);
      assert equity == equity[..|equity| - 1] + [equity[|equity| - 1]];
      assert equity[|equity| - 1] > 0.0;
    }
  }

  lemma PeaksArePositive(equity: seq<real>)
    requires AllPositive(equity)
    ensures !PeaksAtZero(equity, |equity|)
  {
  }

  method ExcludeNonPositiveEquity(equity: seq<real>) returns (clean: seq<real>)
    ensures clean == Positives(equity)
  {
    clean := [];
    for n := 0 to |equity|
      invariant clean == Positives(equity[..n])
    {
      assert equity[..n + 1][..n] == equity[..n];
      if equity[n] > 0.0 { clean := clean + [equity[n]]; }
    }
    assert equity[..|equity|] == equity;
  }

  // The drawdown reported for any equity list, whatever bad points it holds, is a
  // proper fraction.
  method ReportedDrawdown(equity: seq<real>) returns (maxDrawdownPct: real, maxDrawdownDurationDays: nat)
    ensures 0.0 <= maxDrawdownPct < 1.0
    ensures IsGreatestFall(Positives(equity), maxDrawdownPct)
    ensures IsLongest(Positives(equity), |Positives(equity)|, maxDrawdownDurationDays)
    ensures |Positives(equity)| == 0 ==> maxDrawdownPct == 0.0 && maxDrawdownDurationDays == 0
  {
    var clean := ExcludeNonPositiveEquity(equity);
    var maxDd;
    maxDd, maxDrawdownDurationDays := MaxDrawdown(clean);
    PeaksArePositive(clean);
    maxDrawdownPct := maxDd.value;
    DeepestIsGreatestFall(clean, maxDrawdownPct);
    WholeLossIffNonPositive(clean, maxDrawdownPct);
    if |clean| > 0 {
      FallSign(clean[0], clean[0]);
      assert Fall(clean[0], clean[0]) <= maxDrawdownPct;
    }
  }
}
