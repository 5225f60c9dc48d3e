// Trading sessions tile the UTC time line: London 08:00-13:00, New York
// 13:00-22:00, Asian 22:00-08:00. Instants are milliseconds since the epoch.

module Session {

  const HOUR: int := 3_600_000
  const DAY: int := 86_400_000

  datatype TradingSession = London | NewYork | Asian

  // Milliseconds since midnight UTC.
  function TimeOfDay(t: int): (x: int)
    ensures 0 <= x < DAY
  {
    t % 86_400_000
  }

  function UtcHour(t: int): int {
    TimeOfDay(t) / 3_600_000
  }

  function Midnight(t: int): int {
    t - TimeOfDay(t)
  }

  function Classify(t: int): TradingSession {
    var hour := UtcHour(t);
    if 8 <= hour < 13 then London
    else if 13 <= hour < 22 then NewYork
    else Asian
  }

  // An instant at which one session ends and the next begins.
  predicate IsBoundary(t: int) {
    TimeOfDay(t) in {8 * HOUR, 13 * HOUR, 22 * HOUR}
  }

  function SessionStart(t: int): (start: int)
    ensures IsBoundary(start) && start <= t
    ensures forall x :: start < x <= t ==> !IsBoundary(x)
  {
    var start :=
      match Classify(t)
      case London => Midnight(t) + 8 * HOUR
      case NewYork => Midnight(t) + 13 * HOUR
      case Asian => if UtcHour(t) < 8 then Midnight(t) - DAY + 22 * HOUR else Midnight(t) + 22 * HOUR;
    BoundariesOfDay(t);
    start
  }

  function SessionEnd(t: int): (end: int)
    ensures IsBoundary(end) && t < end
    ensures forall x :: t < x < end ==> !IsBoundary(x)
  {
    var end :=
      match Classify(t)
      case London => Midnight(t) + 13 * HOUR
      case NewYork => Midnight(t) + 22 * HOUR
      case Asian => if UtcHour(t) >= 22 then Midnight(t) + DAY + 8 * HOUR else Midnight(t) + 8 * HOUR;
    BoundariesOfDay(t);
    end
  }

  // `k` days after the midnight `m`, times of day count from there.
  lemma TimeOfNearbyDay(m: int, k: int, x: int)
    requires TimeOfDay(m) == 0 && -1 <= k <= 1 && m + k * DAY <= x < m + (k + 1) * DAY
    ensures TimeOfDay(x) == x - m - k * DAY
  {
  }

  // Where the boundaries lie, counted from a midnight, on its day and the days around it.
  predicate IsBoundaryOffset(d: int) {
    d in {-16 * HOUR, -11 * HOUR, -2 * HOUR, 8 * HOUR, 13 * HOUR, 22 * HOUR, 32 * HOUR, 37 * HOUR, 46 * HOUR}
  }

  lemma BoundaryNear(m: int, x: int)
    requires TimeOfDay(m) == 0 && m - DAY <= x < m + 2 * DAY
    ensures IsBoundary(x) <==> IsBoundaryOffset(x - m)
  {
    TimeOfNearbyDay(m, if x < m then -1 else if x < m + DAY then 0 else 1, x);
  }

  // The boundaries of the day of `t` and of the days around it.
  lemma BoundariesOfDay(t: int)
    ensures forall x :: Midnight(t) - DAY <= x < Midnight(t) + 2 * DAY ==>
        (IsBoundary(x) <==> IsBoundaryOffset(x - Midnight(t)))
  {
    forall x | Midnight(t) - DAY <= x < Midnight(t) + 2 * DAY
      ensures IsBoundary(x) <==> IsBoundaryOffset(x - Midnight(t))
    {
      BoundaryNear(Midnight(t), x);
    }
  }

  // `getSessionStart`: a fresh copy of the date, moved by its setters.
  method GetSessionStart(time: int) returns (start: int)
    ensures start == SessionStart(time)
  {
    start := time;
    if Classify(time).London? {
      start := SetUtcHours(start, 8);
    } else if Classify(time).NewYork? {
      start := SetUtcHours(start, 13);
    } else {
      if UtcHour(time) < 8 { start := start - DAY; }
      start := SetUtcHours(start, 22);
    }
  }

  method GetSessionEnd(time: int) returns (end: int)
    ensures end == SessionEnd(time)
  {
    end := time;
    if Classify(time).London? {
      end := SetUtcHours(end, 13);
    } else if Classify(time).NewYork? {
      end := SetUtcHours(end, 22);
    } else {
      if UtcHour(time) >= 22 { end := end + DAY; }
      end := SetUtcHours(end, 8);
    }
  }

  // Date.setUTCHours(hour, 0, 0, 0)
  function SetUtcHours(t: int, hour: nat): int {
    Midnight(t) + hour * HOUR
  }

  lemma StartIsTheOnlyOne(t: int, s: int)
    requires IsBoundary(s) && s <= t && forall x :: s < x <= t ==> !IsBoundary(x)
    ensures s == SessionStart(t)
  {
  }

  lemma EndIsTheOnlyOne(t: int, e: int)
    requires IsBoundary(e) && t < e && forall x :: t < x < e ==> !IsBoundary(x)
    ensures e == SessionEnd(t)
  {
  }

  // Session starts and ends are fixed points: a plan scoped to a boundary stays there.
  lemma BoundariesAreFixedPoints(t: int)
    ensures SessionStart(SessionStart(t)) == SessionStart(t)
    ensures SessionStart(SessionEnd(t)) == SessionEnd(t)
  {
    StartIsTheOnlyOne(SessionStart(t), SessionStart(t));
    StartIsTheOnlyOne(SessionEnd(t), SessionEnd(t));
  }

  // Two instants share a session exactly when one lies in the other's window.
  lemma SessionsTileTime(t: int, u: int)
    ensures SessionStart(t) <= u < SessionEnd(t) <==> SessionStart(u) == SessionStart(t)
    ensures SessionStart(u) == SessionStart(t) <==> SessionEnd(u) == SessionEnd(t)
  {
    if SessionStart(t) <= u < SessionEnd(t) {
      StartIsTheOnlyOne(u, SessionStart(t));
      EndIsTheOnlyOne(u, SessionEnd(t));
    }
    if SessionEnd(u) == SessionEnd(t) && u <= t {
      assert forall x :: u < x <= t ==> !IsBoundary(x);
      StartIsTheOnlyOne(t, SessionStart(u));
    }
    if SessionEnd(u) == SessionEnd(t) && t <= u {
      StartIsTheOnlyOne(u, SessionStart(t));
    }
    if SessionStart(u) == SessionStart(t) && u <= t {
      assert forall x :: u < x <= t ==> !IsBoundary(x);
      EndIsTheOnlyOne(u, SessionEnd(t));
    }
    if SessionStart(u) == SessionStart(t) && t <= u {
      EndIsTheOnlyOne(t, SessionEnd(u));
    }
  }

  function Following(s: TradingSession): TradingSession {
    match s
    case London => NewYork
    case NewYork => Asian
    case Asian => London
  }

  function Hours(s: TradingSession): int {
    match s
    case London => 5
    case NewYork => 9
    case Asian => 10
  }

  // A session's whole window has one label, the window after it the next label
  // of the cycle, and its length is fixed.
  lemma SessionsCycle(t: int, u: int)
    requires SessionStart(t) <= u < SessionEnd(t)
    ensures Classify(u) == Classify(t)
    ensures Classify(SessionEnd(t)) == Following(Classify(t))
    ensures SessionEnd(t) - SessionStart(t) == Hours(Classify(t)) * HOUR
  {
    var m := Midnight(t);
    var e := SessionEnd(t);
    TimeOfNearbyDay(m, if u < m then -1 else if u < m + DAY then 0 else 1, u);
    TimeOfNearbyDay(m, if e < m + DAY then 0 else 1, e);
  }
}
