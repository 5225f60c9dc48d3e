// What one tick and one refresh of the plan scheduler do when nothing else happens
// between their awaits, and where the instants of ticks come from.

module PlanTicks {
  import opened Options
  import opened Session
  import opened PlanScheduler

  // ----- The instants of ticks -----------------------------------------------------------

  function InstantOf(t: Task): Option<int> {
    match t
    case AtGate(now) => Some(now)
    case AtUpcoming(now, _) => Some(now)
    case AtNewest(now, _) => Some(now)
    case AtExisting(now, _) => Some(now)
    case _ => None
  }

  ghost predicate IsInstant(tasks: seq<Task>, now: int) {
    exists i :: 0 <= i < |tasks| && InstantOf(tasks[i]) == Some(now)
  }

  // An enabled timer tick fired at `now`.
  ghost predicate TickedAt(clock: int, zones: seq<ZoneRow>, events: seq<Event>, now: int) {
    exists k: nat :: TicksAt(clock, zones, events, k, now)
  }

  ghost predicate TicksAt(clock: int, zones: seq<ZoneRow>, events: seq<Event>, k: nat, now: int) {
    && k < |events| && events[k].Tick? && events[k].assistantEnabled
    && Run(clock, zones, events[..k]).clock + events[k].dt == now
  }

  // A task's instant stays its own for as long as it has one.
  ghost predicate KeepsInstants(s: State, t: State) {
    |t.tasks| == |s.tasks|
    && forall i :: 0 <= i < |s.tasks| && InstantOf(t.tasks[i]).Some? ==> InstantOf(t.tasks[i]) == InstantOf(s.tasks[i])
  }

  lemma GateKeepsInstants(s: State, i: nat, now: int)
    requires i < |s.tasks| && InstantOf(s.tasks[i]) == Some(now)
    ensures KeepsInstants(s, AfterPreTrigger(s, i, now)) && KeepsInstants(s, Move(s, i, AtUpcoming(now, Sent)))
  {
  }

  lemma TickKeepsInstants(s: State, i: nat, answer: Answer)
    requires i < |s.tasks|
    ensures KeepsInstants(s, ResumeTick(s, i, answer))
  {
    match s.tasks[i]
    case AtGate(now) => GateKeepsInstants(s, i, now);
    case AtUpcoming(now, _) => GateKeepsInstants(s, i, now);
    case _ =>
  }

  lemma RefreshKeepsInstants(s: State, i: nat, answer: Answer)
    requires i < |s.tasks| && s.tasks[i].Refreshing?
    ensures KeepsInstants(s, ResumeRefresh(s, i, answer))
  {
  }

  lemma ResumeKeepsInstants(s: State, i: nat, answer: Answer)
    requires i < |s.tasks|
    ensures KeepsInstants(s, ResumeTask(s, i, answer))
  {
    match s.tasks[i]
    case Refreshing(_, _, _) => RefreshKeepsInstants(s, i, answer);
    case ChatCall(_) =>
    case Done =>
    case _ => TickKeepsInstants(s, i, answer);
  }

  lemma ExecuteKeepsInstants(s: State, i: nat)
    requires i < |s.tasks|
    ensures KeepsInstants(s, ExecuteQuery(s, i))
  {
  }

  lemma ApplyKeepsInstants(s: State, e: Event)
    ensures e.Tick? || e.ChatTool? || e.BuildNow? || KeepsInstants(s, Apply(s, e))
  {
    match e
    case Execute(_, i) => if i < |s.tasks| { ExecuteKeepsInstants(s, i); }
    case Resume(_, i, answer) => if i < |s.tasks| { ResumeKeepsInstants(s, i, answer); }
    case _ =>
  }

  lemma StepKeepsInstants(s: State, e: Event, now: int)
    requires IsInstant(Step(s, e).tasks, now)
    ensures IsInstant(s.tasks, now) || (e.Tick? && e.assistantEnabled && s.clock + e.dt == now)
  {
    ApplyKeepsInstants(Later(s, e.dt), e);
    assert Step(s, e) == Apply(Later(s, e.dt), e);
    var t := Step(s, e);
    var i :| 0 <= i < |t.tasks| && InstantOf(t.tasks[i]) == Some(now);
    if i < |s.tasks| && InstantOf(s.tasks[i]) == Some(now) {
      assert IsInstant(s.tasks, now);
    }
  }

  lemma StepBeginsForTicks(s: State, e: Event, k: nat)
    requires k < |Step(s, e).starts| && Step(s, e).starts[k].origin.ByTick?
    ensures || (k < |s.starts| && Step(s, e).starts[k] == s.starts[k])
            || IsInstant(s.tasks, Step(s, e).starts[k].origin.now)
  {
    if k >= |s.starts| && e.Resume? && e.task < |s.tasks| {
      assert InstantOf(s.tasks[e.task]) == Some(Step(s, e).starts[k].origin.now);
    }
  }

  lemma TickedBefore(clock: int, zones: seq<ZoneRow>, front: seq<Event>, last: Event, now: int)
    requires TickedAt(clock, zones, front, now)
    ensures TickedAt(clock, zones, front + [last], now)
  {
    var k: nat :| TicksAt(clock, zones, front, k, now);
    assert (front + [last])[..k] == front[..k];
    assert TicksAt(clock, zones, front + [last], k, now);
  }

  lemma {:induction false} InstantsAreTicks(clock: int, zones: seq<ZoneRow>, events: seq<Event>, now: int)
    requires IsInstant(Run(clock, zones, events).tasks, now)
    ensures TickedAt(clock, zones, events, now)
  {
    if events != [] {
      var front, last := events[..|events| - 1], events[|events| - 1];
      assert events == front + [last];
      var s := Run(clock, zones, front);
      StepKeepsInstants(s, last, now);
      if IsInstant(s.tasks, now) {
        InstantsAreTicks(clock, zones, front, now);
        TickedBefore(clock, zones, front, last, now);
      } else {
        assert TicksAt(clock, zones, events, |front|, now);
      }
    }
  }

  // The instant a tick's refresh is for is one at which an enabled tick fired.
  lemma {:induction false} TickStartsHaveTicks(clock: int, zones: seq<ZoneRow>, events: seq<Event>, k: nat)
    requires var s := Run(clock, zones, events); k < |s.starts| && s.starts[k].origin.ByTick?
    ensures TickedAt(clock, zones, events, Run(clock, zones, events).starts[k].origin.now)
  {
    if events != [] {
      var front, last := events[..|events| - 1], events[|events| - 1];
      assert events == front + [last];
      var s := Run(clock, zones, front);
      var now := Run(clock, zones, events).starts[k].origin.now;
      StepBeginsForTicks(s, last, k);
      if k < |s.starts| && Step(s, last).starts[k] == s.starts[k] {
        TickStartsHaveTicks(clock, zones, front, k);
      } else {
        InstantsAreTicks(clock, zones, front, now);
      }
      TickedBefore(clock, zones, front, last, now);
    }
  }

  // ----- One tick, left alone ----------------------------------------------------------------

  // The task's query is run and answered, unless it has begun a refresh.
  function Round(s: State, i: nat): State
    requires i < |s.tasks|
    ensures |Round(s, i).tasks| == |s.tasks|
  {
    if s.tasks[i].Refreshing? then s
    else
      var queried := ExecuteQuery(s, i);
      ExecuteKeepsInstants(s, i);
      ResumeKeepsInstants(queried, i, CALM);
      ResumeTask(queried, i, CALM)
  }

  // A tick fires, nothing fails and nothing else happens until it ends or begins a
  // refresh: two queries at the most.
  function TickAlone(s: State): State {
    var i := |s.tasks|;
    var fired := s.(tasks := s.tasks + [AtGate(s.clock)]);
    Round(Round(ResumeTask(fired, i, CALM), i), i)
  }

  predicate HasZones(s: State, session: int) {
    exists r :: r in s.zones && r.session == session
  }

  // The session's zones are all an hour old.
  predicate IsStalePlan(s: State, session: int) {
    HasZones(s, session) && forall r :: r in s.zones && r.session == session ==> s.clock - r.createdAt >= 60 * 60 * 1000
  }

  // Nothing is being refreshed, and the session was not tried in the last ten minutes.
  predicate IsFree(s: State, session: int) {
    !s.refreshInFlight && (session in s.lastAttempt ==> s.clock - s.lastAttempt[session] >= 10 * 60 * 1000)
  }

  predicate NextIsNear(s: State) {
    SessionEnd(s.clock) - s.clock <= 10 * 60 * 1000
  }

  // Ten minutes before the next session the tick looks at that one first, if it has not
  // been handled.
  predicate LooksAhead(s: State) {
    NextIsNear(s) && s.lastHandled != Some(SessionEnd(s.clock))
  }

  // It stays with the current session if it does not look ahead, or finds nothing there
  // and may not begin.
  predicate StaysWithCurrent(s: State) {
    LooksAhead(s) ==> !HasZones(s, SessionEnd(s.clock)) && !IsFree(s, SessionEnd(s.clock))
  }

  // What a tick, left alone, begins to refresh.
  predicate IsDue(s: State, session: int) {
    && IsFree(s, session)
    && (|| (session == SessionEnd(s.clock) && LooksAhead(s) && !HasZones(s, session))
        || (session == SessionStart(s.clock) && StaysWithCurrent(s)
            && (if s.lastHandled == Some(session) then !NextIsNear(s) && IsStalePlan(s, session)
                else !HasZones(s, session))))
  }

  // What it marks as handled.
  predicate IsFound(s: State, session: int) {
    && HasZones(s, session) && s.lastHandled != Some(session)
    && (|| (session == SessionEnd(s.clock) && LooksAhead(s))
        || (session == SessionStart(s.clock) && StaysWithCurrent(s)))
  }

  lemma MatchingFinds(s: State, session: int)
    ensures var rows := Matching(s.zones, session, None);
            && (rows != [] <==> HasZones(s, session))
            && (rows != [] ==> (s.clock - Newest(rows) >= PLAN_REFRESH_INTERVAL_MS <==> IsStalePlan(s, session)))
  {
    var rows := Matching(s.zones, session, None);
    if rows != [] {
      assert rows[0] in rows;
      var i :| 0 <= i < |rows| && rows[i].createdAt == Newest(rows);
      assert rows[i] in rows;
      forall r | r in s.zones && r.session == session
        ensures r.createdAt <= Newest(rows)
      {
        assert r in rows;
      }
    }
    if HasZones(s, session) {
      var r :| r in s.zones && r.session == session;
      assert r in rows;
    }
  }

  // The refreshes begun and the marker are as before, but for these.
  predicate Begins(s: State, t: State, session: int) {
    t.starts == s.starts + [Start(session, s.clock, ByTick(s.clock), Matching(s.zones, session, None))]
    && t.lastHandled == s.lastHandled
  }

  predicate Marks(s: State, t: State, session: int) {
    t.starts == s.starts && t.lastHandled == Some(session)
  }

  predicate DoesNothing(s: State, t: State) {
    t.starts == s.starts && t.lastHandled == s.lastHandled
  }

  predicate IsOver(t: State, i: nat) {
    i < |t.tasks| && (t.tasks[i].Refreshing? || t.tasks[i].Done?)
  }

  lemma OverStays(t: State, i: nat)
    requires IsOver(t, i)
    ensures Round(t, i) == t
  {
  }

  lemma NewestRound(s: State, i: nat)
    requires i < |s.tasks| && s.tasks[i] == AtNewest(s.clock, Sent)
    ensures var t := Round(s, i);
            var current := SessionStart(s.clock);
            && IsOver(t, i)
            && if IsStalePlan(s, current) && IsFree(s, current) then Begins(s, t, current) else DoesNothing(s, t)
  {
    MatchingFinds(s, SessionStart(s.clock));
  }

  lemma ExistingRound(s: State, i: nat)
    requires i < |s.tasks| && s.tasks[i] == AtExisting(s.clock, Sent)
    ensures var t := Round(s, i);
            var current := SessionStart(s.clock);
            && IsOver(t, i)
            && if HasZones(s, current) then Marks(s, t, current)
               else if IsFree(s, current) then Begins(s, t, current)
               else DoesNothing(s, t)
  {
    MatchingFinds(s, SessionStart(s.clock));
  }

  // From the pre-trigger block on.
  lemma CurrentRound(s: State, i: nat)
    requires i < |s.tasks|
    ensures var t := Round(AfterPreTrigger(s, i, s.clock), i);
            var current := SessionStart(s.clock);
            && IsOver(t, i)
            && if s.lastHandled == Some(current)
               then (if !NextIsNear(s) && IsStalePlan(s, current) && IsFree(s, current) then Begins(s, t, current)
                     else DoesNothing(s, t))
               else if HasZones(s, current) then Marks(s, t, current)
               else if IsFree(s, current) then Begins(s, t, current)
               else DoesNothing(s, t)
  {
    var u, current := AfterPreTrigger(s, i, s.clock), SessionStart(s.clock);
    if s.lastHandled != Some(current) {
      ExistingRound(u, i);
    } else if !NextIsNear(s) {
      NewestRound(u, i);
    } else {
      OverStays(u, i);
    }
    SameView(s, u, Round(u, i), current);
  }

  lemma UpcomingRound(s: State, i: nat)
    requires i < |s.tasks| && s.tasks[i] == AtUpcoming(s.clock, Sent)
    ensures var t := Round(s, i);
            var next := SessionEnd(s.clock);
            if HasZones(s, next) then Marks(s, t, next) && IsOver(t, i)
            else if IsFree(s, next) then Begins(s, t, next) && IsOver(t, i)
            else t == AfterPreTrigger(ExecuteQuery(s, i), i, s.clock)
  {
    BoundariesAreFixedPoints(s.clock);
    MatchingFinds(s, SessionEnd(s.clock));
  }

  // What a tick goes by does not change until it acts.
  lemma SameView(s: State, u: State, t: State, x: int)
    requires u == s.(tasks := u.tasks)
    ensures HasZones(u, x) == HasZones(s, x) && IsStalePlan(u, x) == IsStalePlan(s, x) && IsFree(u, x) == IsFree(s, x)
    ensures Begins(u, t, x) == Begins(s, t, x) && Marks(u, t, x) == Marks(s, t, x)
    ensures DoesNothing(u, t) == DoesNothing(s, t)
  {
  }

  lemma BeginsOne(s: State, t: State, x: int, y: int)
    requires Begins(s, t, x)
    ensures !DoesNothing(s, t) && (Begins(s, t, y) ==> x == y) && !Marks(s, t, y)
  {
    assert t.starts[|s.starts|].session == x;
  }

  lemma MarksNone(s: State, t: State, y: int)
    requires t.starts == s.starts
    ensures !Begins(s, t, y)
  {
  }

  // What the tick does with the current session, or the next, is all it does.
  lemma DueIff(s: State, t: State)
    requires var current, next := SessionStart(s.clock), SessionEnd(s.clock);
             if IsDue(s, next) then Begins(s, t, next)
             else if IsDue(s, current) then Begins(s, t, current)
             else if IsFound(s, next) then Marks(s, t, next)
             else if IsFound(s, current) then Marks(s, t, current)
             else DoesNothing(s, t)
    ensures forall x :: IsDue(s, x) <==> Begins(s, t, x)
    ensures forall x :: IsFound(s, x) ==> Marks(s, t, x)
    ensures (forall x :: !IsDue(s, x) && !IsFound(s, x)) ==> DoesNothing(s, t)
  {
    var current, next := SessionStart(s.clock), SessionEnd(s.clock);
    forall x
      ensures IsDue(s, x) <==> Begins(s, t, x)
    {
      if Begins(s, t, next) { BeginsOne(s, t, next, x); }
      if Begins(s, t, current) { BeginsOne(s, t, current, x); }
      if t.starts == s.starts { MarksNone(s, t, x); }
    }
  }

  // Exactly what a tick does when it is left alone: what is due is begun, what is found
  // is marked.
  lemma TickAloneIff(s: State)
    ensures var t := TickAlone(s);
            && (forall x :: IsDue(s, x) <==> Begins(s, t, x))
            && (forall x :: IsFound(s, x) ==> Marks(s, t, x))
            && ((forall x :: !IsDue(s, x) && !IsFound(s, x)) ==> DoesNothing(s, t))
  {
    var i, now := |s.tasks|, s.clock;
    var fired := s.(tasks := s.tasks + [AtGate(now)]);
    var gate := ResumeTask(fired, i, CALM);
    var t := TickAlone(s);
    var current, next := SessionStart(now), SessionEnd(now);
    if LooksAhead(s) {
      assert gate == Move(fired, i, AtUpcoming(now, Sent));
      UpcomingRound(gate, i);
      SameView(s, gate, t, next);
      if StaysWithCurrent(s) {
        CurrentRound(ExecuteQuery(gate, i), i);
        SameView(s, ExecuteQuery(gate, i), t, current);
      } else {
        OverStays(Round(gate, i), i);
      }
    } else {
      assert gate == AfterPreTrigger(fired, i, now);
      CurrentRound(fired, i);
      OverStays(Round(gate, i), i);
      SameView(s, fired, t, current);
    }
    DueIff(s, t);
  }

  // A tick whose await fails, or whose gate finds the assistant's actions switched off,
  // ends there and does nothing.
  lemma FailedTickEnds(s: State, i: nat, answer: Answer)
    requires i < |s.tasks| && InstantOf(s.tasks[i]).Some?
    requires s.tasks[i].AtUpcoming? ==> s.tasks[i].upcoming.Answered?
    requires s.tasks[i].AtNewest? ==> s.tasks[i].newest.Answered?
    requires s.tasks[i].AtExisting? ==> s.tasks[i].existing.Answered?
    requires answer.threw || (s.tasks[i].AtGate? && !answer.actionsEnabled)
    ensures ResumeTask(s, i, answer) == s.(tasks := s.tasks[i := Done])
  {
  }

  // ----- One refresh, left alone ----------------------------------------------------------------

  // One attempt of the refresh run by task `i`: the digest, and if it comes the turn.
  function Attempt(s: State, i: nat, digestThrew: bool, turnThrew: bool): State
    requires i < |s.tasks|
  {
    ResumeKeepsInstants(s, i, Answer(digestThrew, true));
    var digested := ResumeTask(s, i, Answer(digestThrew, true));
    if digestThrew then digested else ResumeTask(digested, i, Answer(turnThrew, true))
  }

  // The flag is free again, the override null, and the zones are to be looked up.
  predicate IsReleased(t: State, i: nat, session: int, startedAt: int) {
    && i < |t.tasks| && t.tasks[i] == Refreshing(session, startedAt, Confirm(Sent))
    && !t.refreshInFlight && t.overrideAt == None
  }

  // An attempt that fails is made once more, and no attempt after that: then, or after
  // the first that succeeds, the flag is released.
  lemma FailedAttemptsAreRetriedOnce(s: State, i: nat, digestThrew: bool, turnThrew: bool)
    requires i < |s.tasks| && s.tasks[i].Refreshing? && s.tasks[i].stage.Digest? && s.overrideAt == None
    ensures var t := Attempt(s, i, digestThrew, turnThrew);
            var (session, startedAt) := (s.tasks[i].session, s.tasks[i].startedAt);
            i < |t.tasks| &&
            if (digestThrew || turnThrew) && !s.tasks[i].stage.retry
            then && t.refreshInFlight == s.refreshInFlight && t.overrideAt == None
                 && ResumeTask(t, i, CALM).tasks[i] == Refreshing(session, startedAt, Digest(true))
            else IsReleased(t, i, session, startedAt)
  {
  }

  // The turn runs under the override of its session.
  lemma TurnRunsUnderOverride(s: State, i: nat)
    requires i < |s.tasks| && s.tasks[i].Refreshing? && s.tasks[i].stage.Digest?
    ensures var t := ResumeTask(s, i, CALM); InTurn(t.tasks[i]) && t.overrideAt == Some(s.tasks[i].session)
  {
  }

  // A released refresh marks its session as handled exactly when zones of it have been
  // written since the refresh began.
  lemma ReleasedMarksIff(s: State, i: nat, session: int, startedAt: int)
    requires IsReleased(s, i, session, startedAt)
    ensures var t := ResumeTask(ExecuteQuery(s, i), i, CALM);
            && t.tasks[i].Done?
            && t.lastHandled == if exists r :: r in s.zones && r.session == session && r.createdAt >= startedAt
                                then Some(session) else s.lastHandled
  {
    var rows := Matching(s.zones, session, Some(startedAt));
    if rows != [] {
      assert rows[0] in rows;
    }
    if r :| r in s.zones && r.session == session && r.createdAt >= startedAt {
      assert r in rows;
    }
  }
}
