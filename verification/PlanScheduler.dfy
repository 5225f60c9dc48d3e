// The daily-plan scheduler: timer ticks (which may overlap: a tick can still be
// waiting minutes for the model when later ones fire), plan builds asked for in
// chat, plain chat tool calls, the session override cell and the zone table,
// interleaved at every await.

module PlanScheduler {
  import opened Options
  import opened Session

  const PRE_TRIGGER_WINDOW_MS: int := 10 * 60 * 1000
  const PLAN_REFRESH_INTERVAL_MS: int := 60 * 60 * 1000
  const RETRY_INTERVAL_MS: int := 10 * 60 * 1000

  // ----- Data -----------------------------------------------------------------

  datatype ZoneRow = ZoneRow(session: int, symbol: string, createdAt: int)

  datatype Kind = Zones(count: nat) | TakeProfitTarget

  // A plan write between resolving its session and reaching the table. `turn` is
  // the session of the refresh turn running when it resolved, if any.
  datatype Write = Write(kind: Kind, symbol: string, session: int, resolvedAt: int, turn: Option<int>)

  // The zone rows a query reads when it executes; `since` restricts createdAt.
  datatype Query = Sent | Answered(rows: seq<ZoneRow>)

  datatype Stage =
    | Digest(retry: bool)                          // buildContextDigest
    | Turn(retry: bool, pending: Option<Write>)    // the model's turn, override set
    | Backoff                                      // RETRY_DELAY_MS
    | Confirm(written: Query)                      // the finally block's query

  datatype Task =
    | AtGate(now: int)
    | AtUpcoming(now: int, upcoming: Query)
    | AtNewest(now: int, newest: Query)
    | AtExisting(now: int, existing: Query)
    | Refreshing(session: int, startedAt: int, stage: Stage)
    | ChatCall(write: Write)
    | Done

  // What asked for a refresh: a tick that fired at `now`, or a build asked for in chat.
  datatype Origin = ByTick(now: int) | ByChat

  // History kept only to state the results: refreshes begun, sessions marked
  // handled, writes that reached their table.
  datatype Start = Start(session: int, at: int, origin: Origin, seen: seq<ZoneRow>)
  datatype Handled = Handled(session: int, seen: seq<ZoneRow>, since: Option<int>)
  datatype Landed = Landed(write: Write, ownTurn: Option<int>, at: int)

  datatype State = State(
    clock: int,
    overrideAt: Option<int>,
    lastHandled: Option<int>,
    refreshInFlight: bool,
    lastAttempt: map<int, int>,
    zones: seq<ZoneRow>,
    tasks: seq<Task>,
    starts: seq<Start>,
    handled: seq<Handled>,
    landed: seq<Landed>
  )

  datatype Answer = Answer(threw: bool, actionsEnabled: bool)

  // `dt`: milliseconds since the previous event; the clock never goes back.
  datatype Event =
    | Tick(dt: nat, assistantEnabled: bool)
    | BuildNow(dt: nat)                                           // buildDailyPlanNow
    | ChatTool(dt: nat, kind: Kind, symbol: string)               // a plan tool called from ordinary chat
    | TurnTool(dt: nat, task: nat, kind: Kind, symbol: string)    // a plan tool called by a refresh turn
    | Delete(dt: nat, session: int, symbol: string)               // clearDailyPlanZones
    | Execute(dt: nat, task: nat)                                 // the database runs a task's query
    | Resume(dt: nat, task: nat, answer: Answer)

  function Init(clock: int, zones: seq<ZoneRow>): State {
    State(clock, None, None, false, map[], zones, [], [], [], [])
  }

  // ----- Small pieces -------------------------------------------------------------

  function Matching(rows: seq<ZoneRow>, session: int, since: Option<int>): (found: seq<ZoneRow>)
    ensures forall r :: r in found <==>
        r in rows && r.session == session && (since.Some? ==> r.createdAt >= since.value)
  {
    if rows == [] then []
    else
      var rest := Matching(rows[1..], session, since);
      assert rows == [rows[0]] + rows[1..];
      if rows[0].session == session && (since.Some? ==> rows[0].createdAt >= since.value) then [rows[0]] + rest
      else rest
  }

  function Without(rows: seq<ZoneRow>, session: int, symbol: string): seq<ZoneRow> {
    if rows == [] then []
    else
      var kept := if rows[0].session == session && rows[0].symbol == symbol then [] else [rows[0]];
      kept + Without(rows[1..], session, symbol)
  }

  function Newest(rows: seq<ZoneRow>): (t: int)
    requires rows != []
    ensures exists i :: 0 <= i < |rows| && rows[i].createdAt == t
    ensures forall i :: 0 <= i < |rows| ==> rows[i].createdAt <= t
  {
    if |rows| == 1 then rows[0].createdAt
    else
      var rest := Newest(rows[1..]);
      assert forall i :: 0 < i < |rows| ==> rows[i] == rows[1..][i - 1];
      if rows[0].createdAt > rest then rows[0].createdAt else rest
  }

  predicate MayAttempt(s: State, session: int) {
    session in s.lastAttempt ==> s.clock - s.lastAttempt[session] >= RETRY_INTERVAL_MS
  }

  predicate InWindow(now: int) {
    0 <= SessionEnd(now) - now <= PRE_TRIGGER_WINDOW_MS
  }

  // resolveDailyPlanAt
  function ResolveAt(s: State): int {
    if s.overrideAt.Some? then s.overrideAt.value else s.clock
  }

  predicate InTurn(t: Task) {
    t.Refreshing? && t.stage.Turn?
  }

  // Between taking the in-flight flag and the finally block releasing it.
  predicate Busy(t: Task) {
    t.Refreshing? && !t.stage.Confirm?
  }

  // The session of the refresh turn in progress, read off the tasks themselves.
  function TurnSession(tasks: seq<Task>): Option<int> {
    if tasks == [] then None
    else if InTurn(tasks[0]) then Some(tasks[0].session)
    else TurnSession(tasks[1..])
  }

  function NewWrite(s: State, kind: Kind, symbol: string): Write {
    Write(kind, symbol, SessionStart(ResolveAt(s)), s.clock, TurnSession(s.tasks))
  }

  // setDailyPlanZones / setDailyPlanTakeProfitTarget reaching the table.
  function Land(s: State, w: Write, ownTurn: Option<int>): State {
    var zones :=
      if w.kind.Zones?
      then Without(s.zones, w.session, w.symbol) + seq(w.kind.count, i => ZoneRow(w.session, w.symbol, s.clock))
      else s.zones;
    s.(zones := zones, landed := s.landed + [Landed(w, ownTurn, s.clock)])
  }

  // refreshForSession up to its first await, with the flag known to be free.
  function BeginRefresh(s: State, i: nat, session: int, origin: Origin, seen: seq<ZoneRow>): State
    requires i < |s.tasks|
  {
    s.(refreshInFlight := true,
       lastAttempt := s.lastAttempt[session := s.clock],
       tasks := s.tasks[i := Refreshing(session, s.clock, Digest(false))],
       starts := s.starts + [Start(session, s.clock, origin, seen)])
  }

  function MarkHandled(s: State, i: nat, session: int, seen: seq<ZoneRow>, since: Option<int>): State
    requires i < |s.tasks|
  {
    s.(lastHandled := Some(session), tasks := s.tasks[i := Done],
       handled := s.handled + [Handled(session, seen, since)])
  }

  function Move(s: State, i: nat, t: Task): State
    requires i < |s.tasks|
  {
    s.(tasks := s.tasks[i := t])
  }

  // ----- maybeRefreshForNewSession ----------------------------------------------------

  // Everything after the pre-trigger block.
  function AfterPreTrigger(s: State, i: nat, now: int): State
    requires i < |s.tasks|
  {
    if Some(SessionStart(now)) == s.lastHandled then
      if !InWindow(now) then Move(s, i, AtNewest(now, Sent)) else Move(s, i, Done)
    else Move(s, i, AtExisting(now, Sent))
  }

  function ResumeTick(s: State, i: nat, answer: Answer): State
    requires i < |s.tasks|
  {
    match s.tasks[i]
    case AtGate(now) =>
      if answer.threw || !answer.actionsEnabled then Move(s, i, Done)
      else if InWindow(now) && Some(SessionEnd(now)) != s.lastHandled then Move(s, i, AtUpcoming(now, Sent))
      else AfterPreTrigger(s, i, now)
    case AtUpcoming(now, Answered(rows)) =>
      if answer.threw then Move(s, i, Done)
      else if rows != [] then MarkHandled(s, i, SessionEnd(now), rows, None)
      else if !s.refreshInFlight && MayAttempt(s, SessionEnd(now))
        then BeginRefresh(s, i, SessionEnd(now), ByTick(now), rows)
      else AfterPreTrigger(s, i, now)
    case AtNewest(now, Answered(rows)) =>
      if !answer.threw && rows != [] && s.clock - Newest(rows) >= PLAN_REFRESH_INTERVAL_MS
         && !s.refreshInFlight && MayAttempt(s, SessionStart(now))
      then BeginRefresh(s, i, SessionStart(now), ByTick(now), rows)
      else Move(s, i, Done)
    case AtExisting(now, Answered(rows)) =>
      if answer.threw then Move(s, i, Done)
      else if rows != [] then MarkHandled(s, i, SessionStart(now), rows, None)
      else if s.refreshInFlight || !MayAttempt(s, SessionStart(now)) then Move(s, i, Done)
      else BeginRefresh(s, i, SessionStart(now), ByTick(now), rows)
    case _ => s
  }

  // ----- refreshForSession after its first await ----------------------------------------

  function AttemptFailed(s: State, i: nat, t: Task, retry: bool): State
    requires i < |s.tasks| && t.Refreshing?
  {
    if retry then ReleaseFlag(s, i, t) else Move(s, i, t.(stage := Backoff))
  }

  // The finally block up to its query.
  function ReleaseFlag(s: State, i: nat, t: Task): State
    requires i < |s.tasks| && t.Refreshing?
  {
    Move(s.(refreshInFlight := false), i, t.(stage := Confirm(Sent)))
  }

  function ResumeRefresh(s: State, i: nat, answer: Answer): State
    requires i < |s.tasks| && s.tasks[i].Refreshing?
  {
    var t := s.tasks[i];
    match t.stage
    case Digest(retry) =>
      if answer.threw then AttemptFailed(s, i, t, retry)
      else Move(s.(overrideAt := Some(t.session)), i, t.(stage := Turn(retry, None)))
    case Turn(retry, Some(w)) =>    // the turn awaits its tool call: it lands, or its database write fails
      Move(if answer.threw then s else Land(s, w, Some(t.session)), i, t.(stage := Turn(retry, None)))
    case Turn(retry, None) =>
      var cleared := s.(overrideAt := None);
      if answer.threw then AttemptFailed(cleared, i, t, retry) else ReleaseFlag(cleared, i, t)
    case Backoff => Move(s, i, t.(stage := Digest(true)))
    case Confirm(Answered(rows)) =>
      if !answer.threw && rows != [] then MarkHandled(s, i, t.session, rows, Some(t.startedAt)) else Move(s, i, Done)
    case Confirm(Sent) => s
  }

  function ExecuteQuery(s: State, i: nat): State
    requires i < |s.tasks|
  {
    match s.tasks[i]
    case AtUpcoming(now, Sent) =>
      Move(s, i, AtUpcoming(now, Answered(Matching(s.zones, SessionStart(SessionEnd(now)), None))))
    case AtNewest(now, Sent) => Move(s, i, AtNewest(now, Answered(Matching(s.zones, SessionStart(now), None))))
    case AtExisting(now, Sent) => Move(s, i, AtExisting(now, Answered(Matching(s.zones, SessionStart(now), None))))
    case Refreshing(session, startedAt, Confirm(Sent)) =>
      Move(s, i, Refreshing(session, startedAt, Confirm(Answered(Matching(s.zones, session, Some(startedAt))))))
    case _ => s
  }

  function ResumeTask(s: State, i: nat, answer: Answer): State
    requires i < |s.tasks|
  {
    match s.tasks[i]
    case Refreshing(_, _, _) => ResumeRefresh(s, i, answer)
    case ChatCall(w) => Move(if answer.threw then s else Land(s, w, None), i, Done)
    case Done => s
    case _ => ResumeTick(s, i, answer)
  }

  function CallTurnTool(s: State, i: nat, kind: Kind, symbol: string): State
    requires i < |s.tasks|
  {
    var t := s.tasks[i];
    if InTurn(t) && t.stage.pending.None?
    then Move(s, i, t.(stage := t.stage.(pending := Some(NewWrite(s, kind, symbol)))))
    else s
  }

  function BuildDailyPlanNow(s: State): State {
    if s.refreshInFlight then s
    else BeginRefresh(s.(tasks := s.tasks + [Done]), |s.tasks|, SessionStart(s.clock), ByChat, [])
  }

  // Events that are not possible leave all but the clock unchanged.
  function Apply(s: State, e: Event): State {
    match e
    case Tick(_, enabled) => if enabled then s.(tasks := s.tasks + [AtGate(s.clock)]) else s
    case BuildNow(_) => BuildDailyPlanNow(s)
    case ChatTool(_, kind, symbol) => s.(tasks := s.tasks + [ChatCall(NewWrite(s, kind, symbol))])
    case TurnTool(_, i, kind, symbol) => if i < |s.tasks| then CallTurnTool(s, i, kind, symbol) else s
    case Delete(_, session, symbol) => s.(zones := Without(s.zones, session, symbol))
    case Execute(_, i) => if i < |s.tasks| then ExecuteQuery(s, i) else s
    case Resume(_, i, answer) => if i < |s.tasks| then ResumeTask(s, i, answer) else s
  }

  function Later(s: State, dt: nat): State {
    s.(clock := s.clock + dt)
  }

  function Step(s: State, e: Event): State {
    Apply(Later(s, e.dt), e)
  }

  // ----- Invariants -----------------------------------------------------------------------

  // The flag is exactly "some task holds it", and only one does; the override is
  // exactly the session of the task in its turn.
  ghost predicate ExclusiveIn(tasks: seq<Task>, inFlight: bool, overrideAt: Option<int>) {
    && (forall i, j :: 0 <= i < j < |tasks| && Busy(tasks[i]) ==> !Busy(tasks[j]))
    && (forall i :: 0 <= i < |tasks| && Busy(tasks[i]) ==> inFlight)
    && (inFlight ==> exists i :: 0 <= i < |tasks| && Busy(tasks[i]))
    && (forall i :: 0 <= i < |tasks| && InTurn(tasks[i]) ==> overrideAt == Some(tasks[i].session))
    && (overrideAt.Some? ==> exists i :: 0 <= i < |tasks| && InTurn(tasks[i]))
  }

  ghost predicate Exclusive(s: State) {
    ExclusiveIn(s.tasks, s.refreshInFlight, s.overrideAt)
  }

  // Where a write was bound to land, judged by the turn (not by the override cell).
  predicate WellScoped(w: Write) {
    w.session == if w.turn.Some? then w.turn.value else SessionStart(w.resolvedAt)
  }

  ghost predicate RowsOf(q: Query, session: int) {
    q.Answered? ==> forall r :: r in q.rows ==> r.session == session
  }

  ghost predicate TaskGood(t: Task) {
    match t
    case AtUpcoming(now, q) => InWindow(now) && RowsOf(q, SessionEnd(now))
    case AtNewest(now, q) => RowsOf(q, SessionStart(now))
    case AtExisting(now, q) => RowsOf(q, SessionStart(now))
    case Refreshing(session, startedAt, stage) =>
      && SessionStart(session) == session
      && (stage.Turn? && stage.pending.Some? ==>
            WellScoped(stage.pending.value) && stage.pending.value.turn == Some(session))
      && (stage.Confirm? && stage.written.Answered? ==>
            forall r :: r in stage.written.rows ==> r.session == session && r.createdAt >= startedAt)
    case ChatCall(w) => WellScoped(w)
    case _ => true
  }

  ghost predicate LandedGood(l: Landed) {
    && WellScoped(l.write)
    && (l.ownTurn.Some? ==> l.write.turn == l.ownTurn && l.write.session == l.ownTurn.value)
  }

  ghost predicate HandledGood(h: Handled) {
    && h.seen != []
    && forall r :: r in h.seen ==> r.session == h.session && (h.since.Some? ==> r.createdAt >= h.since.value)
  }

  // A tick may refresh its own session, or within ten minutes of its end the next.
  predicate IsTickSession(session: int, now: int) {
    || session == SessionStart(now)
    || (session == SessionEnd(now) && SessionEnd(now) - now <= PRE_TRIGGER_WINDOW_MS)
  }

  ghost predicate StartGood(b: Start) {
    match b.origin
    case ByTick(now) =>
      && IsTickSession(b.session, now)
      && (forall r :: r in b.seen ==> r.session == b.session)
      && (b.seen == [] || b.at - Newest(b.seen) >= PLAN_REFRESH_INTERVAL_MS)
    case ByChat => b.session == SessionStart(b.at)
  }

  ghost predicate SpacedIn(starts: seq<Start>, lastAttempt: map<int, int>, clock: int) {
    && (forall k :: 0 <= k < |starts| ==>
          && starts[k].session in lastAttempt
          && starts[k].at <= lastAttempt[starts[k].session] <= clock)
    && (forall j, k :: 0 <= j < k < |starts| && starts[j].session == starts[k].session && starts[k].origin.ByTick? ==>
          starts[k].at - starts[j].at >= RETRY_INTERVAL_MS)
  }

  ghost predicate Spaced(s: State) {
    SpacedIn(s.starts, s.lastAttempt, s.clock)
  }

  ghost predicate LoggedIn(landed: seq<Landed>, handled: seq<Handled>, starts: seq<Start>) {
    && (forall k :: 0 <= k < |landed| ==> LandedGood(landed[k]))
    && (forall k :: 0 <= k < |handled| ==> HandledGood(handled[k]))
    && (forall k :: 0 <= k < |starts| ==> StartGood(starts[k]))
  }

  ghost predicate Logged(s: State) {
    LoggedIn(s.landed, s.handled, s.starts)
  }

  ghost predicate TasksGoodIn(tasks: seq<Task>) {
    forall i :: 0 <= i < |tasks| ==> TaskGood(tasks[i])
  }

  ghost predicate TasksGood(s: State) {
    TasksGoodIn(s.tasks)
  }

  // The marker is the session of the last handled record.
  ghost predicate Marked(s: State) {
    s.lastHandled == if s.handled == [] then None else Some(s.handled[|s.handled| - 1].session)
  }

  ghost predicate Inv(s: State) {
    Exclusive(s) && TasksGood(s) && Logged(s) && Spaced(s) && Marked(s)
  }

  // The override cell and the running turn agree.
  lemma {:induction false} TurnSessionFinds(tasks: seq<Task>, session: Option<int>)
    requires forall i :: 0 <= i < |tasks| && InTurn(tasks[i]) ==> session == Some(tasks[i].session)
    requires session.Some? ==> exists i :: 0 <= i < |tasks| && InTurn(tasks[i])
    ensures TurnSession(tasks) == session
  {
    if tasks != [] && !InTurn(tasks[0]) {
      var rest := tasks[1..];
      forall i | 0 <= i < |rest| && InTurn(rest[i])
        ensures session == Some(rest[i].session)
      {
        assert rest[i] == tasks[i + 1];
      }
      if session.Some? {
        var i :| 0 <= i < |tasks| && InTurn(tasks[i]);
        assert rest[i - 1] == tasks[i];
      }
      TurnSessionFinds(rest, session);
    }
  }

  lemma NewWritesAreWellScoped(s: State, kind: Kind, symbol: string)
    requires Inv(s)
    ensures NewWrite(s, kind, symbol).turn == s.overrideAt
    ensures WellScoped(NewWrite(s, kind, symbol))
  {
    TurnSessionFinds(s.tasks, s.overrideAt);
    if s.overrideAt.Some? {
      var i :| 0 <= i < |s.tasks| && InTurn(s.tasks[i]);
      assert TaskGood(s.tasks[i]);
    }
  }

  // Replacing a task that does not hold the flag by another such task.
  lemma IdleMoveKeepsInv(s: State, i: nat, t: Task)
    requires Inv(s) && i < |s.tasks|
    requires !Busy(s.tasks[i]) && !Busy(t) && TaskGood(t)
    ensures Inv(Move(s, i, t))
  {
    var n := Move(s, i, t);
    if s.refreshInFlight {
      var k :| 0 <= k < |s.tasks| && Busy(s.tasks[k]);
      assert Busy(n.tasks[k]);
    }
    if s.overrideAt.Some? {
      var k :| 0 <= k < |s.tasks| && InTurn(s.tasks[k]);
      assert InTurn(n.tasks[k]);
    }
  }

  // Replacing the task that holds the flag, keeping it.
  lemma BusyMoveKeepsInv(s: State, i: nat, t: Task, overrideAt: Option<int>)
    requires Inv(s) && i < |s.tasks|
    requires Busy(s.tasks[i]) && Busy(t) && TaskGood(t)
    requires overrideAt == if InTurn(t) then Some(t.session) else None
    ensures Inv(Move(s.(overrideAt := overrideAt), i, t))
  {
    var n := Move(s.(overrideAt := overrideAt), i, t);
    assert Busy(n.tasks[i]);
    assert InTurn(t) ==> InTurn(n.tasks[i]);
  }

  lemma ReleaseKeepsInv(s: State, i: nat)
    requires Inv(s) && i < |s.tasks| && Busy(s.tasks[i])
    ensures Inv(ReleaseFlag(s.(overrideAt := None), i, s.tasks[i]))
  {
  }

  lemma AppendKeepsInv(s: State, t: Task)
    requires Inv(s) && !Busy(t) && TaskGood(t)
    ensures Inv(s.(tasks := s.tasks + [t]))
  {
    var n := s.(tasks := s.tasks + [t]);
    if s.refreshInFlight {
      var k :| 0 <= k < |s.tasks| && Busy(s.tasks[k]);
      assert Busy(n.tasks[k]);
    }
    if s.overrideAt.Some? {
      var k :| 0 <= k < |s.tasks| && InTurn(s.tasks[k]);
      assert InTurn(n.tasks[k]);
    }
  }

  lemma BeginKeepsInv(s: State, i: nat, session: int, origin: Origin, seen: seq<ZoneRow>)
    requires Inv(s) && i < |s.tasks| && !Busy(s.tasks[i]) && !s.refreshInFlight
    requires SessionStart(session) == session
    requires origin.ByTick? ==> MayAttempt(s, session)
    requires StartGood(Start(session, s.clock, origin, seen))
    ensures Inv(BeginRefresh(s, i, session, origin, seen))
  {
    var n := BeginRefresh(s, i, session, origin, seen);
    assert Busy(n.tasks[i]);
    forall j, k | 0 <= j < k < |n.tasks| && Busy(n.tasks[j])
      ensures !Busy(n.tasks[k])
    {
    }
    assert Exclusive(n);
    assert TasksGood(n);
    assert Logged(n);
  }

  lemma MarkKeepsInv(s: State, i: nat, session: int, seen: seq<ZoneRow>, since: Option<int>)
    requires Inv(s) && i < |s.tasks| && !Busy(s.tasks[i])
    requires HandledGood(Handled(session, seen, since))
    ensures Inv(MarkHandled(s, i, session, seen, since))
  {
    IdleMoveKeepsInv(s, i, Done);
  }

  lemma PastPreTriggerKeepsInv(s: State, i: nat, now: int)
    requires Inv(s) && i < |s.tasks| && !Busy(s.tasks[i])
    ensures Inv(AfterPreTrigger(s, i, now))
  {
    IdleMoveKeepsInv(s, i, Done);
    IdleMoveKeepsInv(s, i, AtNewest(now, Sent));
    IdleMoveKeepsInv(s, i, AtExisting(now, Sent));
  }

  // A query of a session's zones has come back to a tick: found, they mark it
  // handled; missing or an hour old, a refresh may begin.
  lemma TickBeginsKeepsInv(s: State, i: nat, session: int, now: int, rows: seq<ZoneRow>)
    requires Inv(s) && i < |s.tasks| && !Busy(s.tasks[i]) && IsTickSession(session, now)
    requires SessionStart(session) == session
    requires forall r :: r in rows ==> r.session == session
    ensures rows != [] ==> Inv(MarkHandled(s, i, session, rows, None))
    ensures rows == [] || s.clock - Newest(rows) >= PLAN_REFRESH_INTERVAL_MS ==>
              !s.refreshInFlight && MayAttempt(s, session) ==> Inv(BeginRefresh(s, i, session, ByTick(now), rows))
  {
    if rows != [] {
      MarkKeepsInv(s, i, session, rows, None);
    }
    if (rows == [] || s.clock - Newest(rows) >= PLAN_REFRESH_INTERVAL_MS) && !s.refreshInFlight
        && MayAttempt(s, session) {
      BeginKeepsInv(s, i, session, ByTick(now), rows);
    }
  }

  lemma TickSessions(now: int)
    ensures SessionStart(SessionStart(now)) == SessionStart(now) && IsTickSession(SessionStart(now), now)
    ensures SessionStart(SessionEnd(now)) == SessionEnd(now) && (InWindow(now) ==> IsTickSession(SessionEnd(now), now))
  {
    BoundariesAreFixedPoints(now);
  }

  lemma GateKeepsInv(s: State, i: nat, answer: Answer)
    requires Inv(s) && i < |s.tasks| && s.tasks[i].AtGate?
    ensures Inv(ResumeTick(s, i, answer))
  {
    var now := s.tasks[i].now;
    IdleMoveKeepsInv(s, i, Done);
    if InWindow(now) { IdleMoveKeepsInv(s, i, AtUpcoming(now, Sent)); }
    PastPreTriggerKeepsInv(s, i, now);
  }

  lemma ResumeTickKeepsInv(s: State, i: nat, answer: Answer)
    requires Inv(s) && i < |s.tasks| && !s.tasks[i].Refreshing?
    ensures Inv(ResumeTick(s, i, answer))
  {
    assert TaskGood(s.tasks[i]);
    match s.tasks[i]
    case AtGate(now) => GateKeepsInv(s, i, answer);
    case AtUpcoming(now, Answered(rows)) =>
      TickSessions(now);
      IdleMoveKeepsInv(s, i, Done);
      TickBeginsKeepsInv(s, i, SessionEnd(now), now, rows);
      PastPreTriggerKeepsInv(s, i, now);
    case AtNewest(now, Answered(rows)) =>
      TickSessions(now);
      IdleMoveKeepsInv(s, i, Done);
      TickBeginsKeepsInv(s, i, SessionStart(now), now, rows);
    case AtExisting(now, Answered(rows)) =>
      TickSessions(now);
      IdleMoveKeepsInv(s, i, Done);
      TickBeginsKeepsInv(s, i, SessionStart(now), now, rows);
    case _ =>
  }

  lemma LandKeepsInv(s: State, w: Write, ownTurn: Option<int>)
    requires Inv(s) && LandedGood(Landed(w, ownTurn, s.clock))
    ensures Inv(Land(s, w, ownTurn))
  {
  }

  lemma ResumeRefreshKeepsInv(s: State, i: nat, answer: Answer)
    requires Inv(s) && i < |s.tasks| && s.tasks[i].Refreshing?
    ensures Inv(ResumeRefresh(s, i, answer))
  {
    var t := s.tasks[i];
    assert TaskGood(t);
    match t.stage
    case Digest(retry) =>
      NoOverrideOutsideTurn(s, i);
      if !answer.threw {
        BusyMoveKeepsInv(s, i, t.(stage := Turn(retry, None)), Some(t.session));
      } else if retry {
        ReleaseKeepsInv(s, i);
      } else {
        BusyMoveKeepsInv(s, i, t.(stage := Backoff), None);
      }
    case Turn(retry, Some(w)) =>
      if answer.threw {
        BusyMoveKeepsInv(s, i, t.(stage := Turn(retry, None)), Some(t.session));
      } else {
        LandKeepsInv(s, w, Some(t.session));
        BusyMoveKeepsInv(Land(s, w, Some(t.session)), i, t.(stage := Turn(retry, None)), Some(t.session));
      }
    case Turn(retry, None) =>
      if answer.threw && !retry {
        BusyMoveKeepsInv(s, i, t.(stage := Backoff), None);
      } else {
        ReleaseKeepsInv(s, i);
      }
    case Backoff =>
      NoOverrideOutsideTurn(s, i);
      BusyMoveKeepsInv(s, i, t.(stage := Digest(true)), None);
    case Confirm(Answered(rows)) =>
      if !answer.threw && rows != [] {
        MarkKeepsInv(s, i, t.session, rows, Some(t.startedAt));
      } else {
        IdleMoveKeepsInv(s, i, Done);
      }
    case Confirm(Sent) =>
  }

  lemma NoOverrideOutsideTurn(s: State, i: nat)
    requires Inv(s) && i < |s.tasks| && Busy(s.tasks[i]) && !InTurn(s.tasks[i])
    ensures s.overrideAt == None
  {
    forall k | 0 <= k < |s.tasks|
      ensures !InTurn(s.tasks[k])
    {
      assert Busy(s.tasks[k]) ==> k == i;
    }
  }

  lemma ExecuteKeepsInv(s: State, i: nat)
    requires Inv(s) && i < |s.tasks|
    ensures Inv(ExecuteQuery(s, i))
  {
    assert TaskGood(s.tasks[i]);
    match s.tasks[i]
    case AtUpcoming(now, Sent) =>
      TickSessions(now);
      IdleMoveKeepsInv(s, i, AtUpcoming(now, Answered(Matching(s.zones, SessionStart(SessionEnd(now)), None))));
    case AtNewest(now, Sent) =>
      IdleMoveKeepsInv(s, i, AtNewest(now, Answered(Matching(s.zones, SessionStart(now), None))));
    case AtExisting(now, Sent) =>
      IdleMoveKeepsInv(s, i, AtExisting(now, Answered(Matching(s.zones, SessionStart(now), None))));
    case Refreshing(session, startedAt, Confirm(Sent)) =>
      var rows := Matching(s.zones, session, Some(startedAt));
      IdleMoveKeepsInv(s, i, Refreshing(session, startedAt, Confirm(Answered(rows))));
    case _ =>
  }

  lemma ResumeTaskKeepsInv(s: State, i: nat, answer: Answer)
    requires Inv(s) && i < |s.tasks|
    ensures Inv(ResumeTask(s, i, answer))
  {
    assert TaskGood(s.tasks[i]);
    match s.tasks[i]
    case Refreshing(_, _, _) => ResumeRefreshKeepsInv(s, i, answer);
    case ChatCall(w) =>
      LandKeepsInv(s, w, None);
      IdleMoveKeepsInv(if answer.threw then s else Land(s, w, None), i, Done);
    case Done =>
    case _ => ResumeTickKeepsInv(s, i, answer);
  }

  lemma CallTurnToolKeepsInv(s: State, i: nat, kind: Kind, symbol: string)
    requires Inv(s) && i < |s.tasks|
    ensures Inv(CallTurnTool(s, i, kind, symbol))
  {
    var t := s.tasks[i];
    if InTurn(t) && t.stage.pending.None? {
      NewWritesAreWellScoped(s, kind, symbol);
      assert TaskGood(t);
      BusyMoveKeepsInv(s, i, t.(stage := t.stage.(pending := Some(NewWrite(s, kind, symbol)))), s.overrideAt);
    }
  }

  lemma BuildNowKeepsInv(s: State)
    requires Inv(s)
    ensures Inv(BuildDailyPlanNow(s))
  {
    if !s.refreshInFlight {
      AppendKeepsInv(s, Done);
      BoundariesAreFixedPoints(s.clock);
      BeginKeepsInv(s.(tasks := s.tasks + [Done]), |s.tasks|, SessionStart(s.clock), ByChat, []);
    }
  }

  lemma ChatToolKeepsInv(s: State, kind: Kind, symbol: string)
    requires Inv(s)
    ensures Inv(s.(tasks := s.tasks + [ChatCall(NewWrite(s, kind, symbol))]))
  {
    NewWritesAreWellScoped(s, kind, symbol);
    AppendKeepsInv(s, ChatCall(NewWrite(s, kind, symbol)));
  }

  lemma ApplyKeepsInv(s: State, e: Event)
    requires Inv(s)
    ensures Inv(Apply(s, e))
  {
    var n := Apply(s, e);
    match e
    case Tick(_, enabled) => AppendKeepsInv(s, AtGate(s.clock));
    case BuildNow(_) => BuildNowKeepsInv(s);
    case ChatTool(_, kind, symbol) => ChatToolKeepsInv(s, kind, symbol);
    case TurnTool(_, i, kind, symbol) => if i < |s.tasks| { CallTurnToolKeepsInv(s, i, kind, symbol); }
    case Delete(_, _, _) => assert Exclusive(n) && TasksGood(n);
    case Execute(_, i) => if i < |s.tasks| { ExecuteKeepsInv(s, i); }
    case Resume(_, i, answer) => if i < |s.tasks| { ResumeTaskKeepsInv(s, i, answer); }
  }

  lemma LaterKeepsInv(s: State, dt: nat)
    requires Inv(s)
    ensures Inv(Later(s, dt))
  {
  }

  lemma StepKeepsInv(s: State, e: Event)
    requires Inv(s)
    ensures Inv(Step(s, e))
  {
    LaterKeepsInv(s, e.dt);
    ApplyKeepsInv(Later(s, e.dt), e);
    assert Step(s, e) == Apply(Later(s, e.dt), e);
  }

  function Run(clock: int, zones: seq<ZoneRow>, events: seq<Event>): State {
    if events == [] then Init(clock, zones) else Step(Run(clock, zones, events[..|events| - 1]), events[|events| - 1])
  }

  lemma {:induction false} RunKeepsInv(clock: int, zones: seq<ZoneRow>, events: seq<Event>)
    ensures Inv(Run(clock, zones, events))
  {
    if events != [] {
      RunKeepsInv(clock, zones, events[..|events| - 1]);
      StepKeepsInv(Run(clock, zones, events[..|events| - 1]), events[|events| - 1]);
    }
  }

  // ----- Over every interleaving ---------------------------------------------------------------

  // No two refresh turns overlap, and outside turns the override is null.
  lemma TurnsNeverOverlap(clock: int, zones: seq<ZoneRow>, events: seq<Event>)
    ensures var s := Run(clock, zones, events);
            && (forall i, j :: 0 <= i < |s.tasks| && 0 <= j < |s.tasks| ==>
                  InTurn(s.tasks[i]) && InTurn(s.tasks[j]) ==> i == j)
            && s.overrideAt == TurnSession(s.tasks)
            && (s.refreshInFlight <==> exists i :: 0 <= i < |s.tasks| && Busy(s.tasks[i]))
  {
    RunKeepsInv(clock, zones, events);
    var s := Run(clock, zones, events);
    TurnSessionFinds(s.tasks, s.overrideAt);
    forall i, j | 0 <= i < |s.tasks| && 0 <= j < |s.tasks| && InTurn(s.tasks[i]) && InTurn(s.tasks[j])
      ensures i == j
    {
      assert Busy(s.tasks[i]) && Busy(s.tasks[j]);
      assert !(i < j) && !(j < i);
    }
  }

  // Every plan write that resolved while a refresh turn was running - the turn's
  // own tool calls and any chat tool call alike - lands on the turn's session, up
  // to ten minutes before that session begins; every other one on the session of
  // the moment it resolved.
  lemma WritesLandOnTheTurnsSession(clock: int, zones: seq<ZoneRow>, events: seq<Event>, k: nat)
    requires k < |Run(clock, zones, events).landed|
    ensures var l := Run(clock, zones, events).landed[k];
            && l.write.session == (if l.write.turn.Some? then l.write.turn.value else SessionStart(l.write.resolvedAt))
            && (l.ownTurn.Some? ==> l.write.session == l.ownTurn.value)
  {
    RunKeepsInv(clock, zones, events);
    assert LandedGood(Run(clock, zones, events).landed[k]);
  }

  // A tick never begins a refresh of a session within RETRY_INTERVAL_MS of that
  // session's previous recorded attempt, whoever began it; and it begins one only
  // on its own query having found no zones, or none newer than an hour.
  lemma TickStartsAreSpacedAndNeeded(clock: int, zones: seq<ZoneRow>, events: seq<Event>, k: nat)
    requires var s := Run(clock, zones, events); k < |s.starts| && s.starts[k].origin.ByTick?
    ensures var starts := Run(clock, zones, events).starts;
            && (forall j :: 0 <= j < k && starts[j].session == starts[k].session ==>
                starts[k].at - starts[j].at >= RETRY_INTERVAL_MS)
            && (forall r :: r in starts[k].seen ==>
                r.session == starts[k].session && r.createdAt + PLAN_REFRESH_INTERVAL_MS <= starts[k].at)
  {
    RunKeepsInv(clock, zones, events);
    var starts := Run(clock, zones, events).starts;
    assert StartGood(starts[k]);
    forall r | r in starts[k].seen
      ensures r.createdAt + PLAN_REFRESH_INTERVAL_MS <= starts[k].at
    {
      var i :| 0 <= i < |starts[k].seen| && starts[k].seen[i] == r;
    }
  }

  // A build asked for in chat is for the session of its moment; a tick's refresh is for
  // the session of the instant the tick fired, or for the next one within ten minutes
  // of its start.
  lemma StartsAreForTheirSession(clock: int, zones: seq<ZoneRow>, events: seq<Event>, k: nat)
    requires k < |Run(clock, zones, events).starts|
    ensures var b := Run(clock, zones, events).starts[k];
            match b.origin
            case ByChat => b.session == SessionStart(b.at)
            case ByTick(now) =>
              || b.session == SessionStart(now)
              || (b.session == SessionEnd(now) && 0 < b.session - now <= 10 * 60 * 1000)
  {
    RunKeepsInv(clock, zones, events);
    assert StartGood(Run(clock, zones, events).starts[k]);
  }

  // A chat tool's plan write strays from its own moment's session exactly when a
  // refresh turn for another session is running.
  lemma ChatWriteStraysIff(clock: int, zones: seq<ZoneRow>, events: seq<Event>, kind: Kind, symbol: string)
    ensures var s := Run(clock, zones, events);
            NewWrite(s, kind, symbol).session != SessionStart(s.clock)
            <==> exists i :: 0 <= i < |s.tasks| && InTurn(s.tasks[i]) && s.tasks[i].session != SessionStart(s.clock)
  {
    var s := Run(clock, zones, events);
    RunKeepsInv(clock, zones, events);
    forall i | 0 <= i < |s.tasks| && InTurn(s.tasks[i])
      ensures NewWrite(s, kind, symbol).session == s.tasks[i].session
    {
      assert TaskGood(s.tasks[i]);
    }
    if s.overrideAt.Some? {
      var i :| 0 <= i < |s.tasks| && InTurn(s.tasks[i]);
      assert NewWrite(s, kind, symbol).session == s.tasks[i].session;
    }
  }

  lemma RunOfMore(clock: int, zones: seq<ZoneRow>, events: seq<Event>, e: Event)
    ensures Run(clock, zones, events + [e]) == Step(Run(clock, zones, events), e)
  {
    assert (events + [e])[..|events|] == events;
  }

  const CALM: Answer := Answer(false, true)

  // A tick inside the window takes its turn ...
  function PreTrigger(): seq<Event> {
    [Tick(0, true)] + [Resume(0, 0, CALM)] + [Execute(0, 0)] + [Resume(0, 0, CALM)] + [Resume(0, 0, CALM)]
  }

  // ... and a chat call sets a zone meanwhile.
  function ChatMeanwhile(): seq<Event> {
    PreTrigger() + [ChatTool(0, Zones(1), "NQ")] + [Resume(0, 1, CALM)]
  }

  function PreTriggered(now: int): State {
    var next := SessionEnd(now);
    State(now, Some(next), None, true, map[next := now], [], [Refreshing(next, now, Turn(false, None))],
          [Start(next, now, ByTick(now), [])], [], [])
  }

  lemma PreTriggerTakesItsTurn(now: int)
    requires InWindow(now)
    ensures Run(now, [], PreTrigger()) == PreTriggered(now)
  {
    var next := SessionEnd(now);
    var e1 := [Tick(0, true)];
    var e2 := e1 + [Resume(0, 0, CALM)];
    var e3 := e2 + [Execute(0, 0)];
    var e4 := e3 + [Resume(0, 0, CALM)];
    var idle := Init(now, []);
    BoundariesAreFixedPoints(now);
    assert [] + e1 == e1;
    RunOfMore(now, [], [], Tick(0, true));
    assert Run(now, [], e1) == idle.(tasks := [AtGate(now)]);
    RunOfMore(now, [], e1, Resume(0, 0, CALM));
    assert Run(now, [], e2) == idle.(tasks := [AtUpcoming(now, Sent)]);
    RunOfMore(now, [], e2, Execute(0, 0));
    assert Run(now, [], e3) == idle.(tasks := [AtUpcoming(now, Answered([]))]);
    RunOfMore(now, [], e3, Resume(0, 0, CALM));
    assert Run(now, [], e4) == PreTriggered(now).(overrideAt := None, tasks := [Refreshing(next, now, Digest(false))]);
    RunOfMore(now, [], e4, Resume(0, 0, CALM));
  }

  // The override does reach a manual chat request: in every pre-trigger window, a zone
  // set in chat while the plan turn runs is stored for the session still to come.
  lemma ChatWriteCanStray(now: int)
    requires InWindow(now)
    ensures var s := Run(now, [], ChatMeanwhile());
            var write := Write(Zones(1), "NQ", SessionEnd(now), now, Some(SessionEnd(now)));
            && s.landed == [Landed(write, None, now)]
            && s.zones == [ZoneRow(SessionEnd(now), "NQ", now)]
            && SessionEnd(now) != SessionStart(now)
  {
    var next := SessionEnd(now);
    var before := PreTriggered(now);
    var write := Write(Zones(1), "NQ", next, now, Some(next));
    var e6 := PreTrigger() + [ChatTool(0, Zones(1), "NQ")];
    BoundariesAreFixedPoints(now);
    PreTriggerTakesItsTurn(now);
    RunOfMore(now, [], PreTrigger(), ChatTool(0, Zones(1), "NQ"));
    assert NewWrite(before, Zones(1), "NQ") == write;
    assert Run(now, [], e6) == before.(tasks := before.tasks + [ChatCall(write)]);
    RunOfMore(now, [], e6, Resume(0, 1, CALM));
    assert Without([], next, "NQ") + seq(1, i => ZoneRow(next, "NQ", now)) == [ZoneRow(next, "NQ", now)];
  }

  // ----- Where the rows of the zone table come from ---------------------------------------------

  predicate Produced(l: Landed, r: ZoneRow) {
    l.write.kind.Zones? && l.write.session == r.session && l.write.symbol == r.symbol && l.at == r.createdAt
  }

  // The row was there from the start, or a landed write stored it.
  ghost predicate Known(r: ZoneRow, initial: seq<ZoneRow>, landed: seq<Landed>) {
    r in initial || exists k :: 0 <= k < |landed| && Produced(landed[k], r)
  }

  ghost predicate AllKnown(rows: seq<ZoneRow>, initial: seq<ZoneRow>, landed: seq<Landed>) {
    forall r :: r in rows ==> Known(r, initial, landed)
  }

  // What the task's last query read.
  function RowsRead(t: Task): seq<ZoneRow> {
    match t
    case AtUpcoming(_, Answered(rows)) => rows
    case AtNewest(_, Answered(rows)) => rows
    case AtExisting(_, Answered(rows)) => rows
    case Refreshing(_, _, Confirm(Answered(rows))) => rows
    case _ => []
  }

  ghost predicate Traced(s: State, initial: seq<ZoneRow>) {
    && AllKnown(s.zones, initial, s.landed)
    && (forall i :: 0 <= i < |s.tasks| ==> AllKnown(RowsRead(s.tasks[i]), initial, s.landed))
    && (forall k :: 0 <= k < |s.handled| ==> AllKnown(s.handled[k].seen, initial, s.landed))
    && (forall k :: 0 <= k < |s.starts| ==> AllKnown(s.starts[k].seen, initial, s.landed))
  }

  lemma {:induction false} WithoutIn(rows: seq<ZoneRow>, session: int, symbol: string, r: ZoneRow)
    ensures r in Without(rows, session, symbol) <==> r in rows && !(r.session == session && r.symbol == symbol)
  {
    if rows != [] {
      WithoutIn(rows[1..], session, symbol, r);
      assert rows == [rows[0]] + rows[1..];
    }
  }

  // Reaching the table, a zone write replaces its own session's rows for its symbol,
  // and no other row.
  lemma LandReplacesPlan(s: State, w: Write, ownTurn: Option<int>, r: ZoneRow)
    requires w.kind.Zones?
    ensures r in Land(s, w, ownTurn).zones
       <==> (r in s.zones && !(r.session == w.session && r.symbol == w.symbol))
            || (w.kind.count > 0 && r == ZoneRow(w.session, w.symbol, s.clock))
  {
    WithoutIn(s.zones, w.session, w.symbol, r);
    var added := seq(w.kind.count, i => ZoneRow(w.session, w.symbol, s.clock));
    assert w.kind.count > 0 ==> added[0] in added;
  }

  lemma MoveKeepsTraced(s: State, i: nat, t: Task, initial: seq<ZoneRow>)
    requires Traced(s, initial) && i < |s.tasks| && AllKnown(RowsRead(t), initial, s.landed)
    ensures Traced(Move(s, i, t), initial)
  {
  }

  lemma LandKeepsTraced(s: State, w: Write, ownTurn: Option<int>, initial: seq<ZoneRow>)
    requires Traced(s, initial)
    ensures Traced(Land(s, w, ownTurn), initial)
  {
    var t := Land(s, w, ownTurn);
    forall r | Known(r, initial, s.landed)
      ensures Known(r, initial, t.landed)
    {
      if r !in initial {
        var k :| 0 <= k < |s.landed| && Produced(s.landed[k], r);
        assert t.landed[k] == s.landed[k];
      }
    }
    assert t.landed[|s.landed|] == Landed(w, ownTurn, s.clock);
    forall r | r in t.zones
      ensures Known(r, initial, t.landed)
    {
      if w.kind.Zones? { LandReplacesPlan(s, w, ownTurn, r); }
    }
  }

  lemma MarkKeepsTraced(s: State, i: nat, session: int, rows: seq<ZoneRow>, initial: seq<ZoneRow>)
    requires Traced(s, initial) && i < |s.tasks| && AllKnown(rows, initial, s.landed)
    ensures Traced(MarkHandled(s, i, session, rows, None), initial)
  {
  }

  lemma BeginKeepsTraced(s: State, i: nat, session: int, now: int, rows: seq<ZoneRow>, initial: seq<ZoneRow>)
    requires Traced(s, initial) && i < |s.tasks| && AllKnown(rows, initial, s.landed)
    ensures Traced(BeginRefresh(s, i, session, ByTick(now), rows), initial)
  {
  }

  lemma AfterPreTriggerKeepsTraced(s: State, i: nat, now: int, initial: seq<ZoneRow>)
    requires Traced(s, initial) && i < |s.tasks|
    ensures Traced(AfterPreTrigger(s, i, now), initial)
  {
    MoveKeepsTraced(s, i, AtNewest(now, Sent), initial);
    MoveKeepsTraced(s, i, AtExisting(now, Sent), initial);
    MoveKeepsTraced(s, i, Done, initial);
  }

  lemma ResumeTickKeepsTraced(s: State, i: nat, answer: Answer, initial: seq<ZoneRow>)
    requires Traced(s, initial) && i < |s.tasks| && !s.tasks[i].Refreshing?
    ensures Traced(ResumeTick(s, i, answer), initial)
  {
    assert AllKnown(RowsRead(s.tasks[i]), initial, s.landed);
    MoveKeepsTraced(s, i, Done, initial);
    match s.tasks[i]
    case AtGate(now) =>
      MoveKeepsTraced(s, i, AtUpcoming(now, Sent), initial);
      AfterPreTriggerKeepsTraced(s, i, now, initial);
    case AtUpcoming(now, Answered(rows)) =>
      MarkKeepsTraced(s, i, SessionEnd(now), rows, initial);
      BeginKeepsTraced(s, i, SessionEnd(now), now, rows, initial);
      AfterPreTriggerKeepsTraced(s, i, now, initial);
    case AtNewest(now, Answered(rows)) =>
      BeginKeepsTraced(s, i, SessionStart(now), now, rows, initial);
    case AtExisting(now, Answered(rows)) =>
      MarkKeepsTraced(s, i, SessionStart(now), rows, initial);
      BeginKeepsTraced(s, i, SessionStart(now), now, rows, initial);
    case _ =>
  }

  lemma ExecuteKeepsTraced(s: State, i: nat, initial: seq<ZoneRow>)
    requires Traced(s, initial) && i < |s.tasks|
    ensures Traced(ExecuteQuery(s, i), initial)
  {
    match s.tasks[i]
    case AtUpcoming(now, Sent) =>
      MoveKeepsTraced(s, i, AtUpcoming(now, Answered(Matching(s.zones, SessionStart(SessionEnd(now)), None))), initial);
    case AtNewest(now, Sent) =>
      MoveKeepsTraced(s, i, AtNewest(now, Answered(Matching(s.zones, SessionStart(now), None))), initial);
    case AtExisting(now, Sent) =>
      MoveKeepsTraced(s, i, AtExisting(now, Answered(Matching(s.zones, SessionStart(now), None))), initial);
    case Refreshing(session, startedAt, Confirm(Sent)) =>
      var rows := Matching(s.zones, session, Some(startedAt));
      MoveKeepsTraced(s, i, Refreshing(session, startedAt, Confirm(Answered(rows))), initial);
    case _ =>
  }

  lemma ResumeTaskKeepsTraced(s: State, i: nat, answer: Answer, initial: seq<ZoneRow>)
    requires Traced(s, initial) && i < |s.tasks|
    ensures Traced(ResumeTask(s, i, answer), initial)
  {
    match s.tasks[i]
    case Refreshing(_, _, _) => ResumeRefreshKeepsTraced(s, i, answer, initial);
    case ChatCall(w) =>
      LandKeepsTraced(s, w, None, initial);
      MoveKeepsTraced(if answer.threw then s else Land(s, w, None), i, Done, initial);
    case Done =>
    case _ => ResumeTickKeepsTraced(s, i, answer, initial);
  }

  lemma ResumeRefreshKeepsTraced(s: State, i: nat, answer: Answer, initial: seq<ZoneRow>)
    requires Traced(s, initial) && i < |s.tasks| && s.tasks[i].Refreshing?
    ensures Traced(ResumeRefresh(s, i, answer), initial)
  {
    var t := s.tasks[i];
    assert AllKnown(RowsRead(t), initial, s.landed);
    if t.stage.Turn? && t.stage.pending.Some? && !answer.threw {
      LandKeepsTraced(s, t.stage.pending.value, Some(t.session), initial);
      MoveKeepsTraced(Land(s, t.stage.pending.value, Some(t.session)), i, t.(stage := Turn(t.stage.retry, None)),
                      initial);
    }
  }

  lemma ApplyKeepsTraced(s: State, e: Event, initial: seq<ZoneRow>)
    requires Traced(s, initial)
    ensures Traced(Apply(s, e), initial)
  {
    match e
    case Tick(_, _) =>
    case BuildNow(_) =>
    case ChatTool(_, _, _) =>
    case TurnTool(_, _, _, _) =>
    case Delete(_, session, symbol) =>
      forall r | r in Without(s.zones, session, symbol)
        ensures Known(r, initial, s.landed)
      {
        WithoutIn(s.zones, session, symbol, r);
      }
    case Execute(_, i) => if i < |s.tasks| { ExecuteKeepsTraced(s, i, initial); }
    case Resume(_, i, answer) => if i < |s.tasks| { ResumeTaskKeepsTraced(s, i, answer, initial); }
  }

  lemma {:induction false} RunKeepsTraced(clock: int, zones: seq<ZoneRow>, events: seq<Event>)
    ensures Traced(Run(clock, zones, events), zones)
  {
    if events != [] {
      var before := Run(clock, zones, events[..|events| - 1]);
      var e := events[|events| - 1];
      RunKeepsTraced(clock, zones, events[..|events| - 1]);
      assert Traced(Later(before, e.dt), zones);
      ApplyKeepsTraced(Later(before, e.dt), e, zones);
    }
  }

  // Every row of the zone table was there from the start or was stored by a landed
  // write, for the session of the turn running when that write resolved, or else for
  // the session of that moment.
  lemma ZonesComeFromLandedWrites(clock: int, zones: seq<ZoneRow>, events: seq<Event>, r: ZoneRow)
    requires r in Run(clock, zones, events).zones && r !in zones
    ensures exists k :: 0 <= k < |Run(clock, zones, events).landed|
              && var l := Run(clock, zones, events).landed[k];
                 && Produced(l, r)
                 && r.session == if l.write.turn.Some? then l.write.turn.value else SessionStart(l.write.resolvedAt)
  {
    RunKeepsTraced(clock, zones, events);
    var landed := Run(clock, zones, events).landed;
    var k :| 0 <= k < |landed| && Produced(landed[k], r);
    WritesLandOnTheTurnsSession(clock, zones, events, k);
  }

  // A session stands marked as handled only on zones of that very session read back
  // from the table, each there from the start or stored by a landed write; after a
  // refresh, only zones written since it began.
  lemma HandledMeansZonesSeen(clock: int, zones: seq<ZoneRow>, events: seq<Event>)
    requires Run(clock, zones, events).lastHandled.Some?
    ensures var s := Run(clock, zones, events);
            && s.handled != []
            && var h := s.handled[|s.handled| - 1];
               && h.session == s.lastHandled.value && h.seen != []
               && forall r :: r in h.seen ==>
                    r.session == h.session && (h.since.Some? ==> r.createdAt >= h.since.value)
                        && Known(r, zones, s.landed)
  {
    RunKeepsInv(clock, zones, events);
    RunKeepsTraced(clock, zones, events);
    var s := Run(clock, zones, events);
    var h := s.handled[|s.handled| - 1];
    assert HandledGood(h) && AllKnown(h.seen, zones, s.landed);
  }

  // ----- The module's own variables ---------------------------------------------------------------

  // `lastHandledSessionStart`, `refreshInFlight`, `lastAttemptAtBySession` and the
  // override cell, beside the zone table and the calls suspended at an await.
  class DailyPlanScheduler {
    var overrideAt: Option<int>
    var lastHandledSessionStart: Option<int>
    var refreshInFlight: bool
    var lastAttemptAtBySession: map<int, int>
    var clock: int
    var zones: seq<ZoneRow>
    var tasks: seq<Task>
    ghost var starts: seq<Start>
    ghost var handled: seq<Handled>
    ghost var landed: seq<Landed>

    ghost function Value(): State
      reads this
    {
      State(clock, overrideAt, lastHandledSessionStart, refreshInFlight, lastAttemptAtBySession, zones, tasks, starts,
            handled, landed)
    }

    ghost predicate Valid()
      reads this
    {
      Inv(Value())
    }

    constructor (clock: int, zones: seq<ZoneRow>)
      ensures Valid() && Value() == Init(clock, zones)
    {
      this.clock, this.zones, tasks := clock, zones, [];
      overrideAt, lastHandledSessionStart, refreshInFlight, lastAttemptAtBySession := None, None, false, map[];
      starts, handled, landed := [], [], [];
    }

    method SetDailyPlanSessionOverride(at: Option<int>)
      modifies `overrideAt
      ensures overrideAt == at
    {
      overrideAt := at;
    }

    // Where a plan write made now belongs: to the turn in progress, if there is one.
    method ResolveDailyPlanAt() returns (at: int)
      requires Valid()
      ensures SessionStart(at) == if TurnSession(tasks).Some? then TurnSession(tasks).value else SessionStart(clock)
    {
      at := if overrideAt.Some? then overrideAt.value else clock;
      NewWritesAreWellScoped(Value(), TakeProfitTarget, "");
    }

    method MayAttemptSession(session: int) returns (may: bool)
      ensures may == MayAttempt(Value(), session)
    {
      if session !in lastAttemptAtBySession { return true; }
      may := clock - lastAttemptAtBySession[session] >= RETRY_INTERVAL_MS;
    }

    // refreshForSession up to its first await, run by task `i`.
    method RefreshForSession(i: nat, session: int, ghost origin: Origin, ghost seen: seq<ZoneRow>)
        returns (skippedInFlight: bool)
      requires i < |tasks|
      modifies `refreshInFlight, `lastAttemptAtBySession, `tasks, `starts
      ensures skippedInFlight == old(refreshInFlight)
      ensures Value() == if skippedInFlight then old(Value()) else BeginRefresh(old(Value()), i, session, origin, seen)
    {
      if refreshInFlight { return true; }
      refreshInFlight := true;
      lastAttemptAtBySession := lastAttemptAtBySession[session := clock];
      tasks := tasks[i := Refreshing(session, clock, Digest(false))];
      starts := starts + [Start(session, clock, origin, seen)];
      return false;
    }

    method BuildDailyPlanNow(dt: nat) returns (skippedInFlight: bool)
      requires Valid()
      modifies this
      ensures Valid() && Value() == Step(old(Value()), BuildNow(dt))
      ensures skippedInFlight == old(refreshInFlight)
      ensures !skippedInFlight ==>
                tasks == old(tasks) + [Refreshing(SessionStart(clock), old(clock) + dt, Digest(false))]
    {
      StepKeepsInv(Value(), BuildNow(dt));
      clock := clock + dt;
      if refreshInFlight { return true; }
      tasks := tasks + [Done];
      var start := GetSessionStart(clock);
      skippedInFlight := RefreshForSession(|tasks| - 1, start, ByChat, []);
    }

    method Finish(i: nat, session: int, ghost seen: seq<ZoneRow>, ghost since: Option<int>)
      requires i < |tasks|
      modifies `lastHandledSessionStart, `tasks, `handled
      ensures Value() == MarkHandled(old(Value()), i, session, seen, since)
    {
      lastHandledSessionStart := Some(session);
      tasks := tasks[i := Done];
      handled := handled + [Handled(session, seen, since)];
    }

    method PastPreTrigger(i: nat, now: int)
      requires i < |tasks|
      modifies `tasks
      ensures Value() == AfterPreTrigger(old(Value()), i, now)
    {
      var currentSessionStart := GetSessionStart(now);
      var upcomingSessionStart := GetSessionEnd(now);
      var msUntilUpcoming := upcomingSessionStart - now;
      if Some(currentSessionStart) == lastHandledSessionStart
          && !(msUntilUpcoming >= 0 && msUntilUpcoming <= PRE_TRIGGER_WINDOW_MS) {
        tasks := tasks[i := AtNewest(now, Sent)];
        return;
      }
      if Some(currentSessionStart) == lastHandledSessionStart {
        tasks := tasks[i := Done];
        return;
      }
      tasks := tasks[i := AtExisting(now, Sent)];
    }

    // maybeRefreshForNewSession from one await to the next.
    method ResumeMaybeRefresh(i: nat, answer: Answer)
      requires i < |tasks| && !tasks[i].Refreshing?
      modifies `lastHandledSessionStart, `handled, `refreshInFlight, `lastAttemptAtBySession, `tasks, `starts
      ensures Value() == ResumeTick(old(Value()), i, answer)
    {
      match tasks[i]
      case AtGate(now) =>
        var upcomingSessionStart := GetSessionEnd(now);
        var msUntilUpcoming := upcomingSessionStart - now;
        if answer.threw || !answer.actionsEnabled {
          tasks := tasks[i := Done];
        } else if msUntilUpcoming >= 0 && msUntilUpcoming <= PRE_TRIGGER_WINDOW_MS
            && Some(upcomingSessionStart) != lastHandledSessionStart {
          tasks := tasks[i := AtUpcoming(now, Sent)];
        } else {
          PastPreTrigger(i, now);
        }
      case AtUpcoming(now, Answered(rows)) =>
        var upcomingSessionStart := GetSessionEnd(now);
        var may := MayAttemptSession(upcomingSessionStart);
        if answer.threw {
          tasks := tasks[i := Done];
        } else if |rows| > 0 {
          Finish(i, upcomingSessionStart, rows, None);
        } else if !refreshInFlight && may {
          var skipped := RefreshForSession(i, upcomingSessionStart, ByTick(now), rows);
        } else {
          PastPreTrigger(i, now);
        }
      case AtNewest(now, Answered(rows)) =>
        var currentSessionStart := GetSessionStart(now);
        var may := MayAttemptSession(currentSessionStart);
        if !answer.threw && |rows| > 0 && clock - Newest(rows) >= PLAN_REFRESH_INTERVAL_MS && !refreshInFlight && may {
          var skipped := RefreshForSession(i, currentSessionStart, ByTick(now), rows);
        } else {
          tasks := tasks[i := Done];
        }
      case AtExisting(now, Answered(rows)) =>
        var currentSessionStart := GetSessionStart(now);
        var may := MayAttemptSession(currentSessionStart);
        if answer.threw {
          tasks := tasks[i := Done];
        } else if |rows| > 0 {
          Finish(i, currentSessionStart, rows, None);
        } else if refreshInFlight || !may {
          tasks := tasks[i := Done];
        } else {
          var skipped := RefreshForSession(i, currentSessionStart, ByTick(now), rows);
        }
      case _ =>
    }

    // The finally block of refreshForSession up to its query.
    method Release(i: nat)
      requires i < |tasks| && tasks[i].Refreshing?
      modifies `refreshInFlight, `tasks
      ensures Value() == ReleaseFlag(old(Value()), i, old(tasks)[i])
    {
      refreshInFlight := false;
      tasks := tasks[i := tasks[i].(stage := Confirm(Sent))];
    }

    // refreshForSession from one await to the next.
    method ResumeRefreshForSession(i: nat, answer: Answer)
      requires i < |tasks| && tasks[i].Refreshing?
      modifies this
      ensures Value() == ResumeRefresh(old(Value()), i, answer)
    {
      var t := tasks[i];
      match t.stage
      case Digest(retry) =>
        if !answer.threw {
          SetDailyPlanSessionOverride(Some(t.session));
          tasks := tasks[i := t.(stage := Turn(retry, None))];
        } else if retry {
          Release(i);
        } else {
          tasks := tasks[i := t.(stage := Backoff)];
        }
      case Turn(retry, Some(w)) =>
        if !answer.threw { LandWrite(w, Some(t.session)); }
        tasks := tasks[i := t.(stage := Turn(retry, None))];
      case Turn(retry, None) =>
        SetDailyPlanSessionOverride(None);
        if answer.threw && !retry {
          tasks := tasks[i := t.(stage := Backoff)];
        } else {
          Release(i);
        }
      case Backoff =>
        tasks := tasks[i := t.(stage := Digest(true))];
      case Confirm(Answered(rows)) =>
        if !answer.threw && |rows| > 0 {
          Finish(i, t.session, rows, Some(t.startedAt));
        } else {
          tasks := tasks[i := Done];
        }
      case Confirm(Sent) =>
    }

    // setDailyPlanZones, or the take-profit write, reaching the database.
    method LandWrite(w: Write, ghost ownTurn: Option<int>)
      modifies `zones, `landed
      ensures Value() == Land(old(Value()), w, ownTurn)
    {
      if w.kind.Zones? {
        var createdAt := clock;
        zones := Without(zones, w.session, w.symbol) + seq(w.kind.count, i => ZoneRow(w.session, w.symbol, createdAt));
        assert zones == Land(old(Value()), w, ownTurn).zones;
      }
      landed := landed + [Landed(w, ownTurn, clock)];
    }

    method Continue(i: nat, answer: Answer)
      requires i < |tasks|
      modifies this
      ensures Value() == ResumeTask(old(Value()), i, answer)
    {
      match tasks[i]
      case Refreshing(_, _, _) => ResumeRefreshForSession(i, answer);
      case ChatCall(w) =>
        if !answer.threw { LandWrite(w, None); }
        tasks := tasks[i := Done];
      case Done =>
      case _ => ResumeMaybeRefresh(i, answer);
    }

    // Task `i`'s pending await settles.
    method ResumeAwait(dt: nat, i: nat, answer: Answer)
      requires Valid() && i < |tasks|
      modifies this
      ensures Valid() && Value() == Step(old(Value()), Resume(dt, i, answer))
    {
      ghost var next := Step(Value(), Resume(dt, i, answer));
      StepKeepsInv(Value(), Resume(dt, i, answer));
      assert next == ResumeTask(Later(Value(), dt), i, answer);
      clock := clock + dt;
      assert Value() == Later(old(Value()), dt);
      Continue(i, answer);
    }
  }
}
