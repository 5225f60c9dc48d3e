// The daily-plan zones: a database table, and a thirty-second cache in front of it
// that writes invalidate. Zones belong to a symbol and a trading session.

module ZoneCache {
  import opened Options
  import opened Session

  const CACHE_TTL_MS: int := 30_000

  datatype Enforcement = Hard | Soft

  datatype Zone = Zone(priceLow: real, priceHigh: real, enforcement: Enforcement, name: string)

  datatype Row = Row(symbol: string, sessionStart: int, zone: Zone)

  datatype Entry = Entry(zones: seq<Zone>, computedAt: int)

  // ----- Keys ------------------------------------------------------------------------

  // What the ISO rendering of a date is relied on for.
  ghost predicate IsIsoString(iso: int -> string) {
    && (forall t :: '|' !in iso(t))
    && (forall t, u :: iso(t) == iso(u) ==> t == u)
  }

  function CacheKey(iso: int -> string, symbol: string, sessionStart: int): string {
    symbol + "|" + iso(sessionStart)
  }

  lemma SuffixDecides(a: string, x: string, b: string, y: string)
    requires a + "|" + x == b + "|" + y && |a| <= |b| && '|' !in x
    ensures a == b && x == y
  {
    var whole := a + "|" + x;
    assert whole == b + "|" + y;
    assert whole[|b|] == '|';
    assert whole[..|a|] == a && whole[..|b|] == b;
    assert whole[|a| + 1..] == x && whole[|b| + 1..] == y;
  }

  // Different symbols or sessions never share an entry, whatever the symbol spells.
  lemma KeysAreInjective(iso: int -> string, symbol: string, start: int, other: string, otherStart: int)
    requires IsIsoString(iso)
    requires CacheKey(iso, symbol, start) == CacheKey(iso, other, otherStart)
    ensures symbol == other && start == otherStart
  {
    if |symbol| <= |other| {
      SuffixDecides(symbol, iso(start), other, iso(otherStart));
    } else {
      SuffixDecides(other, iso(otherStart), symbol, iso(start));
    }
  }

  // ----- The table ----------------------------------------------------------------------

  predicate Matches(row: Row, symbol: string, start: int) {
    row.symbol == symbol && row.sessionStart == start
  }

  function RowsFor(table: seq<Row>, symbol: string, start: int): seq<Zone> {
    if table == [] then []
    else
      var last := table[|table| - 1];
      RowsFor(table[..|table| - 1], symbol, start) + if Matches(last, symbol, start) then [last.zone] else []
  }

  // deleteMany
  function Deleted(table: seq<Row>, symbol: string, start: int): seq<Row> {
    if table == [] then []
    else
      var last := table[|table| - 1];
      Deleted(table[..|table| - 1], symbol, start) + if Matches(last, symbol, start) then [] else [last]
  }

  // createMany
  function Created(table: seq<Row>, symbol: string, start: int, zones: seq<Zone>): seq<Row> {
    if zones == [] then table
    else Created(table, symbol, start, zones[..|zones| - 1]) + [Row(symbol, start, zones[|zones| - 1])]
  }

  function Replaced(table: seq<Row>, symbol: string, start: int, zones: seq<Zone>): seq<Row> {
    Created(Deleted(table, symbol, start), symbol, start, zones)
  }

  lemma RowsOfMore(table: seq<Row>, row: Row, s: string, t: int)
    ensures RowsFor(table + [row], s, t) == RowsFor(table, s, t) + if Matches(row, s, t) then [row.zone] else []
  {
    assert (table + [row])[..|table|] == table;
  }

  lemma {:induction false} RowsAfterDelete(table: seq<Row>, symbol: string, start: int, s: string, t: int)
    ensures RowsFor(Deleted(table, symbol, start), s, t)
         == if s == symbol && t == start then [] else RowsFor(table, s, t)
  {
    if table != [] {
      var front := Deleted(table[..|table| - 1], symbol, start);
      var last := table[|table| - 1];
      RowsAfterDelete(table[..|table| - 1], symbol, start, s, t);
      assert (front + [last])[..|front|] == front && front + [] == front;
    }
  }

  lemma {:induction false} RowsAfterCreate(table: seq<Row>, symbol: string, start: int, zones: seq<Zone>, s: string,
                                           t: int)
    ensures RowsFor(Created(table, symbol, start, zones), s, t)
         == RowsFor(table, s, t) + if s == symbol && t == start then zones else []
  {
    var rows := RowsFor(table, s, t);
    if zones == [] {
      assert rows + [] == rows;
    } else {
      var front, last := zones[..|zones| - 1], zones[|zones| - 1];
      RowsAfterCreate(table, symbol, start, front, s, t);
      RowsOfMore(Created(table, symbol, start, front), Row(symbol, start, last), s, t);
      if s == symbol && t == start {
        assert (rows + front) + [last] == rows + zones;
      } else {
        assert (rows + []) + [] == rows;
      }
    }
  }

  // A write replaces the plan of its own symbol and session and no other.
  lemma WritesReplaceOnePlan(table: seq<Row>, symbol: string, start: int, zones: seq<Zone>, s: string, t: int)
    ensures RowsFor(Replaced(table, symbol, start, zones), s, t)
         == if s == symbol && t == start then zones else RowsFor(table, s, t)
  {
    RowsAfterDelete(table, symbol, start, s, t);
    RowsAfterCreate(Deleted(table, symbol, start), symbol, start, zones, s, t);
  }

  // ----- One call at a time --------------------------------------------------------------------

  // The module's cache beside the table. Each method runs to its end before the
  // next is called.
  class ZoneStore {
    const iso: int -> string
    var cache: map<string, Entry>
    var table: seq<Row>

    // Every cached entry is the table's rows for its key, in some order.
    ghost predicate Valid()
      reads this
    {
      && IsIsoString(iso)
      && forall symbol, start :: CacheKey(iso, symbol, start) in cache ==>
           multiset(cache[CacheKey(iso, symbol, start)].zones) == multiset(RowsFor(table, symbol, start))
    }

    constructor (iso: int -> string, stored: seq<Row>)
      requires IsIsoString(iso)
      ensures Valid() && table == stored && cache == map[]
    {
      this.iso, table, cache := iso, stored, map[];
    }

    // `rows` is the query's reply: the matching rows in whatever order they come.
    method GetActiveDailyPlanZones(symbol: string, at: int, clock: int, rows: seq<Zone>) returns (zones: seq<Zone>)
      requires Valid()
      requires multiset(rows) == multiset(RowsFor(table, symbol, SessionStart(at)))
      modifies `cache
      ensures Valid()
      ensures multiset(zones) == multiset(RowsFor(table, symbol, SessionStart(at)))
      ensures forall key :: key in old(cache) && key != CacheKey(iso, symbol, SessionStart(at)) ==>
                key in cache && cache[key] == old(cache)[key]
    {
      var sessionStart := GetSessionStart(at);
      var key := CacheKey(iso, symbol, sessionStart);
      if key in cache && clock - cache[key].computedAt < CACHE_TTL_MS {
        return cache[key].zones;
      }
      cache := cache[key := Entry(rows, clock)];
      OnlyThisKey(symbol, sessionStart);
      return rows;
    }

    method SetDailyPlanZones(symbol: string, zones: seq<Zone>, at: int)
      requires Valid()
      modifies this
      ensures Valid()
      ensures forall s, t :: RowsFor(table, s, t) ==
                if s == symbol && t == SessionStart(at) then zones else RowsFor(old(table), s, t)
      ensures cache == old(cache) - {CacheKey(iso, symbol, SessionStart(at))}
    {
      var sessionStart := GetSessionStart(at);
      PlanReplaced(table, symbol, sessionStart, zones);
      table := Replaced(table, symbol, sessionStart, zones);
      cache := cache - {CacheKey(iso, symbol, sessionStart)};
      OnlyThisKey(symbol, sessionStart);
    }

    method ClearDailyPlanZones(symbol: string, at: int)
      requires Valid()
      modifies this
      ensures Valid()
      ensures forall s, t :: RowsFor(table, s, t) ==
                if s == symbol && t == SessionStart(at) then [] else RowsFor(old(table), s, t)
      ensures cache == old(cache) - {CacheKey(iso, symbol, SessionStart(at))}
    {
      var sessionStart := GetSessionStart(at);
      PlanCleared(table, symbol, sessionStart);
      table := Deleted(table, symbol, sessionStart);
      cache := cache - {CacheKey(iso, symbol, sessionStart)};
      OnlyThisKey(symbol, sessionStart);
    }

    static lemma PlanCleared(was: seq<Row>, symbol: string, start: int)
      ensures forall s, t :: RowsFor(Deleted(was, symbol, start), s, t) ==
                if s == symbol && t == start then [] else RowsFor(was, s, t)
    {
      forall s, t
        ensures RowsFor(Deleted(was, symbol, start), s, t) ==
                  if s == symbol && t == start then [] else RowsFor(was, s, t)
      {
        RowsAfterDelete(was, symbol, start, s, t);
      }
    }

    static lemma PlanReplaced(was: seq<Row>, symbol: string, start: int, zones: seq<Zone>)
      ensures forall s, t :: RowsFor(Replaced(was, symbol, start, zones), s, t) ==
                if s == symbol && t == start then zones else RowsFor(was, s, t)
    {
      forall s, t
        ensures RowsFor(Replaced(was, symbol, start, zones), s, t) ==
                  if s == symbol && t == start then zones else RowsFor(was, s, t)
      {
        WritesReplaceOnePlan(was, symbol, start, zones, s, t);
      }
    }

    lemma OnlyThisKey(symbol: string, start: int)
      requires IsIsoString(iso)
      ensures forall s, t :: CacheKey(iso, s, t) == CacheKey(iso, symbol, start) ==> s == symbol && t == start
    {
      forall s, t | CacheKey(iso, s, t) == CacheKey(iso, symbol, start)
        ensures s == symbol && t == start
      {
        KeysAreInjective(iso, s, t, symbol, start);
      }
    }
  }

  // ----- Interleaved calls ---------------------------------------------------------------------------

  // A get awaits its query, which the database answers at some moment in between;
  // a write awaits its transaction and only then drops the cached entry.
  // `overtaken`: a write of the same plan has committed since the query was answered.
  datatype ReadPhase = Querying | Fetched(rows: seq<Zone>, overtaken: bool) | Returned(zones: seq<Zone>)

  datatype Read = Read(symbol: string, start: int, phase: ReadPhase)

  datatype WritePhase = Open | Committed | Closed

  datatype Write = Write(symbol: string, start: int, zones: seq<Zone>, phase: WritePhase)

  // `late` holds the keys whose entry was filled from an overtaken read. Neither it nor
  // `overtaken` is read by the program, or depends on what the table holds.
  datatype State = State(
    now: int,
    table: seq<Row>,
    cache: map<string, Entry>,
    queries: seq<Read>,
    writes: seq<Write>,
    late: set<string>)

  datatype Event =
    | CallGet(symbol: string, at: int, dt: nat)
    | Query(read: nat, rows: seq<Zone>, dt: nat)
    | Fill(read: nat, dt: nat)
    | CallSet(symbol: string, at: int, zones: seq<Zone>, dt: nat)   // clearing sets no zones
    | Commit(write: nat, ok: bool, dt: nat)
    | Drop(write: nat, dt: nat)

  predicate HasFresh(s: State, key: string) {
    key in s.cache && s.now - s.cache[key].computedAt < CACHE_TTL_MS
  }

  predicate Enabled(s: State, e: Event) {
    match e
    case CallGet(_, _, _) => true
    case Query(r, rows, _) =>
      r < |s.queries| && s.queries[r].phase.Querying?
          && multiset(rows) == multiset(RowsFor(s.table, s.queries[r].symbol, s.queries[r].start))
    case Fill(r, _) => r < |s.queries| && s.queries[r].phase.Fetched?
    case CallSet(_, _, _, _) => true
    case Commit(w, _, _) => w < |s.writes| && s.writes[w].phase.Open?
    case Drop(w, _) => w < |s.writes| && s.writes[w].phase.Committed?
  }

  function Later(s: State, e: Event): State {
    s.(now := s.now + e.dt)
  }

  // A call that hits the cache returns at once.
  function Hit(iso: int -> string, s: State, e: Event): Option<seq<Zone>>
    requires e.CallGet?
  {
    var key := CacheKey(iso, e.symbol, SessionStart(e.at));
    if HasFresh(Later(s, e), key) then Some(s.cache[key].zones) else None
  }

  function DoFill(iso: int -> string, s: State, r: nat): State
    requires r < |s.queries| && s.queries[r].phase.Fetched?
  {
    var read := s.queries[r];
    var key := CacheKey(iso, read.symbol, read.start);
    s.(cache := s.cache[key := Entry(read.phase.rows, s.now)],
       queries := s.queries[r := read.(phase := Returned(read.phase.rows))],
       late := if read.phase.overtaken then s.late + {key} else s.late - {key})
  }

  function Overtake(read: Read, symbol: string, start: int): Read {
    if read.phase.Fetched? && read.symbol == symbol && read.start == start
      then read.(phase := read.phase.(overtaken := true))
    else read
  }

  function OvertakeAll(queries: seq<Read>, symbol: string, start: int): seq<Read> {
    seq(|queries|, i requires 0 <= i < |queries| => Overtake(queries[i], symbol, start))
  }

  function DoCommit(s: State, w: nat, ok: bool): State
    requires w < |s.writes|
  {
    var write := s.writes[w];
    if ok then s.(table := Replaced(s.table, write.symbol, write.start, write.zones),
                  queries := OvertakeAll(s.queries, write.symbol, write.start),
                  writes := s.writes[w := write.(phase := Committed)])
    else s.(writes := s.writes[w := write.(phase := Closed)])
  }

  function DoDrop(iso: int -> string, s: State, w: nat): State
    requires w < |s.writes|
  {
    var write := s.writes[w];
    var key := CacheKey(iso, write.symbol, write.start);
    s.(cache := s.cache - {key}, late := s.late - {key}, writes := s.writes[w := write.(phase := Closed)])
  }

  function Step(iso: int -> string, s0: State, e: Event): State {
    if !Enabled(s0, e) then s0
    else
      var s := Later(s0, e);
      match e
      case CallGet(symbol, at, _) =>
        if Hit(iso, s0, e).Some? then s
        else s.(queries := s.queries + [Read(symbol, SessionStart(at), Querying)])
      case Query(r, rows, _) => s.(queries := s.queries[r := s.queries[r].(phase := Fetched(rows, false))])
      case Fill(r, _) => DoFill(iso, s, r)
      case CallSet(symbol, at, zones, _) => s.(writes := s.writes + [Write(symbol, SessionStart(at), zones, Open)])
      case Commit(w, ok, _) => DoCommit(s, w, ok)
      case Drop(w, _) => DoDrop(iso, s, w)
  }

  function Run(iso: int -> string, start: State, events: seq<Event>): State {
    if events == [] then start else Step(iso, Run(iso, start, events[..|events| - 1]), events[|events| - 1])
  }

  predicate Idle(s: State) {
    s.cache == map[] && s.queries == [] && s.writes == [] && s.late == {}
  }

  // ----- What every step keeps --------------------------------------------------------------------------

  ghost predicate Current(iso: int -> string, s: State, symbol: string, start: int) {
    var key := CacheKey(iso, symbol, start);
    key in s.cache ==> multiset(s.cache[key].zones) == multiset(RowsFor(s.table, symbol, start))
  }

  // A write of this plan has committed and has yet to drop the entry.
  ghost predicate DropPending(s: State, symbol: string, start: int) {
    exists w :: 0 <= w < |s.writes| && s.writes[w].phase.Committed? && s.writes[w].symbol == symbol
        && s.writes[w].start == start
  }

  ghost predicate Accounted(iso: int -> string, s: State, symbol: string, start: int) {
    Current(iso, s, symbol, start) || DropPending(s, symbol, start) || CacheKey(iso, symbol, start) in s.late
  }

  // A read that no commit has overtaken still holds the table's rows.
  ghost predicate ReadHolds(s: State, read: Read) {
    read.phase.Fetched? && !read.phase.overtaken ==>
      multiset(read.phase.rows) == multiset(RowsFor(s.table, read.symbol, read.start))
  }

  ghost predicate Inv(iso: int -> string, s: State) {
    && (forall symbol, start :: Accounted(iso, s, symbol, start))
    && (forall r :: 0 <= r < |s.queries| ==> ReadHolds(s, s.queries[r]))
  }

  lemma FillAccounts(iso: int -> string, s: State, r: nat, symbol: string, start: int)
    requires IsIsoString(iso) && Accounted(iso, s, symbol, start)
    requires r < |s.queries| && s.queries[r].phase.Fetched? && ReadHolds(s, s.queries[r])
    ensures Accounted(iso, DoFill(iso, s, r), symbol, start)
  {
    var t := DoFill(iso, s, r);
    var read := s.queries[r];
    if CacheKey(iso, read.symbol, read.start) == CacheKey(iso, symbol, start) {
      KeysAreInjective(iso, read.symbol, read.start, symbol, start);
    } else if DropPending(s, symbol, start) {
      assert DropPending(t, symbol, start);
    }
  }

  lemma CommitAccounts(iso: int -> string, s: State, w: nat, ok: bool, symbol: string, start: int)
    requires Accounted(iso, s, symbol, start)
    requires w < |s.writes| && s.writes[w].phase.Open?
    ensures Accounted(iso, DoCommit(s, w, ok), symbol, start)
  {
    var t := DoCommit(s, w, ok);
    var write := s.writes[w];
    WritesReplaceOnePlan(s.table, write.symbol, write.start, write.zones, symbol, start);
    if DropPending(s, symbol, start) {
      var v :| 0 <= v < |s.writes| && s.writes[v].phase.Committed? && s.writes[v].symbol == symbol
          && s.writes[v].start == start;
      assert t.writes[v] == s.writes[v];
    } else if ok && write.symbol == symbol && write.start == start {
      assert t.writes[w].phase.Committed?;
    }
  }

  lemma DropAccounts(iso: int -> string, s: State, w: nat, symbol: string, start: int)
    requires IsIsoString(iso) && Accounted(iso, s, symbol, start)
    requires w < |s.writes| && s.writes[w].phase.Committed?
    ensures Accounted(iso, DoDrop(iso, s, w), symbol, start)
  {
    var t := DoDrop(iso, s, w);
    var write := s.writes[w];
    if CacheKey(iso, write.symbol, write.start) != CacheKey(iso, symbol, start) && DropPending(s, symbol, start) {
      var v :| 0 <= v < |s.writes| && s.writes[v].phase.Committed? && s.writes[v].symbol == symbol
          && s.writes[v].start == start;
      assert t.writes[v] == s.writes[v];
    }
  }

  lemma CommitKeepsReads(s: State, w: nat, ok: bool)
    requires w < |s.writes| && s.writes[w].phase.Open?
    requires forall r :: 0 <= r < |s.queries| ==> ReadHolds(s, s.queries[r])
    ensures var t := DoCommit(s, w, ok); forall r :: 0 <= r < |t.queries| ==> ReadHolds(t, t.queries[r])
  {
    var t := DoCommit(s, w, ok);
    var write := s.writes[w];
    forall r | 0 <= r < |t.queries|
      ensures ReadHolds(t, t.queries[r])
    {
      assert ReadHolds(s, s.queries[r]);
      WritesReplaceOnePlan(s.table, write.symbol, write.start, write.zones, s.queries[r].symbol, s.queries[r].start);
    }
  }

  lemma StepKeepsReads(iso: int -> string, s: State, e: Event)
    requires Enabled(s, e)
    requires forall r :: 0 <= r < |s.queries| ==> ReadHolds(s, s.queries[r])
    ensures var t := Step(iso, s, e); forall r :: 0 <= r < |t.queries| ==> ReadHolds(t, t.queries[r])
  {
    var t := Step(iso, s, e);
    var later := Later(s, e);
    assert forall r :: 0 <= r < |s.queries| ==> ReadHolds(later, s.queries[r]) by {
      forall r | 0 <= r < |s.queries| ensures ReadHolds(later, s.queries[r]) { assert ReadHolds(s, s.queries[r]); }
    }
    if e.Commit? {
      CommitKeepsReads(later, e.write, e.ok);
    } else {
      forall r | 0 <= r < |t.queries|
        ensures ReadHolds(t, t.queries[r])
      {
        assert r < |s.queries| ==> ReadHolds(s, s.queries[r]);
      }
    }
  }

  lemma StepKeepsInv(iso: int -> string, s0: State, e: Event)
    requires IsIsoString(iso) && Inv(iso, s0)
    ensures Inv(iso, Step(iso, s0, e))
  {
    if Enabled(s0, e) {
      var s := Later(s0, e);
      var t := Step(iso, s0, e);
      StepKeepsReads(iso, s0, e);
      forall symbol, start
        ensures Accounted(iso, t, symbol, start)
      {
        assert Accounted(iso, s0, symbol, start);
        assert s.writes == s0.writes;
        assert Accounted(iso, s, symbol, start);
        match e
        case Fill(r, _) =>
          assert ReadHolds(s0, s0.queries[r]);
          FillAccounts(iso, s, r, symbol, start);
        case Commit(w, ok, _) => CommitAccounts(iso, s, w, ok, symbol, start);
        case Drop(w, _) => DropAccounts(iso, s, w, symbol, start);
        case CallSet(_, _, _, _) =>
          if DropPending(s, symbol, start) {
            var v :| 0 <= v < |s.writes| && s.writes[v].phase.Committed? && s.writes[v].symbol == symbol
                && s.writes[v].start == start;
            assert t.writes[v] == s.writes[v];
          }
        case _ =>
      }
    }
  }

  lemma {:induction false} RunKeepsInv(iso: int -> string, start: State, events: seq<Event>)
    requires IsIsoString(iso) && Idle(start)
    ensures Inv(iso, Run(iso, start, events))
  {
    if events != [] {
      RunKeepsInv(iso, start, events[..|events| - 1]);
      StepKeepsInv(iso, Run(iso, start, events[..|events| - 1]), events[|events| - 1]);
    }
  }

  // ----- What `overtaken` and `late` stand for, told by the events alone -----------------------

  // At `s`, `e` commits a write of this plan.
  predicate CommitsPlan(s: State, e: Event, symbol: string, start: int) {
    e.Commit? && e.ok && Enabled(s, e) && s.writes[e.write].symbol == symbol && s.writes[e.write].start == start
  }

  ghost predicate CommitAt(iso: int -> string, s: State, events: seq<Event>, i: nat, symbol: string, start: int) {
    i < |events| && CommitsPlan(Run(iso, s, events[..i]), events[i], symbol, start)
  }

  predicate Awaiting(s: State, r: nat) {
    r < |s.queries| && s.queries[r].phase.Fetched?
  }

  // Reads keep their plan, and none is answered twice.
  lemma StepKeepsRead(iso: int -> string, s: State, e: Event, r: nat)
    requires r < |s.queries|
    ensures r < |Step(iso, s, e).queries|
    ensures Step(iso, s, e).queries[r].symbol == s.queries[r].symbol
        && Step(iso, s, e).queries[r].start == s.queries[r].start
    ensures s.queries[r].phase.Returned? ==> Step(iso, s, e).queries[r].phase.Returned?
    ensures Awaiting(s, r) && Awaiting(Step(iso, s, e), r) ==>
              Step(iso, s, e).queries[r].phase.rows == s.queries[r].phase.rows
    ensures Awaiting(s, r) && Awaiting(Step(iso, s, e), r) ==>
              (Step(iso, s, e).queries[r].phase.overtaken
               <==> s.queries[r].phase.overtaken || CommitsPlan(s, e, s.queries[r].symbol, s.queries[r].start))
    ensures !s.queries[r].phase.Querying? ==> !Step(iso, s, e).queries[r].phase.Querying?
  {
  }

  // A read that has been answered is overtaken by the time it fills exactly when a
  // write of its plan has committed in between.
  lemma {:induction false} OvertakenIff(iso: int -> string, s: State, events: seq<Event>, r: nat)
    requires Awaiting(s, r) && !s.queries[r].phase.overtaken
    ensures var t := Run(iso, s, events);
            && r < |t.queries| && t.queries[r].symbol == s.queries[r].symbol && t.queries[r].start == s.queries[r].start
            && !t.queries[r].phase.Querying?
            && (Awaiting(t, r) ==>
                 (t.queries[r].phase.overtaken
                  <==> exists i: nat :: CommitAt(iso, s, events, i, s.queries[r].symbol, s.queries[r].start)))
  {
    if events != [] {
      var n := |events| - 1;
      var front, last := events[..n], events[n];
      var before := Run(iso, s, front);
      var symbol, start := s.queries[r].symbol, s.queries[r].start;
      OvertakenIff(iso, s, front, r);
      StepKeepsRead(iso, before, last, r);
      assert forall i :: 0 <= i < n ==> front[..i] == events[..i];
      assert forall i :: 0 <= i < n ==>
          (CommitAt(iso, s, front, i, symbol, start) <==> CommitAt(iso, s, events, i, symbol, start));
      assert CommitAt(iso, s, events, n, symbol, start) <==> CommitsPlan(before, last, symbol, start);
      if i: nat :| CommitAt(iso, s, front, i, symbol, start) {
        assert CommitAt(iso, s, events, i, symbol, start);
      }
    }
  }

  // Event `i` is the last commit of a write of this plan.
  ghost predicate LastCommitAt(iso: int -> string, s: State, events: seq<Event>, i: nat, symbol: string, start: int) {
    && CommitAt(iso, s, events, i, symbol, start)
    && forall j: nat :: i < j ==> !CommitAt(iso, s, events, j, symbol, start)
  }

  function CommittedZones(iso: int -> string, s: State, events: seq<Event>, i: nat): seq<Zone> {
    if i < |events| && events[i].Commit? && events[i].write < |Run(iso, s, events[..i]).writes|
    then Run(iso, s, events[..i]).writes[events[i].write].zones
    else []
  }

  lemma CommitAtBefore(iso: int -> string, s: State, front: seq<Event>, last: Event, i: nat, symbol: string, start: int)
    ensures var events := front + [last];
            && (i < |front| ==>
                  (CommitAt(iso, s, events, i, symbol, start) <==> CommitAt(iso, s, front, i, symbol, start)))
            && (i < |front| ==> CommittedZones(iso, s, events, i) == CommittedZones(iso, s, front, i))
            && (CommitAt(iso, s, events, |front|, symbol, start)
                <==> CommitsPlan(Run(iso, s, front), last, symbol, start))
  {
    var events := front + [last];
    assert events[..|front|] == front;
    assert i < |front| ==> front[..i] == events[..i];
  }

  lemma LastCommitGoesOn(iso: int -> string, s: State, front: seq<Event>, last: Event, i: nat,
                         symbol: string, start: int)
    requires LastCommitAt(iso, s, front, i, symbol, start) && !CommitsPlan(Run(iso, s, front), last, symbol, start)
    ensures LastCommitAt(iso, s, front + [last], i, symbol, start)
    ensures CommittedZones(iso, s, front + [last], i) == CommittedZones(iso, s, front, i)
  {
    CommitAtBefore(iso, s, front, last, i, symbol, start);
    forall j: nat | i < j
      ensures !CommitAt(iso, s, front + [last], j, symbol, start)
    {
      CommitAtBefore(iso, s, front, last, j, symbol, start);
    }
  }

  lemma LastCommitIsNew(iso: int -> string, s: State, front: seq<Event>, last: Event, symbol: string, start: int)
    requires CommitsPlan(Run(iso, s, front), last, symbol, start)
    ensures LastCommitAt(iso, s, front + [last], |front|, symbol, start)
    ensures CommittedZones(iso, s, front + [last], |front|) == Run(iso, s, front).writes[last.write].zones
  {
    CommitAtBefore(iso, s, front, last, |front|, symbol, start);
    assert (front + [last])[..|front|] == front;
  }

  lemma StillNoCommit(iso: int -> string, s: State, front: seq<Event>, last: Event, symbol: string, start: int)
    requires forall i: nat :: !CommitAt(iso, s, front, i, symbol, start)
    requires !CommitsPlan(Run(iso, s, front), last, symbol, start)
    ensures forall i: nat :: !CommitAt(iso, s, front + [last], i, symbol, start)
  {
    forall i: nat
      ensures !CommitAt(iso, s, front + [last], i, symbol, start)
    {
      CommitAtBefore(iso, s, front, last, i, symbol, start);
    }
  }

  // What the table holds of a plan after more events: what it held before, or what
  // the last commit of that plan stored.
  lemma {:induction false} PlanAfterCommits(iso: int -> string, s: State, events: seq<Event>, symbol: string,
                                            start: int)
    ensures var rows := RowsFor(Run(iso, s, events).table, symbol, start);
            || ((forall i: nat :: !CommitAt(iso, s, events, i, symbol, start))
                && rows == RowsFor(s.table, symbol, start))
            || (exists i: nat :: LastCommitAt(iso, s, events, i, symbol, start)
                                 && rows == CommittedZones(iso, s, events, i))
  {
    if events != [] {
      var n := |events| - 1;
      var front, last := events[..n], events[n];
      var before := Run(iso, s, front);
      assert events == front + [last];
      PlanAfterCommits(iso, s, front, symbol, start);
      PlanAfterStep(iso, before, last, symbol, start);
      if CommitsPlan(before, last, symbol, start) {
        LastCommitIsNew(iso, s, front, last, symbol, start);
      } else if i: nat :| LastCommitAt(iso, s, front, i, symbol, start)
                          && RowsFor(before.table, symbol, start) == CommittedZones(iso, s, front, i) {
        LastCommitGoesOn(iso, s, front, last, i, symbol, start);
      } else {
        StillNoCommit(iso, s, front, last, symbol, start);
      }
    }
  }

  lemma PlanAfterStep(iso: int -> string, s: State, e: Event, symbol: string, start: int)
    ensures RowsFor(Step(iso, s, e).table, symbol, start)
         == if CommitsPlan(s, e, symbol, start) then s.writes[e.write].zones else RowsFor(s.table, symbol, start)
  {
    if e.Commit? && Enabled(s, e) {
      var write := s.writes[e.write];
      WritesReplaceOnePlan(s.table, write.symbol, write.start, write.zones, symbol, start);
    }
  }

  lemma OneLastCommit(iso: int -> string, s: State, events: seq<Event>, i: nat, j: nat, symbol: string, start: int)
    requires LastCommitAt(iso, s, events, i, symbol, start) && LastCommitAt(iso, s, events, j, symbol, start)
    ensures i == j
  {
  }

  // No write of the plan has committed in `events`, or the last one that did stored
  // these very rows.
  ghost predicate StillStored(iso: int -> string, s: State, events: seq<Event>, symbol: string, start: int,
                              rows: seq<Zone>) {
    || (forall i: nat :: !CommitAt(iso, s, events, i, symbol, start))
    || (exists i: nat :: LastCommitAt(iso, s, events, i, symbol, start)
                         && multiset(CommittedZones(iso, s, events, i)) == multiset(rows))
  }

  lemma StillStoredIff(iso: int -> string, s: State, events: seq<Event>, symbol: string, start: int, rows: seq<Zone>)
    requires multiset(rows) == multiset(RowsFor(s.table, symbol, start))
    ensures multiset(RowsFor(Run(iso, s, events).table, symbol, start)) == multiset(rows)
       <==> StillStored(iso, s, events, symbol, start, rows)
  {
    PlanAfterCommits(iso, s, events, symbol, start);
    if i: nat :| LastCommitAt(iso, s, events, i, symbol, start) {
      forall j: nat | LastCommitAt(iso, s, events, j, symbol, start)
        ensures i == j
      {
        OneLastCommit(iso, s, events, i, j, symbol, start);
      }
    }
  }

  // A get that awaits its fill keeps the rows its query was answered with.
  lemma {:induction false} AwaitingKeepsRows(iso: int -> string, s: State, events: seq<Event>, r: nat)
    requires Awaiting(s, r)
    ensures var t := Run(iso, s, events);
            && r < |t.queries| && t.queries[r].symbol == s.queries[r].symbol && t.queries[r].start == s.queries[r].start
            && !t.queries[r].phase.Querying?
            && (Awaiting(t, r) ==> t.queries[r].phase.rows == s.queries[r].phase.rows)
  {
    if events != [] {
      var before := Run(iso, s, events[..|events| - 1]);
      AwaitingKeepsRows(iso, s, events[..|events| - 1], r);
      StepKeepsRead(iso, before, events[|events| - 1], r);
    }
  }

  // A get fills the cache with what the table holds exactly when no write of its plan
  // has committed since its query was answered, or the last one that did stored the
  // same rows.
  lemma FillIsCurrentIff(iso: int -> string, start: State, before: seq<Event>, between: seq<Event>, r: nat, dt: nat)
    requires IsIsoString(iso) && Idle(start)
    requires var s := Run(iso, start, before);
             Awaiting(s, r) && !s.queries[r].phase.overtaken && Awaiting(Run(iso, s, between), r)
    ensures var s := Run(iso, start, before);
            var read := s.queries[r];
            var t := Step(iso, Run(iso, s, between), Fill(r, dt));
            var key := CacheKey(iso, read.symbol, read.start);
            && key in t.cache
            && (multiset(t.cache[key].zones) == multiset(RowsFor(t.table, read.symbol, read.start))
                <==> StillStored(iso, s, between, read.symbol, read.start, read.phase.rows))
  {
    var s := Run(iso, start, before);
    RunKeepsInv(iso, start, before);
    assert ReadHolds(s, s.queries[r]);
    AwaitingKeepsRows(iso, s, between, r);
    StillStoredIff(iso, s, between, s.queries[r].symbol, s.queries[r].start, s.queries[r].phase.rows);
  }

  lemma {:induction false} RunOnKeepsInv(iso: int -> string, s: State, events: seq<Event>)
    requires IsIsoString(iso) && Inv(iso, s)
    ensures Inv(iso, Run(iso, s, events))
  {
    if events != [] {
      RunOnKeepsInv(iso, s, events[..|events| - 1]);
      StepKeepsInv(iso, Run(iso, s, events[..|events| - 1]), events[|events| - 1]);
    }
  }

  // At `s`, `e` fills the entry of `key`, or drops it.
  predicate Touches(iso: int -> string, s: State, e: Event, key: string) {
    && Enabled(s, e)
    && ((e.Fill? && key == CacheKey(iso, s.queries[e.read].symbol, s.queries[e.read].start))
        || (e.Drop? && key == CacheKey(iso, s.writes[e.write].symbol, s.writes[e.write].start)))
  }

  predicate FillsLate(iso: int -> string, s: State, e: Event, key: string) {
    e.Fill? && Touches(iso, s, e, key) && s.queries[e.read].phase.overtaken
  }

  // Event `i` filled the entry from an overtaken read, and no later event filled or
  // dropped it.
  ghost predicate FilledLateAt(iso: int -> string, start: State, events: seq<Event>, key: string, i: nat) {
    && i < |events|
    && FillsLate(iso, Run(iso, start, events[..i]), events[i], key)
    && forall j :: i < j < |events| ==> !Touches(iso, Run(iso, start, events[..j]), events[j], key)
  }

  lemma StepMarksLate(iso: int -> string, s: State, e: Event, key: string)
    ensures key in Step(iso, s, e).late
       <==> if Touches(iso, s, e, key) then FillsLate(iso, s, e, key) else key in s.late
  {
  }

  lemma FilledLateBefore(iso: int -> string, start: State, front: seq<Event>, last: Event, key: string, i: nat)
    requires i < |front|
    ensures FilledLateAt(iso, start, front + [last], key, i)
       <==> FilledLateAt(iso, start, front, key, i) && !Touches(iso, Run(iso, start, front), last, key)
  {
    var events := front + [last];
    assert forall j :: 0 <= j < |front| ==> front[..j] == events[..j] && front[j] == events[j];
    assert events[..|front|] == front && events[|front|] == last;
  }

  lemma FilledLateLast(iso: int -> string, start: State, front: seq<Event>, last: Event, key: string)
    ensures FilledLateAt(iso, start, front + [last], key, |front|) <==>
        FillsLate(iso, Run(iso, start, front), last, key)
  {
    assert (front + [last])[..|front|] == front;
  }

  lemma {:induction false} LateIff(iso: int -> string, start: State, events: seq<Event>, key: string)
    requires Idle(start)
    ensures key in Run(iso, start, events).late <==> exists i: nat :: FilledLateAt(iso, start, events, key, i)
  {
    if events != [] {
      var n := |events| - 1;
      var front, last := events[..n], events[n];
      assert events == front + [last];
      LateIff(iso, start, front, key);
      StepMarksLate(iso, Run(iso, start, front), last, key);
      LateStep(iso, start, front, last, key);
    }
  }

  lemma LateStep(iso: int -> string, start: State, front: seq<Event>, last: Event, key: string)
    ensures (exists i: nat :: FilledLateAt(iso, start, front + [last], key, i))
       <==> if Touches(iso, Run(iso, start, front), last, key) then FillsLate(iso, Run(iso, start, front), last, key)
            else exists i: nat :: FilledLateAt(iso, start, front, key, i)
  {
    var events := front + [last];
    FilledLateLast(iso, start, front, last, key);
    if i: nat :| FilledLateAt(iso, start, events, key, i) {
      if i < |front| { FilledLateBefore(iso, start, front, last, key, i); }
    }
    if i: nat :| FilledLateAt(iso, start, front, key, i) {
      FilledLateBefore(iso, start, front, last, key, i);
    }
  }

  // In every interleaving a hit is the table's current rows, unless a write of that
  // plan has committed and is about to drop the entry, or the entry was last filled,
  // under thirty seconds ago, by a get whose answered query a write of that plan had
  // overtaken.
  lemma HitsAreCurrentUnlessOvertaken(iso: int -> string, start: State, events: seq<Event>, get: Event)
    requires IsIsoString(iso) && Idle(start)
    requires get.CallGet? && Hit(iso, Run(iso, start, events), get).Some?
    ensures var s := Run(iso, start, events);
            var begins := SessionStart(get.at);
            var key := CacheKey(iso, get.symbol, begins);
            && s.now + get.dt < s.cache[key].computedAt + CACHE_TTL_MS
            && (|| multiset(Hit(iso, s, get).value) == multiset(RowsFor(s.table, get.symbol, begins))
                || DropPending(s, get.symbol, begins)
                || exists i: nat :: FilledLateAt(iso, start, events, key, i))
  {
    var begins := SessionStart(get.at);
    RunKeepsInv(iso, start, events);
    LateIff(iso, start, events, CacheKey(iso, get.symbol, begins));
    assert Accounted(iso, Run(iso, start, events), get.symbol, begins);
  }

  lemma {:induction false} RunOfConcat(iso: int -> string, s: State, a: seq<Event>, b: seq<Event>)
    ensures Run(iso, s, a + b) == Run(iso, Run(iso, s, a), b)
  {
    if b == [] {
      assert a + b == a;
    } else {
      var n := |b| - 1;
      RunOfConcat(iso, s, a, b[..n]);
      assert (a + b)[..|a + b| - 1] == a + b[..n];
    }
  }

  ghost predicate Untouched(iso: int -> string, s: State, events: seq<Event>, key: string) {
    forall i :: 0 <= i < |events| ==> !Touches(iso, Run(iso, s, events[..i]), events[i], key)
  }

  lemma StepKeepsEntry(iso: int -> string, s: State, e: Event, key: string)
    requires key in s.cache && !Touches(iso, s, e, key)
    ensures key in Step(iso, s, e).cache && Step(iso, s, e).cache[key] == s.cache[key]
  {
  }

  lemma {:induction false} UntouchedEntryStays(iso: int -> string, s: State, events: seq<Event>, key: string)
    requires key in s.cache && Untouched(iso, s, events, key)
    ensures var t := Run(iso, s, events); key in t.cache && t.cache[key] == s.cache[key]
  {
    if events != [] {
      var n := |events| - 1;
      var front := events[..n];
      assert forall i :: 0 <= i < n ==> front[..i] == events[..i];
      UntouchedEntryStays(iso, s, front, key);
      StepKeepsEntry(iso, Run(iso, s, front), events[n], key);
    }
  }

  // A hit on the entry that read `r` filled is the table's current rows exactly when,
  // since that read's query was answered, no write of the plan has committed or the
  // last one that did stored the same rows.
  lemma HitIsCurrentIff(iso: int -> string, start: State, before: seq<Event>, between: seq<Event>, r: nat, dt: nat,
                        after: seq<Event>, get: Event)
    requires IsIsoString(iso) && Idle(start)
    requires var s := Run(iso, start, before);
             Awaiting(s, r) && !s.queries[r].phase.overtaken && Awaiting(Run(iso, s, between), r)
    requires var s := Run(iso, start, before);
             var filled := Run(iso, s, between + [Fill(r, dt)]);
             && get.CallGet? && get.symbol == s.queries[r].symbol && SessionStart(get.at) == s.queries[r].start
             && Untouched(iso, filled, after, CacheKey(iso, get.symbol, SessionStart(get.at)))
             && Hit(iso, Run(iso, filled, after), get).Some?
    ensures var s := Run(iso, start, before);
            var read := s.queries[r];
            var t := Run(iso, s, between + [Fill(r, dt)] + after);
            && t == Run(iso, Run(iso, s, between + [Fill(r, dt)]), after)
            && Hit(iso, t, get) == Some(read.phase.rows)
            && (multiset(read.phase.rows) == multiset(RowsFor(t.table, read.symbol, read.start))
                <==> StillStored(iso, s, between + [Fill(r, dt)] + after, read.symbol, read.start, read.phase.rows))
  {
    var s := Run(iso, start, before);
    var read := s.queries[r];
    RunKeepsInv(iso, start, before);
    assert ReadHolds(s, read);
    AwaitingKeepsRows(iso, s, between, r);
    RunOfMore(iso, s, between, Fill(r, dt));
    RunOfConcat(iso, s, between + [Fill(r, dt)], after);
    UntouchedEntryStays(iso, Run(iso, s, between + [Fill(r, dt)]), after, CacheKey(iso, read.symbol, read.start));
    StillStoredIff(iso, s, between + [Fill(r, dt)] + after, read.symbol, read.start, read.phase.rows);
  }

  lemma RunOfMore(iso: int -> string, start: State, events: seq<Event>, e: Event)
    ensures Run(iso, start, events + [e]) == Step(iso, Run(iso, start, events), e)
  {
    assert (events + [e])[..|events|] == events;
  }

  const EMPTY: State := State(0, [], map[], [], [], {})

  function WriteOvertakesRead(zone: Zone, at: int): seq<Event> {
    [CallGet("NQ", at, 0)] + [Query(0, [], 0)] + [CallSet("NQ", at, [zone], 0)] + [Commit(0, true, 0)]
  }

  function Overtaken(zone: Zone, at: int): State {
    var begins := SessionStart(at);
    State(0, Replaced([], "NQ", begins, [zone]), map[],
          [Read("NQ", begins, Fetched([], true))], [Write("NQ", begins, [zone], Committed)], {})
  }

  lemma ReadIsOvertaken(iso: int -> string, zone: Zone, at: int)
    ensures Run(iso, EMPTY, WriteOvertakesRead(zone, at)) == Overtaken(zone, at)
  {
    var begins := SessionStart(at);
    var e1 := [CallGet("NQ", at, 0)];
    var e2 := e1 + [Query(0, [], 0)];
    var e3 := e2 + [CallSet("NQ", at, [zone], 0)];
    assert [] + e1 == e1;
    RunOfMore(iso, EMPTY, [], CallGet("NQ", at, 0));
    assert Run(iso, EMPTY, e1) == EMPTY.(queries := [Read("NQ", begins, Querying)]);
    RunOfMore(iso, EMPTY, e1, Query(0, [], 0));
    assert Run(iso, EMPTY, e2) == EMPTY.(queries := [Read("NQ", begins, Fetched([], false))]);
    RunOfMore(iso, EMPTY, e2, CallSet("NQ", at, [zone], 0));
    RunOfMore(iso, EMPTY, e3, Commit(0, true, 0));
  }

  function Race(zone: Zone, at: int): seq<Event> {
    WriteOvertakesRead(zone, at) + [Drop(0, 0)] + [Fill(0, 0)]
  }

  lemma RaceEnds(iso: int -> string, zone: Zone, at: int)
    ensures Run(iso, EMPTY, Race(zone, at)) == DoFill(iso, DoDrop(iso, Overtaken(zone, at), 0), 0)
  {
    ReadIsOvertaken(iso, zone, at);
    RunOfMore(iso, EMPTY, WriteOvertakesRead(zone, at), Drop(0, 0));
    RunOfMore(iso, EMPTY, WriteOvertakesRead(zone, at) + [Drop(0, 0)], Fill(0, 0));
  }

  // The overtaken read does happen: a get still returns, half a minute later, the
  // rows that a finished write replaced.
  lemma OvertakenReadServesOldRows(iso: int -> string, zone: Zone, at: int)
    ensures var s := Run(iso, EMPTY, Race(zone, at));
            && Hit(iso, s, CallGet("NQ", at, CACHE_TTL_MS - 1)) == Some([])
            && RowsFor(s.table, "NQ", SessionStart(at)) == [zone]
            && forall w :: 0 <= w < |s.writes| ==> s.writes[w].phase.Closed?
  {
    RaceEnds(iso, zone, at);
    WritesReplaceOnePlan([], "NQ", SessionStart(at), [zone], "NQ", SessionStart(at));
  }
}
