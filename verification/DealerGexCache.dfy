// The time-to-live cache in front of the dealer gamma levels: one fetch in flight
// per symbol, and a record of when the underlying's price was last seen to change,
// so that a frozen feed is answered with "no data". Times are milliseconds; a price
// is the text it prints as, which is what the cache compares.
//
// A step happens between two awaits, so a run is any sequence of the events below.

module DealerGexCache {
  import opened Options

  const CACHE_TTL_MS: int := 60_000
  const STALE_THRESHOLD_MS: int := 900_000
  const LOOKBACK_ROWS: nat := 50

  datatype Levels = Levels(spotPrice: string, callWall: Option<real>, putWall: Option<real>, gammaFlip: Option<real>)

  // A stored row of the levels table.
  datatype Row = Row(time: int, spotPrice: string)

  datatype Entry = Entry(result: Levels, computedAt: int, lastSpotPrice: string, lastChangedAt: int)

  // ----- resolveInitialLastChangedAt ---------------------------------------------

  // Length of the longest prefix of `rows` at `price`.
  function RunLength(rows: seq<Row>, price: string): (k: nat)
    ensures k <= |rows|
    ensures forall i :: 0 <= i < k ==> rows[i].spotPrice == price
    ensures k < |rows| ==> rows[k].spotPrice != price
  {
    if rows == [] || rows[0].spotPrice != price then 0 else 1 + RunLength(rows[1..], price)
  }

  function Lookback(rows: seq<Row>): seq<Row> {
    if |rows| <= LOOKBACK_ROWS then rows else rows[..LOOKBACK_ROWS]
  }

  // The start of the equal-price run at the head of the rows (newest first);
  // `now` when there is no such run.
  function RunBegan(rows: seq<Row>, price: string, now: int): int {
    var k := RunLength(rows, price);
    if k == 0 then now else rows[k - 1].time
  }

  // None: the history query failed.
  function InitialChange(history: Option<seq<Row>>, price: string, now: int): int {
    match history
    case None => now
    case Some(rows) => RunBegan(Lookback(rows), price, now)
  }

  // The first `k` rows, of the fifty looked at, are at `price`, and the next is not.
  ghost predicate IsPriceRun(rows: seq<Row>, price: string, k: nat) {
    && k <= |rows| && k <= 50
    && (forall i :: 0 <= i < k ==> rows[i].spotPrice == price)
    && (k < |rows| && k < 50 ==> rows[k].spotPrice != price)
  }

  lemma OnePriceRun(rows: seq<Row>, price: string, j: nat, k: nat)
    requires IsPriceRun(rows, price, j) && IsPriceRun(rows, price, k)
    ensures j == k
  {
  }

  // The time found is that of the last row of the run, and `now` without one.
  lemma InitialChangeIs(history: Option<seq<Row>>, price: string, now: int)
    ensures history.None? ==> InitialChange(history, price, now) == now
    ensures history.Some? ==>
              && (exists k: nat :: IsPriceRun(history.value, price, k))
              && forall k: nat :: IsPriceRun(history.value, price, k) ==>
                   InitialChange(history, price, now) == if k == 0 then now else history.value[k - 1].time
  {
    if history.Some? {
      var rows := Lookback(history.value);
      var found := RunLength(rows, price);
      assert IsPriceRun(history.value, price, found);
      forall k: nat | IsPriceRun(history.value, price, k)
        ensures k == found
      {
        OnePriceRun(history.value, price, k, found);
      }
    }
  }

  method ResolveInitialLastChangedAt(history: Option<seq<Row>>, price: string, now: int) returns (lastChangedAt: int)
    ensures history.None? ==> lastChangedAt == now
    ensures history.Some? ==> forall k: nat :: IsPriceRun(history.value, price, k) ==>
              lastChangedAt == if k == 0 then now else history.value[k - 1].time
    ensures lastChangedAt == InitialChange(history, price, now)
  {
    InitialChangeIs(history, price, now);
    if history.None? { return now; }
    var rows := Lookback(history.value);
    lastChangedAt := now;
    for i := 0 to |rows|
      invariant i <= RunLength(rows, price)
      invariant lastChangedAt == if i == 0 then now else rows[i - 1].time
    {
      if rows[i].spotPrice != price { break; }
      lastChangedAt := rows[i].time;
    }
  }

  ghost predicate NewestFirst(rows: seq<Row>) {
    forall i, j :: 0 <= i < j < |rows| ==> rows[j].time <= rows[i].time
  }

  lemma {:induction false} RunOfPrefix(rows: seq<Row>, n: nat, price: string)
    requires n <= |rows|
    ensures RunLength(rows[..n], price) == if RunLength(rows, price) < n then RunLength(rows, price) else n
  {
    var k := RunLength(rows[..n], price);
    var full := RunLength(rows, price);
    assert k < n ==> rows[..n][k] == rows[k];
    assert full < n ==> rows[..n][full] == rows[full];
  }

  predicate IsStale(since: int, now: int) {
    now - since >= STALE_THRESHOLD_MS
  }

  // The bounded lookback and the whole history give the same verdict.
  predicate FiftySuffice(rows: seq<Row>, price: string, now: int) {
    IsStale(RunBegan(Lookback(rows), price, now), now) <==> IsStale(RunBegan(rows, price, now), now)
  }

  // They do exactly when the equal-price run ends within the lookback, or the
  // lookback's oldest row is already old enough, or the run's first row is still not.
  lemma FiftyRowsAreEnoughIff(rows: seq<Row>, price: string, now: int)
    requires NewestFirst(rows)
    ensures FiftySuffice(rows, price, now)
       <==> var k := RunLength(rows, price);
            k <= LOOKBACK_ROWS || IsStale(rows[LOOKBACK_ROWS - 1].time, now) || !IsStale(rows[k - 1].time, now)
  {
    if |rows| > LOOKBACK_ROWS {
      RunOfPrefix(rows, LOOKBACK_ROWS, price);
    }
  }

  ghost predicate Spaced(times: seq<int>) {
    forall k :: 0 < k < |times| ==> times[k - 1] + CACHE_TTL_MS <= times[k]
  }

  lemma {:induction false} SpacedTimesAge(times: seq<int>, i: nat, j: nat)
    requires Spaced(times) && i <= j < |times|
    ensures times[i] + (j - i) * CACHE_TTL_MS <= times[j]
    decreases j
  {
    if i < j { SpacedTimesAge(times, i, j - 1); }
  }

  // ----- The true change time, from what was fetched --------------------------------

  datatype Sample = Sample(price: string, at: int)

  // Every price fetched for a symbol, oldest first, and the stored history found
  // when the first of them arrived.
  datatype Trace = Trace(history: Option<seq<Row>>, samples: seq<Sample>)

  ghost predicate IsRunStart(samples: seq<Sample>, j: nat) {
    && j < |samples|
    && (forall k :: j <= k < |samples| ==> samples[k].price == samples[|samples| - 1].price)
    && (j > 0 ==> samples[j - 1].price != samples[j].price)
  }

  // First index of the equal-price run the samples end with.
  function RunStart(samples: seq<Sample>): (j: nat)
    requires samples != []
    ensures IsRunStart(samples, j)
  {
    var n := |samples|;
    if n == 1 || samples[n - 2].price != samples[n - 1].price then n - 1 else RunStart(samples[..n - 1])
  }

  lemma RunStartIsUnique(samples: seq<Sample>, i: nat, j: nat)
    requires IsRunStart(samples, i) && IsRunStart(samples, j)
    ensures i == j
  {
  }

  // When the price was last seen to differ from the one before it; for a price
  // unchanged since the cold start, where its run begins in the stored history.
  function ChangedAt(t: Trace): int
    requires t.samples != []
  {
    var j := RunStart(t.samples);
    if j > 0 then t.samples[j].at else InitialChange(t.history, t.samples[0].price, t.samples[0].at)
  }

  // ----- The step system ----------------------------------------------------------------

  datatype Phase =
    | Fetching
    | Walking(result: Levels, readAt: int)   // awaiting the history rows of a cold start
    | Settled(answer: Option<Levels>)

  datatype Fetch = Fetch(symbol: string, phase: Phase)

  datatype State = State(
    now: int,
    cache: map<string, Entry>,
    inFlight: map<string, nat>,
    fetches: seq<Fetch>,
    traces: map<string, Trace>)

  datatype Event =
    | Ask(symbol: string, dt: nat)
    | FetchReturns(id: nat, reply: Option<Levels>, dt: nat)      // None: it threw
    | WalkReturns(id: nat, history: Option<seq<Row>>, dt: nat)   // None: the query threw

  // What a step hands to the callers waiting on it.
  datatype Reply = Reply(symbol: string, value: Option<Levels>)

  predicate HasFresh(s: State, symbol: string) {
    symbol in s.cache && s.now - s.cache[symbol].computedAt < CACHE_TTL_MS
  }

  function Verdict(result: Levels, lastChangedAt: int, now: int): Option<Levels> {
    if now - lastChangedAt < STALE_THRESHOLD_MS then Some(result) else None
  }

  predicate InPhase(s: State, id: nat, walking: bool) {
    id < |s.fetches| && if walking then s.fetches[id].phase.Walking? else s.fetches[id].phase.Fetching?
  }

  function Settle(s: State, id: nat, answer: Option<Levels>): State
    requires id < |s.fetches|
  {
    s.(fetches := s.fetches[id := s.fetches[id].(phase := Settled(answer))],
       inFlight := s.inFlight - {s.fetches[id].symbol})
  }

  function Store(s: State, id: nat, result: Levels, readAt: int, lastChangedAt: int, trace: Trace): State
    requires id < |s.fetches|
  {
    var symbol := s.fetches[id].symbol;
    Settle(s.(cache := s.cache[symbol := Entry(result, readAt, result.spotPrice, lastChangedAt)],
              traces := s.traces[symbol := trace]),
           id, Verdict(result, lastChangedAt, readAt))
  }

  function DoAsk(s: State, symbol: string): State {
    if HasFresh(s, symbol) || symbol in s.inFlight then s
    else s.(fetches := s.fetches + [Fetch(symbol, Fetching)], inFlight := s.inFlight[symbol := |s.fetches|])
  }

  function TraceOf(s: State, symbol: string): Trace {
    if symbol in s.traces then s.traces[symbol] else Trace(None, [])
  }

  function Extend(t: Trace, result: Levels, at: int): Trace {
    t.(samples := t.samples + [Sample(result.spotPrice, at)])
  }

  function DoFetchReturns(s: State, id: nat, reply: Option<Levels>): State
    requires InPhase(s, id, false)
  {
    var symbol := s.fetches[id].symbol;
    match reply
    case None => Settle(s, id, None)
    case Some(result) =>
      if symbol in s.cache then
        var previous := s.cache[symbol];
        var lastChangedAt := if previous.lastSpotPrice == result.spotPrice then previous.lastChangedAt else s.now;
        Store(s, id, result, s.now, lastChangedAt, Extend(TraceOf(s, symbol), result, s.now))
      else
        s.(fetches := s.fetches[id := Fetch(symbol, Walking(result, s.now))])
  }

  function DoWalkReturns(s: State, id: nat, history: Option<seq<Row>>): State
    requires InPhase(s, id, true)
  {
    var walk := s.fetches[id].phase;
    var lastChangedAt := InitialChange(history, walk.result.spotPrice, walk.readAt);
    Store(s, id, walk.result, walk.readAt, lastChangedAt, Extend(Trace(history, []), walk.result, walk.readAt))
  }

  function Later(s: State, e: Event): State {
    s.(now := s.now + e.dt)
  }

  predicate Enabled(s: State, e: Event) {
    match e
    case Ask(_, _) => true
    case FetchReturns(id, _, _) => InPhase(s, id, false)
    case WalkReturns(id, _, _) => InPhase(s, id, true)
  }

  function Step(s: State, e: Event): State {
    if !Enabled(s, e) then s
    else
      match e
      case Ask(symbol, _) => DoAsk(Later(s, e), symbol)
      case FetchReturns(id, reply, _) => DoFetchReturns(Later(s, e), id, reply)
      case WalkReturns(id, history, _) => DoWalkReturns(Later(s, e), id, history)
  }

  // The answer a step delivers, if it delivers one.
  function Answer(s: State, e: Event): Option<Reply> {
    if !Enabled(s, e) then None
    else
      match e
      case Ask(symbol, _) =>
        var t := Later(s, e);
        if HasFresh(t, symbol)
        then Some(Reply(symbol, Verdict(t.cache[symbol].result, t.cache[symbol].lastChangedAt, t.now)))
        else None
      case FetchReturns(id, _, _) => Delivered(Step(s, e), id)
      case WalkReturns(id, _, _) => Delivered(Step(s, e), id)
  }

  function Delivered(s: State, id: nat): Option<Reply> {
    if id < |s.fetches| && s.fetches[id].phase.Settled?
      then Some(Reply(s.fetches[id].symbol, s.fetches[id].phase.answer))
    else None
  }

  function Start(now: int): State {
    State(now, map[], map[], [], map[])
  }

  function Run(now: int, events: seq<Event>): State {
    if events == [] then Start(now) else Step(Run(now, events[..|events| - 1]), events[|events| - 1])
  }

  // ----- What every step keeps ---------------------------------------------------------------

  ghost predicate SingleFlight(s: State) {
    && (forall symbol :: symbol in s.inFlight ==>
          s.inFlight[symbol] < |s.fetches| && s.fetches[s.inFlight[symbol]].symbol == symbol)
    && (forall id :: 0 <= id < |s.fetches| && !s.fetches[id].phase.Settled? ==>
          s.fetches[id].symbol in s.inFlight && s.inFlight[s.fetches[id].symbol] == id)
    && (forall symbol :: symbol in s.inFlight ==> !s.fetches[s.inFlight[symbol]].phase.Settled?)
  }

  function Times(samples: seq<Sample>): seq<int> {
    seq(|samples|, i requires 0 <= i < |samples| => samples[i].at)
  }

  // What is remembered about a symbol is what its fetches showed.
  ghost predicate EntryHolds(entry: Entry, t: Trace, now: int) {
    && t.samples != []
    && Sample(entry.result.spotPrice, entry.computedAt) == t.samples[|t.samples| - 1]
    && entry.lastSpotPrice == entry.result.spotPrice
    && entry.lastChangedAt == ChangedAt(t)
    && entry.computedAt <= now
    && Spaced(Times(t.samples))
  }

  ghost predicate Remembers(s: State) {
    && s.cache.Keys == s.traces.Keys
    && forall symbol :: symbol in s.cache ==> EntryHolds(s.cache[symbol], s.traces[symbol], s.now)
  }

  ghost predicate FetchHolds(s: State, id: nat)
    requires id < |s.fetches|
  {
    var symbol := s.fetches[id].symbol;
    match s.fetches[id].phase
    case Fetching => symbol in s.cache ==> s.cache[symbol].computedAt + CACHE_TTL_MS <= s.now
    case Walking(_, readAt) => symbol !in s.cache && readAt <= s.now
    case Settled(_) => true
  }

  ghost predicate Inv(s: State) {
    && SingleFlight(s)
    && Remembers(s)
    && forall id :: 0 <= id < |s.fetches| ==> FetchHolds(s, id)
  }

  lemma LaterKeepsInv(s: State, e: Event)
    requires Inv(s)
    ensures Inv(Later(s, e))
  {
    forall id | 0 <= id < |s.fetches|
      ensures FetchHolds(Later(s, e), id)
    {
      assert FetchHolds(s, id);
    }
  }

  lemma AskKeepsInv(s: State, symbol: string)
    requires Inv(s)
    ensures Inv(DoAsk(s, symbol))
  {
    var t := DoAsk(s, symbol);
    forall id | 0 <= id < |t.fetches|
      ensures FetchHolds(t, id)
    {
      assert id < |s.fetches| ==> FetchHolds(s, id);
    }
  }

  lemma SettleKeepsSingleFlight(s: State, id: nat, answer: Option<Levels>)
    requires SingleFlight(s) && id < |s.fetches| && !s.fetches[id].phase.Settled?
    ensures SingleFlight(Settle(s, id, answer))
  {
  }

  lemma StoreKeepsInv(s: State, id: nat, result: Levels, readAt: int, lastChangedAt: int, trace: Trace)
    requires Inv(s) && id < |s.fetches| && !s.fetches[id].phase.Settled?
    requires EntryHolds(Entry(result, readAt, result.spotPrice, lastChangedAt), trace, s.now)
    ensures Inv(Store(s, id, result, readAt, lastChangedAt, trace))
  {
    var symbol := s.fetches[id].symbol;
    var t := Store(s, id, result, readAt, lastChangedAt, trace);
    SettleKeepsSingleFlight(s, id, Verdict(result, lastChangedAt, readAt));
    assert t.fetches == Settle(s, id, Verdict(result, lastChangedAt, readAt)).fetches;
    forall other | 0 <= other < |t.fetches|
      ensures FetchHolds(t, other)
    {
      assert FetchHolds(s, other);
    }
  }

  // One more sample: the run goes on, or a new one begins at that sample.
  lemma ExtendedChange(t: Trace, result: Levels, at: int)
    requires t.samples != []
    ensures var last := t.samples[|t.samples| - 1];
            ChangedAt(Extend(t, result, at)) == if last.price == result.spotPrice then ChangedAt(t) else at
  {
    var more := Extend(t, result, at).samples;
    assert more[..|more| - 1] == t.samples;
  }

  // A fetch that throws, or that finds no entry and goes on to the history rows.
  lemma ColdFetchKeepsInv(s: State, id: nat, reply: Option<Levels>)
    requires Inv(s) && InPhase(s, id, false)
    requires reply.Some? ==> s.fetches[id].symbol !in s.cache
    ensures Inv(DoFetchReturns(s, id, reply))
  {
    var t := DoFetchReturns(s, id, reply);
    forall other | 0 <= other < |t.fetches|
      ensures FetchHolds(t, other)
    {
      assert FetchHolds(s, other);
    }
  }

  lemma WarmFetchKeepsInv(s: State, id: nat, result: Levels)
    requires Inv(s) && InPhase(s, id, false) && s.fetches[id].symbol in s.cache
    ensures Inv(DoFetchReturns(s, id, Some(result)))
  {
    var symbol := s.fetches[id].symbol;
    var trace := s.traces[symbol];
    var previous := s.cache[symbol];
    var changed := if previous.lastSpotPrice == result.spotPrice then previous.lastChangedAt else s.now;
    assert FetchHolds(s, id) && EntryHolds(previous, trace, s.now);
    ExtendedEntryHolds(previous, trace, result, s.now);
    StoreKeepsInv(s, id, result, s.now, changed, Extend(trace, result, s.now));
  }

  lemma ExtendedEntryHolds(previous: Entry, trace: Trace, result: Levels, at: int)
    requires EntryHolds(previous, trace, at) && previous.computedAt + CACHE_TTL_MS <= at
    ensures var changed := if previous.lastSpotPrice == result.spotPrice then previous.lastChangedAt else at;
            EntryHolds(Entry(result, at, result.spotPrice, changed), Extend(trace, result, at), at)
  {
    ExtendedChange(trace, result, at);
    var times := Times(trace.samples);
    var more := Times(Extend(trace, result, at).samples);
    assert more == times + [at];
    assert times[|times| - 1] == previous.computedAt;
  }

  lemma FetchKeepsInv(s: State, id: nat, reply: Option<Levels>)
    requires Inv(s) && InPhase(s, id, false)
    ensures Inv(DoFetchReturns(s, id, reply))
  {
    if reply.Some? && s.fetches[id].symbol in s.cache {
      WarmFetchKeepsInv(s, id, reply.value);
    } else {
      ColdFetchKeepsInv(s, id, reply);
    }
  }

  lemma WalkKeepsInv(s: State, id: nat, history: Option<seq<Row>>)
    requires Inv(s) && InPhase(s, id, true)
    ensures Inv(DoWalkReturns(s, id, history))
  {
    var walk := s.fetches[id].phase;
    assert FetchHolds(s, id);
    var trace := Extend(Trace(history, []), walk.result, walk.readAt);
    assert trace.samples == [Sample(walk.result.spotPrice, walk.readAt)];
    StoreKeepsInv(s, id, walk.result, walk.readAt, InitialChange(history, walk.result.spotPrice, walk.readAt), trace);
  }

  lemma StepKeepsInv(s: State, e: Event)
    requires Inv(s)
    ensures Inv(Step(s, e))
  {
    if Enabled(s, e) {
      LaterKeepsInv(s, e);
      match e
      case Ask(symbol, _) => AskKeepsInv(Later(s, e), symbol);
      case FetchReturns(id, reply, _) => FetchKeepsInv(Later(s, e), id, reply);
      case WalkReturns(id, history, _) => WalkKeepsInv(Later(s, e), id, history);
    }
  }

  lemma {:induction false} RunKeepsInv(now: int, events: seq<Event>)
    ensures Inv(Run(now, events))
  {
    if events != [] {
      RunKeepsInv(now, events[..|events| - 1]);
      StepKeepsInv(Run(now, events[..|events| - 1]), events[|events| - 1]);
    }
  }

  // ----- Over every run ------------------------------------------------------------------------

  // No two unsettled fetches are ever for the same symbol.
  lemma OneFetchPerSymbol(now: int, events: seq<Event>, i: nat, j: nat)
    requires var s := Run(now, events);
             && i < |s.fetches| && j < |s.fetches| && s.fetches[i].symbol == s.fetches[j].symbol
             && !s.fetches[i].phase.Settled? && !s.fetches[j].phase.Settled?
    ensures i == j
  {
    RunKeepsInv(now, events);
  }

  // The remembered change time is the time of the last fetch whose price differed
  // from its predecessor's, or the start of the equal-price run in stored history.
  lemma ChangeTimeIsTrue(now: int, events: seq<Event>, symbol: string)
    requires symbol in Run(now, events).cache
    ensures var s := Run(now, events);
            && symbol in s.traces && s.traces[symbol].samples != []
            && s.cache[symbol].lastChangedAt == ChangedAt(s.traces[symbol])
            && var (samples, history) := (s.traces[symbol].samples, s.traces[symbol].history);
               && (forall j: nat :: IsRunStart(samples, j) && j > 0 ==> s.cache[symbol].lastChangedAt == samples[j].at)
               && (IsRunStart(samples, 0) && history.None? ==> s.cache[symbol].lastChangedAt == samples[0].at)
               && (IsRunStart(samples, 0) && history.Some? ==>
                     forall k: nat :: IsPriceRun(history.value, samples[0].price, k) ==>
                       s.cache[symbol].lastChangedAt == if k == 0 then samples[0].at else history.value[k - 1].time)
  {
    RunKeepsInv(now, events);
    var s := Run(now, events);
    var (samples, history) := (s.traces[symbol].samples, s.traces[symbol].history);
    forall j: nat | IsRunStart(samples, j)
      ensures j == RunStart(samples)
    {
      RunStartIsUnique(samples, j, RunStart(samples));
    }
    InitialChangeIs(history, samples[0].price, samples[0].at);
  }

  lemma TraceHolds(now: int, events: seq<Event>, symbol: string)
    requires symbol in Run(now, events).traces
    ensures var s := Run(now, events);
            && Spaced(Times(s.traces[symbol].samples))
            && s.traces[symbol].samples != []
            && s.traces[symbol].samples[|s.traces[symbol].samples| - 1].at <= s.now
  {
    RunKeepsInv(now, events);
    assert symbol in Run(now, events).cache;
  }

  // Successful fetches of one symbol are at least the time-to-live apart.
  lemma FetchesAreSpaced(now: int, events: seq<Event>, symbol: string, k: nat)
    requires var s := Run(now, events); symbol in s.traces && 0 < k < |s.traces[symbol].samples|
    ensures var samples := Run(now, events).traces[symbol].samples;
            samples[k - 1].at + CACHE_TTL_MS <= samples[k].at
  {
    TraceHolds(now, events, symbol);
    NeighboursAreSpaced(Run(now, events).traces[symbol].samples, k);
  }

  lemma NeighboursAreSpaced(samples: seq<Sample>, k: nat)
    requires Spaced(Times(samples)) && 0 < k < |samples|
    ensures samples[k - 1].at + CACHE_TTL_MS <= samples[k].at
  {
    assert Times(samples)[k - 1] + CACHE_TTL_MS <= Times(samples)[k];
  }

  // Rows stored by the fetches of one run, at their times, are a minute or more apart,
  // so the fiftieth of them is fifteen minutes old and the lookback misses nothing.
  lemma StoredRowsSuffice(now: int, events: seq<Event>, symbol: string, rows: seq<Row>, price: string)
    requires var s := Run(now, events); symbol in s.traces && AreStoredFrom(rows, s.traces[symbol].samples)
    ensures FiftySuffice(rows, price, Run(now, events).now)
  {
    var s := Run(now, events);
    TraceHolds(now, events, symbol);
    SpacedRowsSuffice(rows, s.traces[symbol].samples, price, s.now);
  }

  lemma SpacedRowsSuffice(rows: seq<Row>, samples: seq<Sample>, price: string, now: int)
    requires AreStoredFrom(rows, samples) && Spaced(Times(samples))
    requires samples != [] ==> samples[|samples| - 1].at <= now
    ensures FiftySuffice(rows, price, now)
  {
    StoredRowsAge(rows, samples, now);
    FiftyRowsAreEnoughIff(rows, price, now);
  }

  lemma StoredRowsAge(rows: seq<Row>, samples: seq<Sample>, now: int)
    requires AreStoredFrom(rows, samples) && Spaced(Times(samples))
    requires samples != [] ==> samples[|samples| - 1].at <= now
    ensures NewestFirst(rows)
    ensures |rows| >= LOOKBACK_ROWS ==> IsStale(rows[LOOKBACK_ROWS - 1].time, now)
  {
    var times := Times(samples);
    var last := |samples| - 1;
    forall i, j | 0 <= i < j < |rows|
      ensures rows[j].time <= rows[i].time
    {
      SpacedTimesAge(times, last - j, last - i);
    }
    if |rows| >= LOOKBACK_ROWS {
      SpacedTimesAge(times, last - (LOOKBACK_ROWS - 1), last);
      assert rows[LOOKBACK_ROWS - 1].time == times[last - (LOOKBACK_ROWS - 1)];
    }
  }

  // The rows of these fetches, newest first, each stored at its fetch's time.
  ghost predicate AreStoredFrom(rows: seq<Row>, samples: seq<Sample>) {
    && |rows| <= |samples|
    && forall i :: 0 <= i < |rows| ==>
         rows[i] == Row(samples[|samples| - 1 - i].at, samples[|samples| - 1 - i].price)
  }

  // A call is answered from the cache exactly while the entry is under a minute old; an
  // unanswered one starts a fetch exactly when none is in flight for its symbol.
  lemma AskIff(s: State, symbol: string, dt: nat)
    ensures var e := Ask(symbol, dt);
            && (Answer(s, e).Some? <==> symbol in s.cache && s.now + dt - s.cache[symbol].computedAt < 60_000)
            && (Answer(s, e).None? && symbol !in s.inFlight
                <==> Step(s, e).fetches == s.fetches + [Fetch(symbol, Fetching)]
                     && Step(s, e).inFlight == s.inFlight[symbol := |s.fetches|])
  {
    assert |Step(s, Ask(symbol, dt)).fetches| == |s.fetches| ==>
             Step(s, Ask(symbol, dt)).fetches != s.fetches + [Fetch(symbol, Fetching)];
  }

  // An answer from the cache, or from a fetch that finds an entry, is null exactly when
  // the price has not changed for fifteen minutes at that moment, and else the levels
  // fetched last.
  lemma WarmAnswersAreExact(now: int, events: seq<Event>, e: Event)
    requires !e.WalkReturns? && (e.FetchReturns? ==> e.reply.Some?)
    requires Answer(Run(now, events), e).Some?
    ensures var s := Run(now, events);
            var t := Step(s, e);
            var symbol := Answer(s, e).value.symbol;
            && symbol in t.cache && symbol in t.traces && t.traces[symbol].samples != []
            && Answer(s, e).value.value ==
                 (if IsStale(ChangedAt(t.traces[symbol]), t.now) then None else Some(t.cache[symbol].result))
            && Sample(t.cache[symbol].result.spotPrice, t.cache[symbol].computedAt)
                 == t.traces[symbol].samples[|t.traces[symbol].samples| - 1]
            && (e.FetchReturns? ==> t.cache[symbol].result == e.reply.value && t.cache[symbol].computedAt == t.now)
  {
    var s := Run(now, events);
    RunKeepsInv(now, events);
    StepKeepsInv(s, e);
    WarmAnswerIsEntrys(s, e);
    EntryIsTrue(Step(s, e), Answer(s, e).value.symbol);
  }

  lemma WarmAnswerIsEntrys(s: State, e: Event)
    requires !e.WalkReturns? && (e.FetchReturns? ==> e.reply.Some?) && Answer(s, e).Some?
    ensures var t := Step(s, e);
            var answer := Answer(s, e).value;
            && answer.symbol in t.cache
            && answer.value == Verdict(t.cache[answer.symbol].result, t.cache[answer.symbol].lastChangedAt, t.now)
            && (e.FetchReturns? ==>
                  t.cache[answer.symbol].result == e.reply.value && t.cache[answer.symbol].computedAt == t.now)
  {
  }

  lemma EntryIsTrue(s: State, symbol: string)
    requires Inv(s) && symbol in s.cache
    ensures symbol in s.traces && s.traces[symbol].samples != []
    ensures s.cache[symbol].lastChangedAt == ChangedAt(s.traces[symbol])
    ensures Sample(s.cache[symbol].result.spotPrice, s.cache[symbol].computedAt)
              == s.traces[symbol].samples[|s.traces[symbol].samples| - 1]
  {
  }

  // ----- Rows left by earlier processes ---------------------------------------------------

  // How many of the first `n` rows follow the next older one by less than the
  // time-to-live, as happens only where the process was restarted in between.
  function ShortGaps(rows: seq<Row>, n: nat): (k: nat)
    requires n < |rows|
    ensures k <= n
  {
    if n == 0 then 0
    else ShortGaps(rows, n - 1) + if rows[n].time + CACHE_TTL_MS <= rows[n - 1].time then 0 else 1
  }

  lemma {:induction false} RowsAge(rows: seq<Row>, n: nat)
    requires n < |rows| && NewestFirst(rows)
    ensures rows[n].time + (n - ShortGaps(rows, n)) * CACHE_TTL_MS <= rows[0].time
  {
    if n > 0 {
      RowsAge(rows, n - 1);
      assert rows[n].time <= rows[n - 1].time;
    }
  }

  lemma {:induction false} StoredRowsHaveNoShortGaps(rows: seq<Row>, samples: seq<Sample>, n: nat)
    requires AreStoredFrom(rows, samples) && Spaced(Times(samples)) && n < |rows|
    ensures ShortGaps(rows, n) == 0
  {
    if n > 0 {
      StoredRowsHaveNoShortGaps(rows, samples, n - 1);
      NeighboursAreSpaced(samples, |samples| - n);
    }
  }

  // Rows of two processes one after the other: one more short gap at the most.
  lemma {:induction false} ShortGapsAddUp(newer: seq<Row>, older: seq<Row>, n: nat)
    requires newer != [] && older != [] && n < |newer + older|
    ensures ShortGaps(newer + older, n)
         <= if n < |newer| then ShortGaps(newer, n)
            else ShortGaps(newer, |newer| - 1) + 1 + ShortGaps(older, n - |newer|)
  {
    if n > 0 {
      ShortGapsAddUp(newer, older, n - 1);
    }
  }

  // Fifty rows are enough, whoever stored them, if at most 34 of the 49 gaps between
  // them are short.
  lemma RestartedRowsSuffice(rows: seq<Row>, price: string, now: int, oldest: nat)
    requires NewestFirst(rows) && (rows != [] ==> rows[0].time <= now)
    requires oldest == LOOKBACK_ROWS - 1 && (oldest < |rows| ==> ShortGaps(rows, oldest) <= 34)
    ensures FiftySuffice(rows, price, now)
  {
    FiftyRowsAreEnoughIff(rows, price, now);
    if oldest < |rows| {
      RowsAge(rows, oldest);
    }
  }

  // Rows of one price: 36 of the same moment, then one a minute.
  function Bunched(price: string, now: int, count: nat): seq<Row> {
    seq(count, i => Row(now - (if i <= 35 then 0 else (i - 35) * CACHE_TTL_MS), price))
  }

  lemma {:induction false} BunchedGaps(price: string, now: int, count: nat, n: nat)
    requires n < count
    ensures ShortGaps(Bunched(price, now, count), n) == if n <= 35 then n else 35
  {
    if n > 0 { BunchedGaps(price, now, count, n - 1); }
  }

  // With 35 short gaps they need not be.
  lemma ThirtyFiveShortGapsCanMislead(price: string, now: int, oldest: nat, count: nat)
    requires oldest == LOOKBACK_ROWS - 1 && count == LOOKBACK_ROWS + 1
    ensures var rows := Bunched(price, now, count);
            && NewestFirst(rows) && rows[0].time == now
            && ShortGaps(rows, oldest) == 35 && !FiftySuffice(rows, price, now)
  {
    var rows := Bunched(price, now, count);
    BunchedGaps(price, now, count, oldest);
    FiftyRowsAreEnoughIff(rows, price, now);
    assert forall i :: 0 <= i < |rows| ==> rows[i].spotPrice == price;
  }

  // A failed fetch answers null and changes nothing that is remembered.
  lemma FailedFetchLeavesNoTrace(now: int, events: seq<Event>, e: Event)
    requires e.FetchReturns? && e.reply.None? && Enabled(Run(now, events), e)
    ensures var s := Run(now, events);
            && Answer(s, e) == Some(Reply(s.fetches[e.id].symbol, None))
            && Step(s, e).cache == s.cache && Step(s, e).traces == s.traces
            && s.fetches[e.id].symbol !in Step(s, e).inFlight
  {
  }

  // ----- Cold answers ---------------------------------------------------------------------------

  // How long before its delivery a cold answer's age was taken: the wait for the
  // history rows.
  function Waited(s: State, id: nat, dt: nat): int
    requires InPhase(s, id, true)
  {
    s.now + dt - s.fetches[id].phase.readAt
  }

  function WalkedFrom(s: State, id: nat, history: Option<seq<Row>>): int
    requires InPhase(s, id, true)
  {
    var walk := s.fetches[id].phase;
    InitialChange(history, walk.result.spotPrice, walk.readAt)
  }

  // The age of a cold answer when it is delivered: its age when it was read, which is
  // all that is checked, and the wait on top.
  lemma ColdAnswerAge(now: int, events: seq<Event>, id: nat, history: Option<seq<Row>>, dt: nat)
    requires InPhase(Run(now, events), id, true)
    ensures var s := Run(now, events);
            var e := WalkReturns(id, history, dt);
            var t := Step(s, e);
            var symbol := s.fetches[id].symbol;
            var age := s.fetches[id].phase.readAt - WalkedFrom(s, id, history);
            && symbol in t.traces && t.traces[symbol].samples != []
            && ChangedAt(t.traces[symbol]) == WalkedFrom(s, id, history)
            && Answer(s, e) == Some(Reply(symbol, if age >= STALE_THRESHOLD_MS then None
                                                  else Some(s.fetches[id].phase.result)))
            && t.now - ChangedAt(t.traces[symbol]) == age + Waited(s, id, dt)
            && 0 <= Waited(s, id, dt)
  {
    var s := Run(now, events);
    RunKeepsInv(now, events);
    assert FetchHolds(s, id);
    var walk := s.fetches[id].phase;
    assert Extend(Trace(history, []), walk.result, walk.readAt).samples == [Sample(walk.result.spotPrice, walk.readAt)];
  }

  ghost predicate FreshWhenDelivered(s: State, id: nat, history: Option<seq<Row>>, dt: nat)
    requires InPhase(s, id, true)
  {
    var e := WalkReturns(id, history, dt);
    var t := Step(s, e);
    var symbol := s.fetches[id].symbol;
    Answer(s, e).Some? && Answer(s, e).value.value.Some? ==>
      symbol in t.traces && t.traces[symbol].samples != [] && !IsStale(ChangedAt(t.traces[symbol]), t.now)
  }

  // The history that makes the most of the allowance: the row just stored, and one
  // a millisecond short of fifteen minutes older.
  function BarelyFresh(price: string, readAt: int): seq<Row> {
    [Row(readAt, price), Row(readAt - (STALE_THRESHOLD_MS - 1), price)]
  }

  lemma BarelyFreshBegins(price: string, readAt: int)
    ensures InitialChange(Some(BarelyFresh(price, readAt)), price, readAt) == readAt - (STALE_THRESHOLD_MS - 1)
  {
    assert RunLength(BarelyFresh(price, readAt), price) == 2;
  }

  // Whatever the history rows say, every cold answer is under fifteen minutes old when
  // delivered exactly when the wait for them took no time at all.
  lemma ColdAnswersFreshIff(now: int, events: seq<Event>, id: nat, dt: nat)
    requires InPhase(Run(now, events), id, true)
    ensures var s := Run(now, events);
            (forall history :: FreshWhenDelivered(s, id, history, dt)) <==> Waited(s, id, dt) == 0
  {
    var s := Run(now, events);
    forall history
      ensures FreshWhenDelivered(s, id, history, dt) <==>
                var age := s.fetches[id].phase.readAt - WalkedFrom(s, id, history);
                age < STALE_THRESHOLD_MS ==> age + Waited(s, id, dt) < STALE_THRESHOLD_MS
    {
      ColdAnswerAge(now, events, id, history, dt);
    }
    ColdAnswerAge(now, events, id, None, dt);
    var walk := s.fetches[id].phase;
    BarelyFreshBegins(walk.result.spotPrice, walk.readAt);
    assert FreshWhenDelivered(s, id, Some(BarelyFresh(walk.result.spotPrice, walk.readAt)), dt)
      <==> Waited(s, id, dt) == 0;
  }

  // It is never older than fifteen minutes and the wait, and after any wait some
  // history makes it a millisecond less than that.
  lemma ColdAnswerAgeBound(now: int, events: seq<Event>, id: nat, history: Option<seq<Row>>, dt: nat)
    requires InPhase(Run(now, events), id, true)
    ensures var s := Run(now, events);
            var walk := s.fetches[id].phase;
            var symbol := s.fetches[id].symbol;
            var t := Step(s, WalkReturns(id, history, dt));
            var worst := WalkReturns(id, Some(BarelyFresh(walk.result.spotPrice, walk.readAt)), dt);
            var w := Step(s, worst);
            && symbol in t.traces && t.traces[symbol].samples != [] && symbol in w.traces
                && w.traces[symbol].samples != []
            && (Answer(s, WalkReturns(id, history, dt)).value.value.Some? ==>
                  t.now - ChangedAt(t.traces[symbol]) <= STALE_THRESHOLD_MS - 1 + Waited(s, id, dt))
            && Answer(s, worst) == Some(Reply(symbol, Some(walk.result)))
            && w.now - ChangedAt(w.traces[symbol]) == STALE_THRESHOLD_MS - 1 + Waited(s, id, dt)
  {
    var walk := Run(now, events).fetches[id].phase;
    ColdAnswerAge(now, events, id, history, dt);
    ColdAnswerAge(now, events, id, Some(BarelyFresh(walk.result.spotPrice, walk.readAt)), dt);
    BarelyFreshBegins(walk.result.spotPrice, walk.readAt);
  }

  // From the very first call: a fetch, its own stored row as all the history there is,
  // and sixteen minutes until the query returns it. The stale levels are handed out.
  lemma ColdAnswerCanBeStale(levels: Levels)
    ensures var events := [Ask("NQ", 0), FetchReturns(0, Some(levels), 0)];
            var slow := WalkReturns(0, Some([Row(0, levels.spotPrice)]), 960_000);
            var t := Step(Run(0, events), slow);
            && Answer(Run(0, events), slow) == Some(Reply("NQ", Some(levels)))
            && "NQ" in t.traces && t.traces["NQ"].samples != []
            && IsStale(ChangedAt(t.traces["NQ"]), t.now)
  {
    var ask := Ask("NQ", 0);
    var fetched := FetchReturns(0, Some(levels), 0);
    assert [ask, fetched][..1] == [ask] && [ask][..0] == [];
    assert Run(0, [ask]) == Step(Run(0, [ask][..0]), ask);
    assert Run(0, [ask, fetched]) == Step(Run(0, [ask]), fetched);
    var history := Some([Row(0, levels.spotPrice)]);
    assert RunLength(history.value, levels.spotPrice) == 1;
    ColdAnswerAge(0, [ask, fetched], 0, history, 960_000);
  }

  lemma AskSteps(s: State, symbol: string, clock: int)
    requires s.now <= clock && Inv(s)
    ensures var e, t := Ask(symbol, clock - s.now), s.(now := clock);
            && Step(s, e) == DoAsk(t, symbol) && Inv(DoAsk(t, symbol))
            && Answer(s, e) ==
                 if HasFresh(t, symbol)
                 then Some(Reply(symbol, Verdict(t.cache[symbol].result, t.cache[symbol].lastChangedAt, clock)))
                 else None
  {
    StepKeepsInv(s, Ask(symbol, clock - s.now));
  }

  lemma FetchSteps(s: State, id: nat, reply: Option<Levels>, clock: int)
    requires s.now <= clock && InPhase(s, id, false) && Inv(s)
    ensures var t := s.(now := clock);
            && Step(s, FetchReturns(id, reply, clock - s.now)) == DoFetchReturns(t, id, reply)
            && Inv(DoFetchReturns(t, id, reply))
  {
    StepKeepsInv(s, FetchReturns(id, reply, clock - s.now));
  }

  lemma WalkSteps(s: State, id: nat, history: Option<seq<Row>>, clock: int)
    requires s.now <= clock && InPhase(s, id, true) && Inv(s)
    ensures var t := s.(now := clock);
            && Step(s, WalkReturns(id, history, clock - s.now)) == DoWalkReturns(t, id, history)
            && Inv(DoWalkReturns(t, id, history))
  {
    StepKeepsInv(s, WalkReturns(id, history, clock - s.now));
  }

  // ----- The module's own two maps --------------------------------------------------------------

  class DealerLevelCache {
    var cache: map<string, Entry>
    var inFlight: map<string, nat>
    var fetches: seq<Fetch>
    ghost var now: int
    ghost var traces: map<string, Trace>

    ghost function Value(): State
      reads this
    {
      State(now, cache, inFlight, fetches, traces)
    }

    constructor (clock: int)
      ensures Inv(Value()) && Value() == Start(clock)
    {
      cache, inFlight, fetches := map[], map[], [];
      now, traces := clock, map[];
    }

    // `getDealerLevels` up to its first await. `id` is the fetch to await, when
    // the call is not answered at once.
    method GetDealerLevels(symbol: string, clock: int) returns (answer: Option<Reply>, id: Option<nat>)
      requires now <= clock && Inv(Value())
      modifies this
      ensures Inv(Value()) && Value() == Step(old(Value()), Ask(symbol, clock - old(now)))
      ensures answer == Answer(old(Value()), Ask(symbol, clock - old(now)))
      ensures answer.None? ==> id.Some? && symbol in inFlight && id.value == inFlight[symbol]
    {
      AskSteps(Value(), symbol, clock);
      now := clock;
      ghost var before := Value();
      if symbol in cache && clock - cache[symbol].computedAt < CACHE_TTL_MS {
        assert HasFresh(before, symbol);
        var cached := cache[symbol];
        var stale := clock - cached.lastChangedAt >= STALE_THRESHOLD_MS;
        return Some(Reply(symbol, if stale then None else Some(cached.result))), None;
      }
      assert !HasFresh(before, symbol);
      if symbol in inFlight {
        assert DoAsk(before, symbol) == before;
        return None, Some(inFlight[symbol]);
      }
      var fetch := |fetches|;
      fetches := fetches + [Fetch(symbol, Fetching)];
      inFlight := inFlight[symbol := fetch];
      assert Value() == DoAsk(before, symbol);
      return None, Some(fetch);
    }

    // The fetch's promise settles.
    method OnFetched(id: nat, reply: Option<Levels>, clock: int)
      requires now <= clock && InPhase(Value(), id, false) && Inv(Value())
      modifies this
      ensures Inv(Value()) && Value() == Step(old(Value()), FetchReturns(id, reply, clock - old(now)))
    {
      FetchSteps(Value(), id, reply, clock);
      now := clock;
      ghost var before := Value();
      var symbol := fetches[id].symbol;
      if reply.None? {
        fetches := fetches[id := Fetch(symbol, Settled(None))];
        inFlight := inFlight - {symbol};
        assert Value() == Settle(before, id, None);
        return;
      }
      if symbol !in cache {
        fetches := fetches[id := Fetch(symbol, Walking(reply.value, clock))];
        assert Value() == before.(fetches := before.fetches[id := Fetch(symbol, Walking(reply.value, clock))]);
        return;
      }
      var previous := cache[symbol];
      var lastChangedAt := if previous.lastSpotPrice == reply.value.spotPrice then previous.lastChangedAt else clock;
      Remember(id, reply.value, clock, lastChangedAt, Extend(TraceOf(Value(), symbol), reply.value, clock));
    }

    // The history rows of a cold start arrive.
    method OnWalked(id: nat, history: Option<seq<Row>>, clock: int)
      requires now <= clock && InPhase(Value(), id, true) && Inv(Value())
      modifies this
      ensures Inv(Value()) && Value() == Step(old(Value()), WalkReturns(id, history, clock - old(now)))
    {
      WalkSteps(Value(), id, history, clock);
      now := clock;
      var result, readAt := fetches[id].phase.result, fetches[id].phase.readAt;
      var lastChangedAt := ResolveInitialLastChangedAt(history, result.spotPrice, readAt);
      Remember(id, result, readAt, lastChangedAt, Extend(Trace(history, []), result, readAt));
    }

    method Remember(id: nat, result: Levels, readAt: int, lastChangedAt: int, ghost trace: Trace)
      requires id < |fetches|
      modifies this
      ensures Value() == Store(old(Value()), id, result, readAt, lastChangedAt, trace)
    {
      var symbol := fetches[id].symbol;
      cache := cache[symbol := Entry(result, readAt, result.spotPrice, lastChangedAt)];
      traces := traces[symbol := trace];
      var stale := readAt - lastChangedAt >= STALE_THRESHOLD_MS;
      fetches := fetches[id := Fetch(symbol, Settled(if stale then None else Some(result)))];
      inFlight := inFlight - {symbol};
    }
  }
}
