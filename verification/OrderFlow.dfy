// Order flow: book, trade and tilt messages are accumulated per symbol, handed out
// as snapshots on every flush, and kept as a bounded history. A message names the
// symbol its contract resolves to, if it resolves to one. Flushes are atomic, as
// their installed handler never waits.

module OrderFlow {
  import opened Options
  import opened Sorting

  const MAX_HISTORY_PER_SYMBOL: nat := 500

  datatype Quote = Quote(price: real, size: real)

  datatype Tilt = Tilt(
    longBias: real,
    shortBias: real,
    positivePct: Option<real>,
    negativePct: Option<real>,
    longsAvgPrice: Option<real>,
    shortsAvgPrice: Option<real>,
    updatedAtMs: int)

  datatype SymbolState = SymbolState(
    bid: Option<Quote>,
    ask: Option<Quote>,
    buyVolume: real,
    sellVolume: real,
    tradeCount: nat,
    tilt: Option<Tilt>)

  const EMPTY_STATE: SymbolState := SymbolState(None, None, 0.0, 0.0, 0, None)

  // A snapshot with the time it entered the history.
  datatype Point = Point(state: SymbolState, time: int)

  // ----- What one symbol hears ------------------------------------------------------

  datatype Tick =
    | Bid(quote: Quote)
    | Ask(quote: Quote)
    | Trade(price: real, volume: real)
    | Leaning(tilt: Tilt)
    | Flush(time: int)

  // A symbol's running state and every snapshot flushed so far.
  datatype Book = Book(state: SymbolState, flushed: seq<Point>)

  function Hear(s: SymbolState, t: Tick): SymbolState {
    match t
    case Bid(quote) => s.(bid := Some(quote))
    case Ask(quote) => s.(ask := Some(quote))
    case Trade(price, volume) =>
      var counted := s.(tradeCount := s.tradeCount + 1);
      if s.ask.Some? && price >= s.ask.value.price then counted.(buyVolume := s.buyVolume + volume)
      else if s.bid.Some? && price <= s.bid.value.price then counted.(sellVolume := s.sellVolume + volume)
      else counted
    case Leaning(tilt) => s.(tilt := Some(tilt))
    case Flush(_) => s.(buyVolume := 0.0, sellVolume := 0.0, tradeCount := 0)
  }

  function Play(ticks: seq<Tick>): Book {
    if ticks == [] then Book(EMPTY_STATE, [])
    else
      var before := Play(ticks[..|ticks| - 1]);
      var t := ticks[|ticks| - 1];
      Book(Hear(before.state, t), if t.Flush? then before.flushed + [Point(before.state, t.time)] else before.flushed)
  }

  lemma {:induction false} PlayConcatState(a: seq<Tick>, b: seq<Tick>)
    requires forall t :: t in b ==> !t.Flush?
    ensures Play(a + b).flushed == Play(a).flushed
    ensures Play(a + b).state == HearAll(Play(a).state, b)
  {
    if b == [] {
      assert a + b == a;
    } else {
      assert (a + b)[..|a + b| - 1] == a + b[..|b| - 1];
      assert b[|b| - 1] in b;
      PlayConcatState(a, b[..|b| - 1]);
    }
  }

  function HearAll(s: SymbolState, ticks: seq<Tick>): SymbolState {
    if ticks == [] then s else Hear(HearAll(s, ticks[..|ticks| - 1]), ticks[|ticks| - 1])
  }

  // ----- The same, said of the whole tape -----------------------------------------------

  function LastBid(ticks: seq<Tick>): Option<Quote> {
    if ticks == [] then None
    else if ticks[|ticks| - 1].Bid? then Some(ticks[|ticks| - 1].quote)
    else LastBid(ticks[..|ticks| - 1])
  }

  function LastAsk(ticks: seq<Tick>): Option<Quote> {
    if ticks == [] then None
    else if ticks[|ticks| - 1].Ask? then Some(ticks[|ticks| - 1].quote)
    else LastAsk(ticks[..|ticks| - 1])
  }

  function LastTilt(ticks: seq<Tick>): Option<Tilt> {
    if ticks == [] then None
    else if ticks[|ticks| - 1].Leaning? then Some(ticks[|ticks| - 1].tilt)
    else LastTilt(ticks[..|ticks| - 1])
  }

  datatype Side = Buy | Sell | Neither

  // Who a print belongs to, given everything heard before it.
  function Aggressor(before: seq<Tick>, price: real): Side {
    if LastAsk(before).Some? && price >= LastAsk(before).value.price then Buy
    else if LastBid(before).Some? && price <= LastBid(before).value.price then Sell
    else Neither
  }

  function VolumeOf(ticks: seq<Tick>, side: Side): real {
    if ticks == [] then 0.0
    else
      var before := ticks[..|ticks| - 1];
      var t := ticks[|ticks| - 1];
      VolumeOf(before, side) + if t.Trade? && Aggressor(before, t.price) == side then t.volume else 0.0
  }

  function TradedVolume(t: Tick): real {
    if t.Trade? then t.volume else 0.0
  }

  function IsTrade(t: Tick): real {
    if t.Trade? then 1.0 else 0.0
  }

  function BuyOf(p: Point): real { p.state.buyVolume }

  function SellOf(p: Point): real { p.state.sellVolume }

  function CountOf(p: Point): real { p.state.tradeCount as real }

  // Quotes and tilt survive every flush: they are the latest ever heard.
  lemma {:induction false} PointInTimeFieldsSurvive(ticks: seq<Tick>)
    ensures var s := Play(ticks).state;
            s.bid == LastBid(ticks) && s.ask == LastAsk(ticks) && s.tilt == LastTilt(ticks)
  {
    if ticks != [] {
      PointInTimeFieldsSurvive(ticks[..|ticks| - 1]);
    }
  }

  lemma FlushedOnce(ticks: seq<Tick>, f: Point -> real)
    requires ticks != []
    ensures var before := Play(ticks[..|ticks| - 1]);
            var t := ticks[|ticks| - 1];
            SumBy(Play(ticks).flushed, f) ==
            SumBy(before.flushed, f) + if t.Flush? then f(Point(before.state, t.time)) else 0.0
  {
    var before := Play(ticks[..|ticks| - 1]);
    var t := ticks[|ticks| - 1];
    if t.Flush? {
      assert (before.flushed + [Point(before.state, t.time)])[..|before.flushed|] == before.flushed;
    }
  }

  lemma {:induction false} BuysAreConserved(ticks: seq<Tick>)
    ensures SumBy(Play(ticks).flushed, BuyOf) + Play(ticks).state.buyVolume == VolumeOf(ticks, Buy)
  {
    if ticks != [] {
      BuysAreConserved(ticks[..|ticks| - 1]);
      PointInTimeFieldsSurvive(ticks[..|ticks| - 1]);
      FlushedOnce(ticks, BuyOf);
    }
  }

  lemma {:induction false} SellsAreConserved(ticks: seq<Tick>)
    ensures SumBy(Play(ticks).flushed, SellOf) + Play(ticks).state.sellVolume == VolumeOf(ticks, Sell)
  {
    if ticks != [] {
      SellsAreConserved(ticks[..|ticks| - 1]);
      PointInTimeFieldsSurvive(ticks[..|ticks| - 1]);
      FlushedOnce(ticks, SellOf);
    }
  }

  lemma {:induction false} CountsAreConserved(ticks: seq<Tick>)
    ensures SumBy(Play(ticks).flushed, CountOf) + Play(ticks).state.tradeCount as real == SumBy(ticks, IsTrade)
  {
    if ticks != [] {
      CountsAreConserved(ticks[..|ticks| - 1]);
      FlushedOnce(ticks, CountOf);
    }
  }

  // Nothing is lost or counted twice: flushed plus pending volume is the volume of
  // the trades at or beyond the quote known at their moment, and the counts add up.
  lemma VolumesAreConserved(ticks: seq<Tick>)
    ensures SumBy(Play(ticks).flushed, BuyOf) + Play(ticks).state.buyVolume == VolumeOf(ticks, Buy)
    ensures SumBy(Play(ticks).flushed, SellOf) + Play(ticks).state.sellVolume == VolumeOf(ticks, Sell)
    ensures SumBy(Play(ticks).flushed, CountOf) + Play(ticks).state.tradeCount as real == SumBy(ticks, IsTrade)
  {
    BuysAreConserved(ticks);
    SellsAreConserved(ticks);
    CountsAreConserved(ticks);
  }

  // Every print is the buyers', the sellers' or nobody's, and never two of these.
  lemma {:induction false} SidesPartitionVolume(ticks: seq<Tick>)
    ensures VolumeOf(ticks, Buy) + VolumeOf(ticks, Sell) + VolumeOf(ticks, Neither) == SumBy(ticks, TradedVolume)
  {
    if ticks != [] {
      SidesPartitionVolume(ticks[..|ticks| - 1]);
    }
  }

  // ----- The bounded history ---------------------------------------------------------------

  function LastOf<T>(xs: seq<T>, n: nat): seq<T> {
    if |xs| <= n then xs else xs[|xs| - n..]
  }

  lemma LastOfMore<T>(xs: seq<T>, x: T, n: nat)
    requires n > 0
    ensures LastOf(LastOf(xs, n) + [x], n) == LastOf(xs + [x], n)
  {
  }

  function PointsIn(history: map<string, seq<Point>>, symbol: string): seq<Point> {
    if symbol in history then history[symbol] else []
  }

  class LiveOrderFlowCache {
    var latest: map<string, SymbolState>
    var history: map<string, seq<Point>>

    constructor ()
      ensures latest == map[] && history == map[]
    {
      latest, history := map[], map[];
    }

    method SetLatestOrderFlowSnapshot(symbol: string, snapshot: SymbolState)
      modifies `latest
      ensures latest == old(latest)[symbol := snapshot]
    {
      latest := latest[symbol := snapshot];
    }

    method AppendOrderFlowHistory(symbol: string, snapshot: SymbolState, time: int)
      modifies `history
      ensures PointsIn(history, symbol)
          == LastOf(PointsIn(old(history), symbol) + [Point(snapshot, time)], MAX_HISTORY_PER_SYMBOL)
      ensures forall other :: other != symbol ==> PointsIn(history, other) == PointsIn(old(history), other)
    {
      var points := if symbol in history then history[symbol] else [];
      points := points + [Point(snapshot, time)];
      if |points| > MAX_HISTORY_PER_SYMBOL { points := points[|points| - MAX_HISTORY_PER_SYMBOL..]; }
      history := history[symbol := points];
    }

    // A limit at or below zero asks for nothing.
    method GetOrderFlowHistory(symbol: string, limit: int) returns (points: seq<Point>)
      ensures points == LastOf(PointsIn(history, symbol), if limit < 0 then 0 else limit)
    {
      points := if symbol in history then history[symbol] else [];
      var from := if |points| - limit > 0 then |points| - limit else 0;
      points := if from <= |points| then points[from..] else [];
    }
  }

  // ----- Messages ---------------------------------------------------------------------------------

  datatype LevelType = BestAsk | BestBid | Other

  datatype DomLevel = DomLevel(price: real, volume: real, kind: LevelType)

  datatype Print = Print(price: real, volume: real)

  datatype TiltRow = TiltRow(
    symbol: Option<string>,
    longBias: real,
    shortBias: real,
    percentPositive: Option<real>,    // 0 to 1
    percentNegative: Option<real>,
    avgPriceLong: Option<real>,
    avgPriceShort: Option<real>)

  // None where the wire held null, or something other than a list.
  datatype Message =
    | DomBook(symbol: Option<string>, levels: Option<seq<Option<DomLevel>>>)
    | TradeLog(symbol: Option<string>, trades: Option<seq<Option<Print>>>)
    | TiltTable(rows: Option<seq<Option<TiltRow>>>, at: int)
    | FlushAll(time: int)

  function TickOfLevel(level: Option<DomLevel>): seq<Tick> {
    if level.Some? && level.value.kind.BestBid? then [Bid(Quote(level.value.price, level.value.volume))]
    else if level.Some? && level.value.kind.BestAsk? then [Ask(Quote(level.value.price, level.value.volume))]
    else []
  }

  function LevelTicks(levels: seq<Option<DomLevel>>): seq<Tick> {
    if levels == [] then [] else LevelTicks(levels[..|levels| - 1]) + TickOfLevel(levels[|levels| - 1])
  }

  function TickOfTrade(trade: Option<Print>): seq<Tick> {
    if trade.Some? then [Trade(trade.value.price, trade.value.volume)] else []
  }

  function TradeTicks(trades: seq<Option<Print>>): seq<Tick> {
    if trades == [] then [] else TradeTicks(trades[..|trades| - 1]) + TickOfTrade(trades[|trades| - 1])
  }

  function Percentage(fraction: Option<real>): (percentage: Option<real>)
    ensures fraction.Some? <==> percentage.Some?
    ensures fraction.Some? ==> percentage.value / 100.0 == fraction.value
    ensures fraction.Some? && 0.0 <= fraction.value <= 1.0 ==> 0.0 <= percentage.value <= 100.0
  {
    if fraction.Some? then Some(fraction.value * 100.0) else None
  }

  function Reading(row: TiltRow, at: int): Tilt {
    Tilt(row.longBias, row.shortBias, Percentage(row.percentPositive), Percentage(row.percentNegative),
         row.avgPriceLong, row.avgPriceShort, at)
  }

  function TiltTicks(rows: seq<Option<TiltRow>>, symbol: string, at: int): seq<Tick> {
    if rows == [] then []
    else
      var last := rows[|rows| - 1];
      TiltTicks(rows[..|rows| - 1], symbol, at) +
      if last.Some? && last.value.symbol == Some(symbol) then [Leaning(Reading(last.value, at))] else []
  }

  predicate Touches(m: Message, symbol: string) {
    match m
    case DomBook(s, levels) => s == Some(symbol) && levels.Some?
    case TradeLog(s, trades) => s == Some(symbol) && trades.Some?
    case TiltTable(rows, at) => rows.Some? && TiltTicks(rows.value, symbol, at) != []
    case FlushAll(_) => false
  }

  predicate Known(messages: seq<Message>, symbol: string) {
    exists i :: 0 <= i < |messages| && Touches(messages[i], symbol)
  }

  // What `symbol` hears of one message; a flush passes by a symbol not yet known.
  function TicksOf(m: Message, symbol: string, known: bool): seq<Tick> {
    match m
    case DomBook(s, levels) => if Touches(m, symbol) then LevelTicks(levels.value) else []
    case TradeLog(s, trades) => if Touches(m, symbol) then TradeTicks(trades.value) else []
    case TiltTable(rows, at) => if rows.Some? then TiltTicks(rows.value, symbol, at) else []
    case FlushAll(time) => if known then [Flush(time)] else []
  }

  // A symbol hears of a book or a trade log only if it is its own, and then all of it; of
  // the tilt table its own rows; of a flush only once it has heard something.
  lemma SymbolsHearTheirOwn(m: Message, symbol: string, known: bool)
    ensures m.DomBook? && m.symbol != Some(symbol) ==> TicksOf(m, symbol, known) == []
    ensures m.DomBook? && m.symbol == Some(symbol) && m.levels.Some? ==>
              TicksOf(m, symbol, known) == LevelTicks(m.levels.value)
    ensures m.TradeLog? && m.symbol != Some(symbol) ==> TicksOf(m, symbol, known) == []
    ensures m.TradeLog? && m.symbol == Some(symbol) && m.trades.Some? ==>
              TicksOf(m, symbol, known) == TradeTicks(m.trades.value)
    ensures m.TiltTable? && m.rows.Some? ==> TicksOf(m, symbol, known) == TiltTicks(m.rows.value, symbol, m.at)
    ensures m.FlushAll? ==> TicksOf(m, symbol, known) == if known then [Flush(m.time)] else []
    ensures Touches(m, symbol) ==>
              && !m.FlushAll?
              && (m.DomBook? || m.TradeLog? ==> m.symbol == Some(symbol))
              && (m.TiltTable? ==> TicksOf(m, symbol, known) != [])
    ensures !Touches(m, symbol) && !m.FlushAll? ==> TicksOf(m, symbol, known) == []
  {
  }

  function Tape(messages: seq<Message>, symbol: string): seq<Tick> {
    if messages == [] then []
    else
      var before := messages[..|messages| - 1];
      Tape(before, symbol) + TicksOf(messages[|messages| - 1], symbol, Known(before, symbol))
  }

  lemma TapeOfMore(messages: seq<Message>, m: Message, symbol: string)
    ensures Tape(messages + [m], symbol) == Tape(messages, symbol) + TicksOf(m, symbol, Known(messages, symbol))
    ensures Known(messages + [m], symbol) <==> Known(messages, symbol) || Touches(m, symbol)
  {
    var more := messages + [m];
    assert more[..|messages|] == messages;
    if Known(messages, symbol) {
      var i :| 0 <= i < |messages| && Touches(messages[i], symbol);
      assert Touches(more[i], symbol);
    }
    if Touches(m, symbol) {
      assert Touches(more[|messages|], symbol);
    }
  }

  lemma MessagesHoldNoFlush(m: Message, symbol: string, known: bool)
    requires !m.FlushAll?
    ensures forall t :: t in TicksOf(m, symbol, known) ==> !t.Flush?
  {
    match m
    case DomBook(_, levels) => if levels.Some? { LevelsHoldNoFlush(levels.value); }
    case TradeLog(_, trades) => if trades.Some? { TradesHoldNoFlush(trades.value); }
    case TiltTable(rows, at) => if rows.Some? { TiltsHoldNoFlush(rows.value, symbol, at); }
  }

  lemma {:induction false} LevelsHoldNoFlush(levels: seq<Option<DomLevel>>)
    ensures forall t :: t in LevelTicks(levels) ==> !t.Flush?
  {
    if levels != [] { LevelsHoldNoFlush(levels[..|levels| - 1]); }
  }

  lemma {:induction false} TradesHoldNoFlush(trades: seq<Option<Print>>)
    ensures forall t :: t in TradeTicks(trades) ==> !t.Flush?
  {
    if trades != [] { TradesHoldNoFlush(trades[..|trades| - 1]); }
  }

  lemma {:induction false} TiltsHoldNoFlush(rows: seq<Option<TiltRow>>, symbol: string, at: int)
    ensures forall t :: t in TiltTicks(rows, symbol, at) ==> !t.Flush?
  {
    if rows != [] { TiltsHoldNoFlush(rows[..|rows| - 1], symbol, at); }
  }

  lemma HearMore(s: SymbolState, ticks: seq<Tick>, t: Tick)
    ensures HearAll(s, ticks + [t]) == Hear(HearAll(s, ticks), t)
  {
    assert (ticks + [t])[..|ticks|] == ticks;
  }

  lemma LevelTicksNext(before: SymbolState, levels: seq<Option<DomLevel>>, n: nat)
    requires n < |levels|
    ensures var ticks := LevelTicks(levels[..n]);
            HearAll(before, LevelTicks(levels[..n + 1])) ==
            if TickOfLevel(levels[n]) == [] then HearAll(before, ticks)
            else Hear(HearAll(before, ticks), TickOfLevel(levels[n])[0])
  {
    var ticks := LevelTicks(levels[..n]);
    assert levels[..n + 1][..n] == levels[..n];
    if TickOfLevel(levels[n]) == [] {
      assert ticks + [] == ticks;
    } else {
      HearMore(before, ticks, TickOfLevel(levels[n])[0]);
    }
  }

  lemma TiltTicksNext(before: SymbolState, rows: seq<Option<TiltRow>>, n: nat, symbol: string, at: int)
    requires n < |rows|
    ensures var mine := rows[n].Some? && rows[n].value.symbol == Some(symbol);
            && (TiltTicks(rows[..n + 1], symbol, at) != [] <==> TiltTicks(rows[..n], symbol, at) != [] || mine)
            && HearAll(before, TiltTicks(rows[..n + 1], symbol, at)) ==
                 var s := HearAll(before, TiltTicks(rows[..n], symbol, at));
                 if mine then s.(tilt := Some(Reading(rows[n].value, at))) else s
  {
    var ticks := TiltTicks(rows[..n], symbol, at);
    assert rows[..n + 1][..n] == rows[..n];
    if rows[n].Some? && rows[n].value.symbol == Some(symbol) {
      HearMore(before, ticks, Leaning(Reading(rows[n].value, at)));
    } else {
      assert ticks + [] == ticks;
    }
  }

  // The loop over the levels of a book message.
  method TakeLevels(before: SymbolState, levels: seq<Option<DomLevel>>) returns (s: SymbolState)
    ensures s == HearAll(before, LevelTicks(levels))
  {
    s := before;
    for n := 0 to |levels|
      invariant s == HearAll(before, LevelTicks(levels[..n]))
    {
      LevelTicksNext(before, levels, n);
      if levels[n].None? { continue; }
      var level := levels[n].value;
      if level.kind.BestBid? {
        s := s.(bid := Some(Quote(level.price, level.volume)));
      } else if level.kind.BestAsk? {
        s := s.(ask := Some(Quote(level.price, level.volume)));
      }
    }
    assert levels[..|levels|] == levels;
  }

  lemma TradeTicksNext(before: SymbolState, trades: seq<Option<Print>>, n: nat)
    requires n < |trades|
    ensures var ticks := TradeTicks(trades[..n]);
            HearAll(before, TradeTicks(trades[..n + 1])) ==
            if trades[n].None? then HearAll(before, ticks)
            else Hear(HearAll(before, ticks), Trade(trades[n].value.price, trades[n].value.volume))
  {
    var ticks := TradeTicks(trades[..n]);
    assert trades[..n + 1][..n] == trades[..n];
    if trades[n].None? {
      assert ticks + [] == ticks;
    } else {
      HearMore(before, ticks, TickOfTrade(trades[n])[0]);
    }
  }

  // A print at or above the ask is the buyers', else one at or below the bid the sellers'.
  method TakePrint(before: SymbolState, trade: Print) returns (s: SymbolState)
    ensures s == Hear(before, Trade(trade.price, trade.volume))
  {
    s := before.(tradeCount := before.tradeCount + 1);
    if s.ask.Some? && trade.price >= s.ask.value.price {
      s := s.(buyVolume := s.buyVolume + trade.volume);
    } else if s.bid.Some? && trade.price <= s.bid.value.price {
      s := s.(sellVolume := s.sellVolume + trade.volume);
    }
  }

  // The loop over the prints of a trade message.
  method TakeTrades(before: SymbolState, trades: seq<Option<Print>>) returns (s: SymbolState)
    ensures s == HearAll(before, TradeTicks(trades))
  {
    s := before;
    for n := 0 to |trades|
      invariant s == HearAll(before, TradeTicks(trades[..n]))
    {
      TradeTicksNext(before, trades, n);
      if trades[n].Some? {
        s := TakePrint(s, trades[n].value);
      }
    }
    assert trades[..|trades|] == trades;
  }

  // ----- What the two modules hold, against the messages heard --------------------------------

  function StateIn(state: map<string, SymbolState>, symbol: string): SymbolState {
    if symbol in state then state[symbol] else EMPTY_STATE
  }

  // The running state and the stored history of a symbol are what its tape says.
  ghost predicate Mirrors(state: map<string, SymbolState>, history: map<string, seq<Point>>, heard: seq<Message>,
                          symbol: string) {
    var book := Play(Tape(heard, symbol));
    && (symbol in state <==> Known(heard, symbol))
    && StateIn(state, symbol) == book.state
    && PointsIn(history, symbol) == LastOf(book.flushed, MAX_HISTORY_PER_SYMBOL)
  }

  // A message that is not a flush moves each state by what its symbol heard and
  // leaves the history alone.
  lemma MessageKeepsMirror(was: map<string, SymbolState>, state: map<string, SymbolState>,
                           history: map<string, seq<Point>>, heard: seq<Message>, m: Message, symbol: string)
    requires Mirrors(was, history, heard, symbol) && !m.FlushAll?
    requires symbol in state <==> symbol in was || Touches(m, symbol)
    requires StateIn(state, symbol) == HearAll(StateIn(was, symbol), TicksOf(m, symbol, Known(heard, symbol)))
    ensures Mirrors(state, history, heard + [m], symbol)
  {
    TapeOfMore(heard, m, symbol);
    MessagesHoldNoFlush(m, symbol, Known(heard, symbol));
    PlayConcatState(Tape(heard, symbol), TicksOf(m, symbol, Known(heard, symbol)));
  }

  lemma FlushKeepsMirror(was: map<string, SymbolState>, state: map<string, SymbolState>,
                         before: map<string, seq<Point>>, history: map<string, seq<Point>>,
                         heard: seq<Message>, time: int, symbol: string)
    requires Mirrors(was, before, heard, symbol)
    requires symbol in state <==> symbol in was
    requires symbol !in was ==> PointsIn(history, symbol) == PointsIn(before, symbol)
    requires symbol in was ==>
               && state[symbol] == Hear(was[symbol], Tick.Flush(time))
               && PointsIn(history, symbol)
                    == LastOf(PointsIn(before, symbol) + [Point(was[symbol], time)], MAX_HISTORY_PER_SYMBOL)
    ensures Mirrors(state, history, heard + [FlushAll(time)], symbol)
  {
    var tape := Tape(heard, symbol);
    TapeOfMore(heard, FlushAll(time), symbol);
    if symbol in was {
      assert (tape + [Tick.Flush(time)])[..|tape|] == tape;
      LastOfMore(Play(tape).flushed, Point(was[symbol], time), MAX_HISTORY_PER_SYMBOL);
    } else {
      assert tape + [] == tape;
    }
  }

  // ----- The listener ----------------------------------------------------------------------------

  class OrderFlowListener {
    var state: map<string, SymbolState>
    const cache: LiveOrderFlowCache
    ghost var heard: seq<Message>

    ghost predicate Valid()
      reads this, cache
    {
      forall symbol :: Mirrors(state, cache.history, heard, symbol)
    }

    constructor ()
      ensures Valid() && fresh(cache) && heard == []
    {
      state, heard := map[], [];
      cache := new LiveOrderFlowCache();
    }

    method HandleDom(symbol: Option<string>, levels: Option<seq<Option<DomLevel>>>)
      requires Valid()
      modifies this
      ensures Valid() && heard == old(heard) + [DomBook(symbol, levels)]
    {
      if symbol.Some? && levels.Some? {
        var s := TakeLevels(StateIn(state, symbol.value), levels.value);
        state := state[symbol.value := s];
      }
      heard := heard + [DomBook(symbol, levels)];
      forall other
        ensures Mirrors(state, cache.history, heard, other)
      {
        MessageKeepsMirror(old(state), state, cache.history, old(heard), DomBook(symbol, levels), other);
      }
    }

    method HandleTradeLog(symbol: Option<string>, trades: Option<seq<Option<Print>>>)
      requires Valid()
      modifies this
      ensures Valid() && heard == old(heard) + [TradeLog(symbol, trades)]
    {
      if symbol.Some? && trades.Some? {
        var s := TakeTrades(StateIn(state, symbol.value), trades.value);
        state := state[symbol.value := s];
      }
      heard := heard + [TradeLog(symbol, trades)];
      forall other
        ensures Mirrors(state, cache.history, heard, other)
      {
        MessageKeepsMirror(old(state), state, cache.history, old(heard), TradeLog(symbol, trades), other);
      }
    }

    method HandleTilt(rows: Option<seq<Option<TiltRow>>>, at: int)
      requires Valid()
      modifies this
      ensures Valid() && heard == old(heard) + [TiltTable(rows, at)]
    {
      if rows.Some? {
        for n := 0 to |rows.value|
          invariant heard == old(heard)
          invariant forall symbol :: symbol in state <==>
              symbol in old(state) || TiltTicks(rows.value[..n], symbol, at) != []
          invariant forall symbol ::
                      StateIn(state, symbol)
                      == HearAll(StateIn(old(state), symbol), TiltTicks(rows.value[..n], symbol, at))
        {
          var row := rows.value[n];
          if row.Some? && row.value.symbol.Some? {
            var symbol := row.value.symbol.value;
            state := state[symbol := StateIn(state, symbol).(tilt := Some(Reading(row.value, at)))];
          }
          forall symbol
            ensures TiltTicks(rows.value[..n + 1], symbol, at) != [] <==>
                      TiltTicks(rows.value[..n], symbol, at) != [] || (row.Some? && row.value.symbol == Some(symbol))
            ensures HearAll(StateIn(old(state), symbol), TiltTicks(rows.value[..n + 1], symbol, at)) ==
                      var s := HearAll(StateIn(old(state), symbol), TiltTicks(rows.value[..n], symbol, at));
                      if row.Some? && row.value.symbol == Some(symbol) then s.(tilt := Some(Reading(row.value, at)))
                      else s
          {
            TiltTicksNext(StateIn(old(state), symbol), rows.value, n, symbol, at);
          }
        }
        assert rows.value[..|rows.value|] == rows.value;
      }
      heard := heard + [TiltTable(rows, at)];
      forall other
        ensures Mirrors(state, cache.history, heard, other)
      {
        MessageKeepsMirror(old(state), state, cache.history, old(heard), TiltTable(rows, at), other);
      }
    }

    method Flush(time: int)
      requires Valid()
      modifies this, cache
      ensures Valid() && heard == old(heard) + [FlushAll(time)]
      ensures forall symbol :: symbol in old(state) ==>
                symbol in cache.latest && cache.latest[symbol] == old(state)[symbol]
    {
      FlushEach(time);
      heard := heard + [FlushAll(time)];
      forall symbol
        ensures Mirrors(state, cache.history, heard, symbol)
      {
        assert Mirrors(old(state), old(cache.history), old(heard), symbol);
        FlushKeepsMirror(old(state), state, old(cache.history), cache.history, old(heard), time, symbol);
      }
    }

    // The loop of `flush`.
    method FlushEach(time: int)
      modifies this`state, cache
      ensures state.Keys == old(state).Keys
      ensures forall symbol :: symbol !in state ==>
                PointsIn(cache.history, symbol) == PointsIn(old(cache.history), symbol)
      ensures forall symbol :: symbol in state ==>
                && state[symbol] == Hear(old(state)[symbol], Tick.Flush(time))
                && PointsIn(cache.history, symbol) ==
                     LastOf(PointsIn(old(cache.history), symbol) + [Point(old(state)[symbol], time)],
                            MAX_HISTORY_PER_SYMBOL)
                && symbol in cache.latest && cache.latest[symbol] == old(state)[symbol]
    {
      var todo := state.Keys;
      while todo != {}
        invariant todo <= state.Keys == old(state).Keys
        invariant forall symbol :: symbol in todo ==> state[symbol] == old(state)[symbol]
        invariant forall symbol :: symbol in todo || symbol !in state ==>
                    PointsIn(cache.history, symbol) == PointsIn(old(cache.history), symbol)
        invariant forall symbol :: symbol in state && symbol !in todo ==>
                    && state[symbol] == Hear(old(state)[symbol], Tick.Flush(time))
                    && PointsIn(cache.history, symbol) ==
                         LastOf(PointsIn(old(cache.history), symbol) + [Point(old(state)[symbol], time)],
                                MAX_HISTORY_PER_SYMBOL)
                    && symbol in cache.latest && cache.latest[symbol] == old(state)[symbol]
        decreases todo
      {
        var symbol :| symbol in todo;
        var s := state[symbol];
        cache.SetLatestOrderFlowSnapshot(symbol, s);
        cache.AppendOrderFlowHistory(symbol, s, time);
        state := state[symbol := s.(buyVolume := 0.0, sellVolume := 0.0, tradeCount := 0)];
        todo := todo - {symbol};
      }
    }
  }
}
