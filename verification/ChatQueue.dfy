// The assistant's chat queue: `sendChatMessage` chains every call onto one
// promise, and one call's turn writes several AssistantMessage rows, possibly
// falling back from Ollama to Gemini half-way. Model replies, tool outcomes and
// database failures are arbitrary.

module ChatQueue {
  import opened Options
  import C = PromiseChain

  datatype Provider = Ollama | Gemini

  datatype RowKind = UserText | Reply | ToolResults

  // One AssistantMessage row. `call` and `provider` say who wrote it.
  datatype Row = Row(call: nat, provider: Provider, kind: RowKind)

  const MAX_TOOL_ITERATIONS: nat := 10

  // Where a turn is suspended, at iteration `k` of its tool loop.
  datatype Point =
    | AtHistory                       // loading the conversation
    | AtUserRow                       // storing the user's text
    | AtGate(k: nat)                  // reading the system state
    | AtModel(k: nat)                 // generateContent / Ollama chat, retries included
    | AtReplyRow(k: nat, calls: bool) // storing the model's reply
    | AtTools(k: nat)                 // running its tool calls
    | AtToolRow(k: nat)               // storing their results

  datatype Turn = Waiting | Suspended(provider: Provider, at: Point) | Returned | Failed

  datatype Answer = Answer(
    threw: bool,
    stored: bool,       // with `threw`: the row reached the table although its create() rejected
    calls: bool,        // the reply asks for tool calls
    geminiKey: bool     // GEMINI_API_KEY is configured
  )

  // sendChatMessageWithFallback's catch block.
  function OnThrow(p: Provider, geminiKey: bool): Turn {
    if p.Ollama? && geminiKey then Suspended(Gemini, AtHistory) else Failed
  }

  function RowAt(at: Point): Option<RowKind> {
    match at
    case AtUserRow => Some(UserText)
    case AtReplyRow(_, _) => Some(Reply)
    case AtToolRow(_) => Some(ToolResults)
    case _ => None
  }

  function Next(p: Provider, at: Point, calls: bool): Turn {
    match at
    case AtHistory => Suspended(p, AtUserRow)
    case AtUserRow => Suspended(p, AtGate(0))
    case AtGate(k) => Suspended(p, AtModel(k))
    case AtModel(k) => Suspended(p, AtReplyRow(k, calls))
    case AtReplyRow(k, c) => if c then Suspended(p, AtTools(k)) else Returned
    case AtTools(k) => Suspended(p, AtToolRow(k))
    case AtToolRow(k) => if k + 1 < MAX_TOOL_ITERATIONS then Suspended(p, AtGate(k + 1)) else Returned
  }

  datatype State = State(chain: C.Chain, turns: seq<Turn>, rows: seq<Row>)

  datatype Event =
    | Send                                                   // sendChatMessage is called
    | Begin(call: nat, settingsOk: bool, provider: Provider) // the queue reaches it
    | Await(call: nat, answer: Answer)
    | End(call: nat)
    | Settle(call: nat)

  const INIT := State([], [], [])

  function Resume(s: State, i: nat, answer: Answer): State
    requires i < |s.turns| && s.turns[i].Suspended?
  {
    var (p, at) := (s.turns[i].provider, s.turns[i].at);
    var storing := RowAt(at).Some? && (answer.stored || !answer.threw);
    var rows := if storing then s.rows + [Row(i, p, RowAt(at).value)] else s.rows;
    var next := if answer.threw then OnThrow(p, answer.geminiKey) else Next(p, at, answer.calls);
    s.(rows := rows, turns := s.turns[i := next])
  }

  function Step(s: State, e: Event): (t: State)
    requires |s.turns| == |s.chain|
    ensures |t.turns| == |t.chain|
  {
    match e
    case Send => s.(chain := C.Call(s.chain), turns := s.turns + [Waiting])
    case Begin(i, settingsOk, provider) =>
      if !C.CanStart(s.chain, i) then s
      else
        var started := C.Start(s.chain, i, false);
        if !started[i].started then s.(chain := started)
        else s.(chain := started, turns := s.turns[i := if settingsOk then Suspended(provider, AtHistory) else Failed])
    case Await(i, answer) =>
      if C.Running(s.chain, i) && s.turns[i].Suspended? then Resume(s, i, answer) else s
    case End(i) =>
      if C.Running(s.chain, i) && (s.turns[i].Returned? || s.turns[i].Failed?)
      then s.(chain := C.Finish(s.chain, i, s.turns[i].Returned?)) else s
    case Settle(i) =>
      if C.CanSettle(s.chain, i) then s.(chain := C.Settle(s.chain, i)) else s
  }

  // ----- One turn, left alone -----------------------------------------------------------

  predicate IsAt(s: State, i: nat, t: Turn) {
    i < |s.turns| && s.turns[i] == t
  }

  // What the model replied, when nothing fails.
  function Fine(calls: bool): Answer {
    Answer(false, true, calls, false)
  }

  // A turn begins by loading the history, if the settings can be read, ...
  lemma TurnOpens(s: State, i: nat, settingsOk: bool, provider: Provider)
    requires |s.turns| == |s.chain| && C.Ordered(s.chain) && C.CanStart(s.chain, i)
    ensures IsAt(Step(s, Begin(i, settingsOk, provider)), i, if settingsOk then Suspended(provider, AtHistory)
        else Failed)
  {
    C.StartKeepsOrder(s.chain, i, false);
  }

  // ... stores the user's text, ...
  lemma TurnStoresText(s: State, i: nat, p: Provider)
    requires IsAt(s, i, Suspended(p, AtHistory))
    ensures var t := Resume(Resume(s, i, Fine(false)), i, Fine(false));
            IsAt(t, i, Suspended(p, AtGate(0))) && t.rows == s.rows + [Row(i, p, UserText)]
  {
  }

  // ... and takes round after round: a reply without tool calls is stored and ends it, one
  // with tool calls is stored with their results and goes on, ten times at the most.
  lemma TurnTakesRound(s: State, i: nat, p: Provider, k: nat, calls: bool)
    requires IsAt(s, i, Suspended(p, AtGate(k)))
    ensures var replied := Resume(Resume(Resume(s, i, Fine(calls)), i, Fine(calls)), i, Fine(calls));
            if !calls then IsAt(replied, i, Returned) && replied.rows == s.rows + [Row(i, p, Reply)]
            else
              && IsAt(replied, i, Suspended(p, AtTools(k)))
              && var t := Resume(Resume(replied, i, Fine(calls)), i, Fine(calls));
                 && t.rows == s.rows + [Row(i, p, Reply)] + [Row(i, p, ToolResults)]
                 && IsAt(t, i, if k + 1 < 10 then Suspended(p, AtGate(k + 1)) else Returned)
  {
    var asked := Resume(s, i, Fine(calls));
    var told := Resume(asked, i, Fine(calls));
    assert told.turns[i] == Suspended(p, AtReplyRow(k, calls));
    var replied := Resume(told, i, Fine(calls));
    if calls {
      var ran := Resume(replied, i, Fine(calls));
      assert ran.turns[i] == Suspended(p, AtToolRow(k));
    }
  }

  // The rows of one call form one block, and blocks come in call order.
  ghost predicate InBlocks(rows: seq<Row>) {
    forall a, b :: 0 <= a < b < |rows| ==> rows[a].call <= rows[b].call
  }

  // Inside a block: at most an Ollama part and then a Gemini part, each opening
  // with the user's text, a reply directly after text or tool results, and tool
  // results directly after the reply that asked for them.
  ghost predicate WellPaired(rows: seq<Row>) {
    && (forall a, b :: 0 <= a < b < |rows| && rows[a].call == rows[b].call ==>
          && (rows[a].provider.Gemini? ==> rows[b].provider.Gemini?)
          && (rows[a].provider == rows[b].provider ==> !rows[b].kind.UserText?))
    && (forall a :: 0 <= a < |rows| ==> FollowsItsCause(rows, a))
  }

  ghost predicate FollowsItsCause(rows: seq<Row>, a: nat)
    requires a < |rows|
  {
    !rows[a].kind.UserText? ==>
      && a > 0
      && rows[a - 1].call == rows[a].call
      && rows[a - 1].provider == rows[a].provider
      && (rows[a].kind.Reply? <==> !rows[a - 1].kind.Reply?)
  }

  // What the table ends with while call `i` is suspended at `at`.
  ghost predicate EndsFor(rows: seq<Row>, i: nat, p: Provider, at: Point) {
    match at
    case AtHistory => true
    case AtUserRow => true
    case AtTools(_) => |rows| > 0 && rows[|rows| - 1] == Row(i, p, Reply)
    case AtToolRow(_) => |rows| > 0 && rows[|rows| - 1] == Row(i, p, Reply)
    case _ => |rows| > 0 && rows[|rows| - 1] in {Row(i, p, UserText), Row(i, p, ToolResults)}
  }

  ghost predicate Fresh(rows: seq<Row>, i: nat, p: Provider) {
    forall a :: 0 <= a < |rows| && rows[a].call == i ==> rows[a].provider != p
  }

  ghost predicate InTurn(rows: seq<Row>, i: nat, t: Turn) {
    t.Suspended? ==>
      && EndsFor(rows, i, t.provider, t.at)
      && (t.provider.Ollama? ==> Fresh(rows, i, Gemini))
      && (t.at.AtHistory? || t.at.AtUserRow? ==> Fresh(rows, i, t.provider))
  }

  ghost predicate Inv(s: State) {
    && |s.turns| == |s.chain|
    && C.Ordered(s.chain)
    && InBlocks(s.rows) && WellPaired(s.rows)
    && (forall a :: 0 <= a < |s.rows| ==> s.rows[a].call < |s.chain| && s.chain[s.rows[a].call].started)
    && (forall i :: 0 <= i < |s.chain| && C.Running(s.chain, i) ==>
        !s.turns[i].Waiting? && InTurn(s.rows, i, s.turns[i]))
  }

  lemma BeginKeepsInv(s: State, i: nat, settingsOk: bool, provider: Provider)
    requires Inv(s) && C.CanStart(s.chain, i)
    ensures Inv(Step(s, Begin(i, settingsOk, provider)))
  {
    C.StartKeepsOrder(s.chain, i, false);
    var t := Step(s, Begin(i, settingsOk, provider));
    assert !s.chain[i].started;
    forall j | 0 <= j < |t.chain| && C.Running(t.chain, j)
      ensures j == i
    {
      C.OneRunning(t.chain, j, i);
      C.OneRunning(t.chain, i, j);
    }
  }

  lemma RowsReachOnlyRunningCall(s: State, i: nat)
    requires Inv(s) && C.Running(s.chain, i)
    ensures forall a :: 0 <= a < |s.rows| ==> s.rows[a].call <= i
  {
    forall a | 0 <= a < |s.rows|
      ensures s.rows[a].call <= i
    {
      C.OneRunning(s.chain, i, s.rows[a].call);
    }
  }

  // The row a suspended call is about to store fits behind the table as it stands.
  lemma StoredRowFits(rows: seq<Row>, i: nat, t: Turn)
    requires InBlocks(rows) && WellPaired(rows)
    requires forall a :: 0 <= a < |rows| ==> rows[a].call <= i
    requires t.Suspended? && InTurn(rows, i, t) && RowAt(t.at).Some?
    ensures var more := rows + [Row(i, t.provider, RowAt(t.at).value)];
            InBlocks(more) && WellPaired(more)
  {
    var row := Row(i, t.provider, RowAt(t.at).value);
    var more := rows + [row];
    forall a | 0 <= a < |rows| && rows[a].call == i
      ensures rows[a].provider.Gemini? ==> row.provider.Gemini?
      ensures rows[a].provider == row.provider ==> !row.kind.UserText?
    {
    }
    forall a | 0 <= a < |more|
      ensures FollowsItsCause(more, a)
    {
      assert a < |rows| ==> FollowsItsCause(rows, a);
    }
  }

  lemma NextKeepsTurn(rows: seq<Row>, i: nat, t: Turn, calls: bool)
    requires t.Suspended? && InTurn(rows, i, t)
    ensures var more := if RowAt(t.at).Some? then rows + [Row(i, t.provider, RowAt(t.at).value)] else rows;
            InTurn(more, i, Next(t.provider, t.at, calls))
  {
  }

  lemma ThrowKeepsTurn(rows: seq<Row>, i: nat, t: Turn, geminiKey: bool, stored: bool)
    requires t.Suspended? && InTurn(rows, i, t)
    ensures var more := if RowAt(t.at).Some? && stored then rows + [Row(i, t.provider, RowAt(t.at).value)] else rows;
            InTurn(more, i, OnThrow(t.provider, geminiKey))
  {
  }

  lemma AwaitKeepsInv(s: State, i: nat, answer: Answer)
    requires Inv(s) && C.Running(s.chain, i) && s.turns[i].Suspended?
    ensures Inv(Resume(s, i, answer))
  {
    RowsReachOnlyRunningCall(s, i);
    var t := Resume(s, i, answer);
    if RowAt(s.turns[i].at).Some? {
      StoredRowFits(s.rows, i, s.turns[i]);
    }
    if answer.threw {
      ThrowKeepsTurn(s.rows, i, s.turns[i], answer.geminiKey, answer.stored);
    } else {
      NextKeepsTurn(s.rows, i, s.turns[i], answer.calls);
    }
    forall j | 0 <= j < |t.chain| && C.Running(t.chain, j)
      ensures j == i
    {
      C.OneRunning(s.chain, j, i);
      C.OneRunning(s.chain, i, j);
    }
  }

  lemma StepKeepsInv(s: State, e: Event)
    requires Inv(s)
    ensures Inv(Step(s, e))
  {
    match e
    case Send => C.CallKeepsOrder(s.chain);
    case Begin(i, settingsOk, provider) => if C.CanStart(s.chain, i) { BeginKeepsInv(s, i, settingsOk, provider); }
    case Await(i, answer) => if C.Running(s.chain, i) && s.turns[i].Suspended? { AwaitKeepsInv(s, i, answer); }
    case End(i) => if C.Running(s.chain, i) { C.FinishKeepsOrder(s.chain, i, s.turns[i].Returned?); }
    case Settle(i) => if C.CanSettle(s.chain, i) { C.SettleKeepsOrder(s.chain, i); }
  }

  function Run(events: seq<Event>): (s: State)
    ensures |s.turns| == |s.chain|
  {
    if events == [] then INIT else Step(Run(events[..|events| - 1]), events[|events| - 1])
  }

  lemma {:induction false} RunKeepsInv(events: seq<Event>)
    ensures Inv(Run(events))
  {
    if events != [] {
      RunKeepsInv(events[..|events| - 1]);
      StepKeepsInv(Run(events[..|events| - 1]), events[|events| - 1]);
    }
  }

  // In every interleaving of chat calls, however they fail or fall back, the
  // table is a sequence of whole blocks in call order, each well formed.
  lemma RowsFormBlocks(events: seq<Event>)
    ensures var rows := Run(events).rows; InBlocks(rows) && WellPaired(rows)
  {
    RunKeepsInv(events);
  }

  // The block of a call lies between any two of its rows.
  lemma BlocksAreContiguous(events: seq<Event>, a: nat, m: nat, b: nat)
    requires var rows := Run(events).rows; a <= m <= b < |rows| && rows[a].call == rows[b].call
    ensures var rows := Run(events).rows; rows[m].call == rows[a].call
  {
    RowsFormBlocks(events);
  }

  // ----- Nothing stalls ---------------------------------------------------------

  function PointWork(p: Provider, at: Point): nat {
    (if p.Ollama? then 70 else 0) +
    match at
    case AtHistory => 60
    case AtUserRow => 59
    case AtGate(k) => if k < 10 then 5 * (10 - k) + 8 else 8
    case AtModel(k) => if k < 10 then 5 * (10 - k) + 7 else 7
    case AtReplyRow(k, _) => if k < 10 then 5 * (10 - k) + 6 else 6
    case AtTools(k) => if k < 10 then 5 * (10 - k) + 5 else 5
    case AtToolRow(k) => if k < 10 then 5 * (10 - k) + 4 else 4
  }

  function TurnWork(t: Turn): nat {
    match t
    case Waiting => 200
    case Suspended(p, at) => PointWork(p, at)
    case Returned => 0
    case Failed => 0
  }

  function LinkWork(s: State, i: nat): nat
    requires i < |s.chain| == |s.turns|
  {
    if !s.chain[i].tail.Pending? then 0
    else if !s.chain[i].run.Pending? then 1
    else if s.chain[i].started then 2 + TurnWork(s.turns[i])
    else 300
  }

  predicate Enabled(s: State, e: Event)
    requires |s.turns| == |s.chain|
  {
    match e
    case Send => false
    case Begin(i, _, _) => C.CanStart(s.chain, i)
    case Await(i, _) => C.Running(s.chain, i) && s.turns[i].Suspended?
    case End(i) => C.Running(s.chain, i) && !s.turns[i].Suspended?
    case Settle(i) => C.CanSettle(s.chain, i)
  }

  // Every possible event is progress for its own call and touches no other ...
  lemma EnabledEventsAreProgress(s: State, e: Event)
    requires Inv(s) && Enabled(s, e)
    ensures |Step(s, e).turns| == |Step(s, e).chain| == |s.chain|
    ensures LinkWork(Step(s, e), e.call) < LinkWork(s, e.call)
    ensures forall j :: 0 <= j < |s.chain| && j != e.call ==> LinkWork(Step(s, e), j) == LinkWork(s, j)
  {
    if e.Begin? {
      C.StartKeepsOrder(s.chain, e.call, false);
    }
  }

  // ... and an unsettled call is never out of reach of one, whatever became of the
  // calls before it.
  lemma RejectedCallsNeverBlock(s: State, n: nat, answer: Answer)
    requires Inv(s) && n < |s.chain| && s.chain[n].tail.Pending?
    ensures exists e :: Enabled(s, e) && e.call <= n
  {
    C.NeverWedged(s.chain, n);
    var i: nat :| i <= n && (C.CanStart(s.chain, i) || C.Running(s.chain, i) || C.CanSettle(s.chain, i));
    if C.CanStart(s.chain, i) {
      assert Enabled(s, Begin(i, true, Gemini));
    } else if C.CanSettle(s.chain, i) {
      assert Enabled(s, Settle(i));
    } else if s.turns[i].Suspended? {
      assert Enabled(s, Await(i, answer));
    } else {
      assert Enabled(s, End(i));
    }
  }

  // ----- The module's queue ----------------------------------------------------------

  class ChatService {
    var chatQueue: C.Chain
    var turns: seq<Turn>
    var rows: seq<Row>    // the AssistantMessage table

    function Value(): State
      reads this
    {
      State(chatQueue, turns, rows)
    }

    ghost predicate Valid()
      reads this
    {
      Inv(Value())
    }

    constructor ()
      ensures Valid() && Value() == INIT
    {
      chatQueue, turns, rows := [], [], [];
    }

    method SendChatMessage() returns (call: nat)
      requires Valid()
      modifies `chatQueue, `turns
      ensures Valid() && Value() == Step(old(Value()), Send)
      ensures call == |old(chatQueue)|
    {
      StepKeepsInv(Value(), Send);
      call := |chatQueue|;
      chatQueue := chatQueue + [C.FRESH_LINK];
      turns := turns + [Waiting];
    }

    // The `then` handler of call `call`, up to its first await.
    method EnterCall(call: nat, settingsOk: bool, provider: Provider)
      requires Valid() && C.CanStart(chatQueue, call)
      modifies `chatQueue, `turns
      ensures Valid() && Value() == Step(old(Value()), Begin(call, settingsOk, provider))
      ensures C.Running(chatQueue, call)
    {
      StepKeepsInv(Value(), Begin(call, settingsOk, provider));
      C.StartKeepsOrder(chatQueue, call, false);
      chatQueue := chatQueue[call := chatQueue[call].(started := true)];
      turns := turns[call := if settingsOk then Suspended(provider, AtHistory) else Failed];
    }

    // One await of the running turn settles. A stored row goes behind all others.
    method ResolveAwait(call: nat, answer: Answer)
      requires Valid() && C.Running(chatQueue, call) && turns[call].Suspended?
      modifies `turns, `rows
      ensures Valid() && Value() == Step(old(Value()), Await(call, answer))
      ensures old(rows) <= rows
      ensures forall a :: |old(rows)| <= a < |rows| ==> rows[a].call == call
    {
      StepKeepsInv(Value(), Await(call, answer));
      var provider, at := turns[call].provider, turns[call].at;
      if RowAt(at).Some? && (answer.stored || !answer.threw) {
        rows := rows + [Row(call, provider, RowAt(at).value)];
      }
      if answer.threw {
        turns := turns[call := if provider.Ollama? && answer.geminiKey then Suspended(Gemini, AtHistory) else Failed];
      } else {
        turns := turns[call := Next(provider, at, answer.calls)];
      }
    }

    method EndCall(call: nat)
      requires Valid() && C.Running(chatQueue, call) && (turns[call].Returned? || turns[call].Failed?)
      modifies `chatQueue
      ensures Valid() && Value() == Step(old(Value()), End(call))
    {
      StepKeepsInv(Value(), End(call));
      var run := if turns[call].Returned? then C.Fulfilled else C.Rejected;
      chatQueue := chatQueue[call := chatQueue[call].(run := run)];
    }

    // `result.catch(() => undefined)`
    method SettleCall(call: nat)
      requires Valid() && C.CanSettle(chatQueue, call)
      modifies `chatQueue
      ensures Valid() && Value() == Step(old(Value()), Settle(call))
      ensures call + 1 < |chatQueue| ==> C.CanStart(chatQueue, call + 1)
    {
      StepKeepsInv(Value(), Settle(call));
      chatQueue := chatQueue[call := chatQueue[call].(tail := C.Fulfilled)];
      if call + 1 < |chatQueue| {
        assert !old(chatQueue)[call + 1].started;
      }
    }
  }
}
