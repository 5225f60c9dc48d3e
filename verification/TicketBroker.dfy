// BrowserControlBroker: every public order method runs its ticket action through
// one promise chain. The system below interleaves calls, promise reactions and
// single awaits in any order.

module TicketBroker {
  import opened Options
  import opened OrderTicket
  import opened Characters
  import C = PromiseChain

  datatype State = State(
    chain: C.Chain,
    actions: seq<Action>,
    cards: seq<Card>,
    clicks: seq<ClickRecord>    // Buy/Sell/Close/Cancel clicks that reached the page, oldest first
  )

  datatype Event =
    | Invoke(request: Request)                              // a public method is called
    | Begin(call: nat, settingsOk: bool, dryRun: bool)      // the chain reaches it; getSettings may throw
    | Await(call: nat, reply: Reply)                        // its pending await resolves
    | End(call: nat)                                        // its async function returns or throws
    | Settle(call: nat)                                     // its catch() settles

  function Init(cards: seq<Card>): State {
    State([], [], cards, [])
  }

  function NewAction(r: Request): Action {
    Action(r, Throw, 0, {}, None, false, false)
  }

  // Events that are not possible in `s` leave it unchanged.
  function Step(s: State, e: Event): (t: State)
    requires |s.actions| == |s.chain|
    ensures |t.actions| == |t.chain|
  {
    match e
    case Invoke(r) => s.(chain := C.Call(s.chain), actions := s.actions + [NewAction(r)])
    case Begin(i, settingsOk, dryRun) =>
      if !C.CanStart(s.chain, i) then s
      else
        var started := C.Start(s.chain, i, true);
        if !started[i].started || !settingsOk then s.(chain := started)
        else
          var entered := s.actions[i].(program := ActionOf(s.actions[i].request, dryRun));
          s.(chain := started, actions := s.actions[i := entered])
    case Await(i, reply) =>
      if !C.Running(s.chain, i) || Ended(s.actions[i].program) then s
      else
        var effect := Resume(i, s.actions[i], s.cards, reply);
        s.(actions := s.actions[i := effect.action],
           cards := effect.cards,
           clicks := if effect.click.Some? then s.clicks + [effect.click.value] else s.clicks)
    case End(i) =>
      if !C.Running(s.chain, i) || !Ended(s.actions[i].program) then s
      else s.(chain := C.Finish(s.chain, i, s.actions[i].program.Return?))
    case Settle(i) =>
      if !C.CanSettle(s.chain, i) then s else s.(chain := C.Settle(s.chain, i))
  }

  // Every reading a returned status rests on was made by this call.
  ghost predicate HonestReturn(a: Action) {
    a.program.Return? ==>
      && (Clicked in ReturnNeeds(a.request, a.program.result) ==> a.clicked)
      && (PositionSeen in ReturnNeeds(a.request, a.program.result) ==> a.seen)
  }

  ghost predicate ClicksGood(s: State)
    requires |s.actions| == |s.chain|
  {
    && (forall k :: 0 <= k < |s.clicks| ==> GoodClick(s.clicks[k]))
    && (forall k :: 0 <= k < |s.clicks| ==>
          && s.clicks[k].call < |s.chain|
          && s.chain[s.clicks[k].call].started
          && s.actions[s.clicks[k].call].clicked
          && s.actions[s.clicks[k].call].request == s.clicks[k].request)
    && (forall k, l :: 0 <= k < l < |s.clicks| ==> s.clicks[k].call < s.clicks[l].call)
  }

  ghost predicate ActionsGood(s: State)
    requires |s.actions| == |s.chain|
  {
    && (forall i :: 0 <= i < |s.chain| && !s.chain[i].started ==> s.actions[i] == NewAction(s.actions[i].request))
    && (forall i :: 0 <= i < |s.chain| && C.Running(s.chain, i) ==> OnTrack(s.actions[i], s.cards))
    && (forall i :: 0 <= i < |s.chain| && s.chain[i].run.Fulfilled? ==> s.actions[i].program.Return?)
    && (forall i :: 0 <= i < |s.chain| && !s.chain[i].run.Pending? ==> HonestReturn(s.actions[i]))
  }

  ghost predicate Inv(s: State) {
    && |s.actions| == |s.chain|
    && C.Ordered(s.chain)
    && ActionsGood(s)
    && ClicksGood(s)
  }

  lemma BeginKeepsInv(s: State, i: nat, settingsOk: bool, dryRun: bool)
    requires Inv(s) && C.CanStart(s.chain, i)
    ensures Inv(Step(s, Begin(i, settingsOk, dryRun)))
  {
    C.StartKeepsOrder(s.chain, i, true);
    ActionSound(s.actions[i].request, dryRun);
    var t := Step(s, Begin(i, settingsOk, dryRun));
    assert OnTrack(t.actions[i], t.cards);
    forall j | 0 <= j < |t.chain| && C.Running(t.chain, j)
      ensures OnTrack(t.actions[j], t.cards)
    {
      C.OneRunning(t.chain, j, i);
    }
  }

  lemma AwaitKeepsInv(s: State, i: nat, reply: Reply)
    requires Inv(s) && C.Running(s.chain, i)
    ensures Inv(Step(s, Await(i, reply)))
    ensures |Step(s, Await(i, reply)).cards| == |s.cards|
  {
    var t := Step(s, Await(i, reply));
    if !Ended(s.actions[i].program) {
      ResumeKeepsTrack(i, s.actions[i], s.cards, reply);
      forall j | 0 <= j < |t.chain| && C.Running(t.chain, j)
        ensures OnTrack(t.actions[j], t.cards)
      {
        C.OneRunning(s.chain, i, j);
      }
      forall k | 0 <= k < |s.clicks|
        ensures s.clicks[k].call <= i
      {
        C.OneRunning(s.chain, i, s.clicks[k].call);
      }
    }
  }

  lemma EndKeepsInv(s: State, i: nat)
    requires Inv(s) && C.Running(s.chain, i)
    ensures Inv(Step(s, End(i)))
  {
    var a := s.actions[i];
    if Ended(a.program) {
      C.FinishKeepsOrder(s.chain, i, a.program.Return?);
      if a.program.Return? {
        assert forall f :: f in ReturnNeeds(a.request, a.program.result) ==> Holds(f, a, s.cards);
      }
    }
  }

  lemma StepKeepsInv(s: State, e: Event)
    requires Inv(s)
    ensures Inv(Step(s, e))
    ensures |Step(s, e).cards| == |s.cards|
  {
    match e
    case Invoke(r) =>
      C.CallKeepsOrder(s.chain);
    case Begin(i, settingsOk, dryRun) =>
      if C.CanStart(s.chain, i) { BeginKeepsInv(s, i, settingsOk, dryRun); }
    case Await(i, reply) =>
      if C.Running(s.chain, i) { AwaitKeepsInv(s, i, reply); }
    case End(i) =>
      if C.Running(s.chain, i) { EndKeepsInv(s, i); }
    case Settle(i) =>
      if C.CanSettle(s.chain, i) { C.SettleKeepsOrder(s.chain, i); }
  }

  predicate Sized(s: State) {
    |s.actions| == |s.chain|
  }

  function Run(cards: seq<Card>, events: seq<Event>): (s: State)
    ensures Sized(s)
  {
    if events == [] then Init(cards) else Step(Run(cards, events[..|events| - 1]), events[|events| - 1])
  }

  lemma {:induction false} RunKeepsInv(cards: seq<Card>, events: seq<Event>)
    ensures Inv(Run(cards, events))
    ensures |Run(cards, events).cards| == |cards|
  {
    if events != [] {
      RunKeepsInv(cards, events[..|events| - 1]);
      StepKeepsInv(Run(cards, events[..|events| - 1]), events[|events| - 1]);
    }
  }

  // ----- Over every interleaving -------------------------------------------------------

  // At most one ticket action is between its start and its end, and actions are
  // entered in call order, each after the previous one has ended - however it ended.
  lemma TicketActionsTakeTurns(cards: seq<Card>, events: seq<Event>, i: nat, j: nat)
    requires var s := Run(cards, events); i < j < |s.chain| && s.chain[j].started
    ensures var s := Run(cards, events); s.chain[i].started && !s.chain[i].run.Pending?
  {
    RunKeepsInv(cards, events);
    assert Run(cards, events).chain[i].tail.Fulfilled?;
  }

  // Every click that reached the page found the ticket on its own request's
  // contract, order type and quantity (price within half a tick, trail distance
  // exact), pressed that request's button, and was the only click of its call;
  // clicks come in call order.
  lemma EveryClickIsItsOwn(cards: seq<Card>, events: seq<Event>)
    ensures var s := Run(cards, events);
            && |s.actions| == |s.chain|
            && (forall k :: 0 <= k < |s.clicks| ==>
                  && GoodClick(s.clicks[k])
                  && s.clicks[k].call < |s.actions|
                  && s.actions[s.clicks[k].call].request == s.clicks[k].request)
            && (forall k, l :: 0 <= k < l < |s.clicks| ==> s.clicks[k].call < s.clicks[l].call)
  {
    RunKeepsInv(cards, events);
  }

  // Every click that types a quantity finds exactly it in the box, and on the button
  // too where the rest of the button's text has no digits, as on market and trailing
  // stop orders.
  lemma ClicksShowTheirQuantity(cards: seq<Card>, events: seq<Event>, k: nat, before: string, shown: string,
                                after: string)
    requires k < |Run(cards, events).clicks|
    requires var c := Run(cards, events).clicks[k];
             QuantityOf(c.request).Some? && c.card.buttonText == before + shown + after
    requires Frames(before, after) && IsNumber(shown)
    ensures var c := Run(cards, events).clicks[k];
            var digits := Decimal(QuantityOf(c.request).value);
            && DigitsOf(c.card.qtyBox) == digits
            && (shown == digits || MentionsExactly(before, digits) || MentionsExactly(after, digits))
            && ((forall i :: 0 <= i < |before| ==> !IsDigit(before[i]))
                && (forall i :: 0 <= i < |after| ==> !IsDigit(after[i]))
                ==> shown == digits)
  {
    RunKeepsInv(cards, events);
    var c := Run(cards, events).clicks[k];
    var digits := Decimal(QuantityOf(c.request).value);
    GoodClickQuantity(c, before, shown, after);
    if (forall i :: 0 <= i < |before| ==> !IsDigit(before[i]))
        && (forall i :: 0 <= i < |after| ==> !IsDigit(after[i])) {
      NoDigitsNoMention(before, digits);
      NoDigitsNoMention(after, digits);
    }
  }

  // An entry's click is of its requested type exactly when that is market or limit:
  // stop and trailing-stop requests are clicked as market orders.
  lemma EntriesAreOfTheirTypeIff(cards: seq<Card>, events: seq<Event>, k: nat)
    requires k < |Run(cards, events).clicks| && Run(cards, events).clicks[k].request.PlaceOrder?
    ensures var c := Run(cards, events).clicks[k];
            c.card.orderType == LabelOf(c.request.orderType)
            <==> c.request.orderType.MarketOrder? || c.request.orderType.LimitOrder?
  {
    RunKeepsInv(cards, events);
    EntryClickTypeIff(Run(cards, events).clicks[k]);
  }

  // Entries press the button of their side; what leaves a long position sells, what
  // leaves a short one buys.
  lemma ClicksTakeTheRightSide(cards: seq<Card>, events: seq<Event>, k: nat)
    requires k < |Run(cards, events).clicks|
    ensures var c := Run(cards, events).clicks[k];
            match c.request
            case PlaceOrder(_, buy, _, _, _, _) => c.button == if buy then Buy else Sell
            case Flatten(_, long, _) => c.button == if long then Sell else Buy
            case TrailingStop(_, long, _, _) => c.button == if long then Sell else Buy
            case TakeProfit(_, long, _, _) => c.button == if long then Sell else Buy
            case ClosePosition(_) => c.button == Close
            case CancelResting(_) => c.button == CancelOrders
  {
    RunKeepsInv(cards, events);
    assert GoodClick(Run(cards, events).clicks[k]);
  }

  // The limit price a request types, if it types one.
  function PriceOf(r: Request): Option<real> {
    match r
    case PlaceOrder(_, _, orderType, _, limitPrice, _) => if orderType.LimitOrder? then limitPrice else None
    case TakeProfit(_, _, _, target) => Some(target)
    case _ => None
  }

  // Every click that types a price finds the button showing one no further from it than
  // half a tick of its instrument.
  lemma ClicksShowTheirPrice(cards: seq<Card>, events: seq<Event>, k: nat)
    requires k < |Run(cards, events).clicks| && PriceOf(Run(cards, events).clicks[k].request).Some?
    ensures var c := Run(cards, events).clicks[k];
            var shown := ButtonPrice(c.card.buttonText);
            var off := if shown.Some? then shown.value - PriceOf(c.request).value else 0.0;
            && shown.Some?
            && (c.request.symbol in {"ES", "NQ"} ==> -0.125 <= off <= 0.125)
            && (c.request.symbol == "CL" ==> -0.005 <= off <= 0.005)
            && (c.request.symbol == "GC" ==> -0.05 <= off <= 0.05)
  {
    RunKeepsInv(cards, events);
    var c := Run(cards, events).clicks[k];
    var near := PriceNear(PriceOf(c.request).value, TickOf(c.request.symbol));
    assert GoodClick(c) && near in ClickNeeds(c.request);
    assert CardShows(c.card, near);
  }

  // No protective order is clicked on a position read as flat or on the other side, and
  // no take-profit at a price that would lose.
  lemma ProtectiveClicksProtect(cards: seq<Card>, events: seq<Event>, k: nat)
    requires k < |Run(cards, events).clicks|
    requires Run(cards, events).clicks[k].request.TrailingStop? || Run(cards, events).clicks[k].request.TakeProfit?
    ensures var c := Run(cards, events).clicks[k];
            && c.position.Some?
            && (c.position.value.Unreadable?
                || (c.position.value.Open? && c.position.value.long == c.request.long
                    && (c.request.TakeProfit? ==>
                          Gain(c.request.long, c.position.value.averagePrice, c.request.target) > 0.0)))
  {
    RunKeepsInv(cards, events);
    var c := Run(cards, events).clicks[k];
    assert GoodClick(c) && NotRefused in ClickNeeds(c.request);
    if !c.position.value.Unreadable? {
      RefusedIff(c.request, c.position.value);
    }
  }

  // The 2026-10-06 failure: no click for one instrument lands while the ticket
  // shows any other instrument's contract.
  lemma NoClickOnAnotherContract(cards: seq<Card>, events: seq<Event>, k: nat, other: string)
    requires var s := Run(cards, events); k < |s.clicks| && s.clicks[k].request.symbol != other
    requires GetInstrument(Run(cards, events).clicks[k].request.symbol).Some?
    requires GetInstrument(other).Some?
    ensures !StartsWithIgnoringCase(Run(cards, events).clicks[k].card.contract, GetInstrument(other).value.prefix)
  {
    RunKeepsInv(cards, events);
    var c := Run(cards, events).clicks[k];
    assert GoodClick(c);
    var on := OnContract(GetInstrument(c.request.symbol).value.prefix);
    assert on in ClickNeeds(c.request);
    if StartsWithIgnoringCase(c.card.contract, GetInstrument(other).value.prefix) {
      ContractNamesOneInstrument(c.card.contract, c.request.symbol, other);
    }
  }

  // A call that resolved reports `filled` for a market entry only after its own
  // click and its own sight of a position; every other non-rejected status rests
  // on its own click, an idle cancel apart.
  lemma StatusesAreHonest(cards: seq<Card>, events: seq<Event>, i: nat)
    requires var s := Run(cards, events); i < |s.chain| && s.chain[i].run.Fulfilled?
    ensures var s := Run(cards, events); i < |s.actions| && s.actions[i].program.Return?
    ensures var a := Run(cards, events).actions[i];
            && (a.request.PlaceOrder? && a.program.result.Filled? ==> a.clicked && a.seen)
            && (!a.program.result.Rejected? && !a.request.CancelResting? ==> a.clicked)
  {
    RunKeepsInv(cards, events);
    assert HonestReturn(Run(cards, events).actions[i]);
  }

  // ----- Nothing stalls ------------------------------------------------------------------

  function LinkWork(s: State, i: nat): nat
    requires i < |s.chain| == |s.actions|
  {
    var (l, a, n) := (s.chain[i], s.actions[i], |s.cards|);
    if !l.tail.Pending? then 0
    else if !l.run.Pending? then 1
    else if l.started then 2 + AwaitsLeft(a.program, n)
    else 3 + AwaitsLeft(ActionOf(a.request, true), n) + AwaitsLeft(ActionOf(a.request, false), n)
  }

  // Events left before every call so far has settled, counting from call `from`.
  function Work(s: State, from: nat): nat
    requires from <= |s.chain| == |s.actions|
    decreases |s.chain| - from
  {
    if from == |s.chain| then 0 else LinkWork(s, from) + Work(s, from + 1)
  }

  predicate Enabled(s: State, e: Event)
    requires |s.actions| == |s.chain|
  {
    match e
    case Invoke(_) => false
    case Begin(i, _, _) => C.CanStart(s.chain, i)
    case Await(i, _) => C.Running(s.chain, i) && !Ended(s.actions[i].program)
    case End(i) => C.Running(s.chain, i) && Ended(s.actions[i].program)
    case Settle(i) => C.CanSettle(s.chain, i)
  }

  lemma {:induction false} WorkShrinks(s: State, t: State, i: nat, from: nat)
    requires |s.chain| == |s.actions| == |t.chain| == |t.actions|
    requires from <= |s.chain| && i < |s.chain|
    requires LinkWork(t, i) < LinkWork(s, i)
    requires forall j :: 0 <= j < |s.chain| && j != i ==> LinkWork(t, j) == LinkWork(s, j)
    ensures if from <= i then Work(t, from) < Work(s, from) else Work(t, from) == Work(s, from)
    decreases |s.chain| - from
  {
    if from < |s.chain| {
      WorkShrinks(s, t, i, from + 1);
    }
  }

  // Whatever the page answers, every possible event brings the calls made so far
  // closer to being settled ...
  lemma EnabledEventsShrinkWork(s: State, e: Event)
    requires Inv(s) && Enabled(s, e)
    ensures |Step(s, e).actions| == |Step(s, e).chain| == |s.chain|
    ensures Work(Step(s, e), 0) < Work(s, 0)
  {
    StepKeepsInv(s, e);
    match e
    case Begin(i, settingsOk, dryRun) => BeginShrinksWork(s, i, settingsOk, dryRun);
    case Await(i, reply) => AwaitShrinksWork(s, i, reply);
    case End(i) => WorkShrinks(s, Step(s, e), i, 0);
    case Settle(i) => WorkShrinks(s, Step(s, e), i, 0);
  }

  lemma BeginShrinksWork(s: State, i: nat, settingsOk: bool, dryRun: bool)
    requires Inv(s) && C.CanStart(s.chain, i)
    ensures var t := Step(s, Begin(i, settingsOk, dryRun)); |t.chain| == |s.chain| && Work(t, 0) < Work(s, 0)
  {
    C.StartKeepsOrder(s.chain, i, true);
    WorkShrinks(s, Step(s, Begin(i, settingsOk, dryRun)), i, 0);
  }

  lemma AwaitShrinksWork(s: State, i: nat, reply: Reply)
    requires Inv(s) && C.Running(s.chain, i) && !Ended(s.actions[i].program)
    ensures var t := Step(s, Await(i, reply)); |t.chain| == |s.chain| && Work(t, 0) < Work(s, 0)
  {
    AwaitKeepsInv(s, i, reply);
    ResumeShortens(i, s.actions[i], s.cards, reply);
    WorkShrinks(s, Step(s, Await(i, reply)), i, 0);
  }

  // ... and while one is unsettled some event is possible: a failed, refused or
  // throwing action never blocks the calls behind it.
  lemma UnsettledCallsCanMove(s: State, n: nat, reply: Reply)
    requires Inv(s) && n < |s.chain| && s.chain[n].tail.Pending?
    ensures exists e :: Enabled(s, e)
  {
    C.NeverWedged(s.chain, n);
    var i: nat :| i <= n && (C.CanStart(s.chain, i) || C.Running(s.chain, i) || C.CanSettle(s.chain, i));
    if C.CanStart(s.chain, i) {
      assert Enabled(s, Begin(i, true, true));
    } else if C.CanSettle(s.chain, i) {
      assert Enabled(s, Settle(i));
    } else if Ended(s.actions[i].program) {
      assert Enabled(s, End(i));
    } else {
      assert Enabled(s, Await(i, reply));
    }
  }

  // ----- The broker object -----------------------------------------------------------------

  class BrowserControlBroker {
    var ticketChain: C.Chain
    var actions: seq<Action>
    var cards: seq<Card>
    var clicks: seq<ClickRecord>

    function Value(): State
      reads this
    {
      State(ticketChain, actions, cards, clicks)
    }

    ghost predicate Valid()
      reads this
    {
      Inv(Value())
    }

    constructor (page: seq<Card>)
      ensures Valid() && Value() == Init(page)
    {
      ticketChain, actions, cards, clicks := [], [], page, [];
    }

    // placeOrder, flattenPosition, placeTrailingStop, placeTakeProfitOrder,
    // requestClosePosition and cancelRestingOrder are all this call.
    method WithTicket(request: Request) returns (call: nat)
      requires Valid()
      modifies this`ticketChain, this`actions
      ensures Valid() && Value() == Step(old(Value()), Invoke(request))
      ensures call == |old(ticketChain)| && actions[call].request == request
      ensures forall i :: 0 <= i < call ==> ticketChain[i] == old(ticketChain)[i] && actions[i] == old(actions)[i]
    {
      StepKeepsInv(Value(), Invoke(request));
      call := |ticketChain|;
      ticketChain := ticketChain + [C.FRESH_LINK];
      actions := actions + [NewAction(request)];
    }

    method EnterAction(call: nat, settingsOk: bool, dryRun: bool)
      requires Valid() && C.CanStart(ticketChain, call)
      modifies this`ticketChain, this`actions
      ensures Valid() && Value() == Step(old(Value()), Begin(call, settingsOk, dryRun))
      ensures C.Running(ticketChain, call)
      ensures forall i :: 0 <= i < |ticketChain| && C.Running(ticketChain, i) ==> i == call
    {
      StepKeepsInv(Value(), Begin(call, settingsOk, dryRun));
      C.StartKeepsOrder(ticketChain, call, true);
      ticketChain := ticketChain[call := ticketChain[call].(started := true)];
      if settingsOk {
        actions := actions[call := actions[call].(program := ActionOf(actions[call].request, dryRun))];
      }
      forall i | 0 <= i < |ticketChain| && C.Running(ticketChain, i)
        ensures i == call
      {
        C.OneRunning(ticketChain, i, call);
        C.OneRunning(ticketChain, call, i);
      }
    }

    method ResolveAwait(call: nat, reply: Reply)
      requires Valid() && C.Running(ticketChain, call) && !Ended(actions[call].program)
      modifies this`actions, this`cards, this`clicks
      ensures Valid() && Value() == Step(old(Value()), Await(call, reply))
      ensures |clicks| > |old(clicks)| ==>
                && |clicks| == |old(clicks)| + 1
                && GoodClick(clicks[|clicks| - 1]) && clicks[|clicks| - 1].call == call
      ensures clicks[..|old(clicks)|] == old(clicks)
    {
      StepKeepsInv(Value(), Await(call, reply));
      ResumeKeepsTrack(call, actions[call], cards, reply);
      Resolve(call, reply);
    }

    // The action's own try block turns a throw into a rejection.
    method Reject(call: nat)
      requires call < |actions|
      modifies this`actions
      ensures actions == old(actions)[call := old(actions)[call].(program := Return(Rejected))]
    {
      actions := actions[call := actions[call].(program := Return(Rejected))];
    }

    // The code between this await and the next one.
    method Resolve(call: nat, reply: Reply)
      requires call < |actions|
      modifies this`actions, this`cards, this`clicks
      ensures var effect := Resume(call, old(actions)[call], old(cards), reply);
              && actions == old(actions)[call := effect.action]
              && cards == effect.cards
              && clicks == if effect.click.Some? then old(clicks) + [effect.click.value] else old(clicks)
    {
      var a := actions[call];
      match a.program
      case Return(_) =>
      case Throw =>
      case Scan(_, _, _) => ScanCard(call, reply);
      case Confirm(left) =>
        if reply.flat == Some(false) {
          var known := a.known + {PositionSeen};
          actions := actions[call := a.(seen := true, known := known, program := Ask(Return(Filled)))];
        } else if left == 0 {
          Reject(call);
        } else {
          actions := actions[call := a.(program := Confirm(left - 1))];
        }
      case IdleCheck(next) =>
        actions := actions[call := a.(program := if reply.refuse && !reply.threw then Return(Filled) else next)];
      case Ask(next) =>
        if reply.threw || reply.refuse { Reject(call); return; }
        actions := actions[call := a.(program := next)];
      case ReadPosition(next) =>
        var refused := reply.threw || Refused(a.request, reply.position);
        var known := if refused then a.known - {NotRefused} else a.known + {NotRefused};
        var after := if refused then Return(Rejected) else next;
        actions := actions[call := a.(position := Some(reply.position), known := known, program := after)];
      case _ =>
        if a.widget >= |cards| { Reject(call); return; }
        UseCard(call, reply);
    }

    // findOrderWidget at one card, then switchContract on the first.
    method ScanCard(call: nat, reply: Reply)
      requires call < |actions| && actions[call].program.Scan?
      modifies this`actions
      ensures actions == old(actions)[call := ScanStep(call, old(actions)[call], cards, reply).action]
    {
      var a := actions[call];
      var p := a.program;
      var kept := set f | f in a.known && !OnCard(f);
      if p.card < |cards| {
        if !reply.threw && MatchesContractPattern(cards[p.card].contract, p.prefix) {
          actions := actions[call := a.(widget := p.card, program := p.next, known := kept + {OnContract(p.prefix)})];
        } else {
          actions := actions[call := a.(program := p.(card := p.card + 1))];
        }
      } else if reply.threw || |cards| == 0 {
        Reject(call);
      } else {
        actions := actions[call := a.(widget := 0, known := kept, program := SwitchContract(p.prefix, p.next))];
      }
    }

    // One read, write or click on the action's own card.
    method UseCard(call: nat, reply: Reply)
      requires call < |actions| && actions[call].widget < |cards|
      requires var p := actions[call].program; p.Branch? || p.Write? || p.Verify? || p.Click?
      modifies this`actions, this`cards, this`clicks
      ensures var effect := CardStep(call, old(actions)[call], old(cards), reply);
              && actions == old(actions)[call := effect.action]
              && cards == effect.cards
              && clicks == if effect.click.Some? then old(clicks) + [effect.click.value] else old(clicks)
    {
      var a := actions[call];
      match a.program
      case Branch(f, yes, no) =>
        if reply.threw {
          Reject(call);
        } else if OnCard(f) && CardShows(cards[a.widget], f) {
          actions := actions[call := a.(program := yes, known := a.known + {f})];
        } else {
          actions := actions[call := a.(program := no)];
        }
      case Write(field, next) =>
        cards := cards[a.widget := Disturb(field, cards[a.widget], reply.card)];
        var after := if reply.threw then Return(Rejected) else next;
        actions := actions[call := a.(program := after, known := Learn(a.known, field))];
      case Verify(f, next) =>
        if reply.threw || !(OnCard(f) && CardShows(cards[a.widget], f)) { Reject(call); return; }
        actions := actions[call := a.(program := next, known := a.known + {f})];
      case Click(button, next) =>
        if reply.threw && !reply.landed { Reject(call); return; }
        clicks := clicks + [ClickRecord(call, a.request, button, cards[a.widget], a.position)];
        actions := actions[call := a.(program := if reply.threw then Return(Rejected) else next,
                                      known := a.known + {Clicked}, clicked := true)];
    }

    // The action's async function returns or throws: `run` settles with it.
    method EndAction(call: nat)
      requires Valid() && C.Running(ticketChain, call) && Ended(actions[call].program)
      modifies this`ticketChain
      ensures Valid() && Value() == Step(old(Value()), End(call))
      ensures forall i :: 0 <= i < |ticketChain| ==> !C.Running(ticketChain, i)
    {
      StepKeepsInv(Value(), End(call));
      forall i | 0 <= i < |ticketChain| && C.Running(ticketChain, i)
        ensures i == call
      {
        C.OneRunning(ticketChain, i, call);
        C.OneRunning(ticketChain, call, i);
      }
      var run := if actions[call].program.Return? then C.Fulfilled else C.Rejected;
      ticketChain := ticketChain[call := ticketChain[call].(run := run)];
    }

    // `run.catch(() => undefined)`: the next call may begin, whatever became of this one.
    method SettleCall(call: nat)
      requires Valid() && C.CanSettle(ticketChain, call)
      modifies this`ticketChain
      ensures Valid() && Value() == Step(old(Value()), Settle(call))
      ensures call + 1 < |ticketChain| ==> C.CanStart(ticketChain, call + 1)
    {
      StepKeepsInv(Value(), Settle(call));
      ticketChain := ticketChain[call := ticketChain[call].(tail := C.Fulfilled)];
      if call + 1 < |ticketChain| {
        assert !old(ticketChain)[call + 1].started;
      }
    }
  }
}
