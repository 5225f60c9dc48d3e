// When a call that ends rejected has clicked all the same: the entry that was reported
// as rejected while its position stood on the account.

module RejectedClicks {
  import opened Options
  import opened OrderTicket
  import opened ObedientPage
  import opened Characters
  import opened TicketBroker
  import C = PromiseChain

  // An entry that is placed as a market order and whose position is then polled for.
  predicate IsMarketEntry(r: Request) {
    && r.PlaceOrder? && !r.orderType.LimitOrder?
    && r.quantity > 0 && r.hasReferencePrice && GetInstrument(r.symbol).Some?
  }

  // ----- What stands behind a click -------------------------------------------------------

  // Along every path of `p`, a click is followed at once by a status that is not a
  // rejection or, in a market entry, by the polls; and nothing else leads to polls.
  ghost predicate Straight(r: Request, p: Program)
    decreases p
  {
    match p
    case Return(_) => true
    case Throw => true
    case Ask(next) => Straight(r, next)
    case Scan(_, _, next) => Straight(r, next)
    case Branch(_, yes, no) => Straight(r, yes) && Straight(r, no)
    case Write(_, next) => Straight(r, next)
    case Verify(_, next) => Straight(r, next)
    case ReadPosition(next) => Straight(r, next)
    case IdleCheck(next) => Straight(r, next)
    case Click(_, next) => (next.Return? && !next.result.Rejected?) || (next.Confirm? && IsMarketEntry(r))
    case Confirm(_) => false
  }

  lemma SwitchIsStraight(r: Request, prefix: string, next: Program)
    requires Straight(r, next)
    ensures Straight(r, SwitchContract(prefix, next))
  {
    var verified := Verify(OnContract(prefix), next);
    assert Straight(r, Ask(Write(Contract, verified)));
    assert Straight(r, Write(Contract, Write(Contract, Ask(Write(Contract, verified)))));
  }

  lemma SetOrderTypeIsStraight(r: Request, wanted: string, next: Program)
    requires Straight(r, next)
    ensures Straight(r, SetOrderType(wanted, next))
  {
    var verified := Verify(OfType(wanted), next);
    assert Straight(r, Ask(Write(OrderTypeField, verified)));
  }

  lemma SetQuantityIsStraight(r: Request, quantity: nat, next: Program)
    requires Straight(r, next)
    ensures Straight(r, SetQuantity(quantity, next))
  {
    var digits := Decimal(quantity);
    var verified := Verify(BoxReads(digits), Verify(ButtonMentions(digits), next));
    assert Straight(r, verified);
    assert Straight(r, Write(Quantity, Write(Quantity, verified)));
  }

  lemma SubmitIsStraight(r: Request, button: Button, dryRun: bool, next: Program)
    requires (next.Return? && !next.result.Rejected?) || (next.Confirm? && IsMarketEntry(r))
    ensures Straight(r, Submit(button, dryRun, next))
  {
    assert Straight(r, Ask(Return(Rejected)));
    assert Straight(r, Click(button, next));
  }

  lemma OnTicketIsStraight(r: Request, body: Program)
    requires GetInstrument(r.symbol).Some? ==> Straight(r, body)
    ensures Straight(r, OnTicket(r.symbol, body))
  {
    assert Straight(r, Ask(Return(Rejected)));
    if GetInstrument(r.symbol).Some? {
      var scan := Scan(0, GetInstrument(r.symbol).value.prefix, body);
      assert Straight(r, Ask(scan));
    }
  }

  lemma ActionIsStraight(r: Request, dryRun: bool)
    ensures Straight(r, ActionOf(r, dryRun))
  {
    var button, tick := ButtonFor(r), TickOf(r.symbol);
    match r
    case PlaceOrder(symbol, _, orderType, quantity, limitPrice, hasReference) =>
      if quantity > 0 && hasReference && (orderType.LimitOrder? ==> limitPrice.Some?) {
        if orderType.LimitOrder? {
          var submit := Submit(button, dryRun, Return(Pending));
          SubmitIsStraight(r, button, dryRun, Return(Pending));
          PricedIsStraight(r, limitPrice.value, quantity, submit);
          var priced := SetLimitPrice(limitPrice.value, tick, SetQuantity(quantity, submit));
          OnTicketIsStraight(r, SetOrderType("Limit", priced));
        } else {
          if GetInstrument(symbol).Some? {
            SubmitIsStraight(r, button, dryRun, Confirm(CONFIRM_ATTEMPTS - 1));
          }
          SizedIsStraight(r, quantity, Submit(button, dryRun, Confirm(CONFIRM_ATTEMPTS - 1)));
        }
      }
    case Flatten(_, _, quantity) =>
      if quantity > 0 {
        SubmitIsStraight(r, button, dryRun, Return(Filled));
        SizedIsStraight(r, quantity, Submit(button, dryRun, Return(Filled)));
      }
    case TrailingStop(_, _, quantity, ticks) =>
      if quantity > 0 {
        var sized := SetQuantity(quantity, Submit(button, dryRun, Return(Pending)));
        SubmitIsStraight(r, button, dryRun, Return(Pending));
        SetQuantityIsStraight(r, quantity, Submit(button, dryRun, Return(Pending)));
        var verified := Verify(TrailReads(ticks as real), sized);
        assert Straight(r, verified);
        assert Straight(r, SetTrailDistance(ticks, sized));
        SetOrderTypeIsStraight(r, "Trailing Stop", SetTrailDistance(ticks, sized));
        OnTicketIsStraight(r, ReadPosition(SetOrderType("Trailing Stop", SetTrailDistance(ticks, sized))));
      }
    case TakeProfit(_, _, quantity, target) =>
      if quantity > 0 {
        var submit := Submit(button, dryRun, Return(Pending));
        SubmitIsStraight(r, button, dryRun, Return(Pending));
        PricedIsStraight(r, target, quantity, submit);
        var priced := SetLimitPrice(target, tick, SetQuantity(quantity, submit));
        OnTicketIsStraight(r, ReadPosition(SetOrderType("Limit", priced)));
      }
    case ClosePosition(_) =>
      SubmitIsStraight(r, button, dryRun, Return(Filled));
      OnTicketIsStraight(r, Submit(button, dryRun, Return(Filled)));
    case CancelResting(_) =>
      SubmitIsStraight(r, button, dryRun, Return(Filled));
      OnTicketIsStraight(r, IdleCheck(Submit(button, dryRun, Return(Filled))));
  }

  lemma SizedIsStraight(r: Request, quantity: nat, submit: Program)
    requires GetInstrument(r.symbol).Some? ==> Straight(r, submit)
    ensures Straight(r, OnTicket(r.symbol, SetOrderType("Market", SetQuantity(quantity, submit))))
  {
    if GetInstrument(r.symbol).Some? {
      SetQuantityIsStraight(r, quantity, submit);
      SetOrderTypeIsStraight(r, "Market", SetQuantity(quantity, submit));
    }
    OnTicketIsStraight(r, SetOrderType("Market", SetQuantity(quantity, submit)));
  }

  lemma PricedIsStraight(r: Request, price: real, quantity: nat, submit: Program)
    requires Straight(r, submit)
    ensures Straight(r, SetOrderType("Limit", SetLimitPrice(price, TickOf(r.symbol), SetQuantity(quantity, submit))))
  {
    var sized := SetQuantity(quantity, submit);
    SetQuantityIsStraight(r, quantity, submit);
    var verified := Verify(PriceNear(price, TickOf(r.symbol)), sized);
    assert Straight(r, verified);
    assert Straight(r, SetLimitPrice(price, TickOf(r.symbol), sized));
    SetOrderTypeIsStraight(r, "Limit", SetLimitPrice(price, TickOf(r.symbol), sized));
  }

  // ----- The awaits that lose a click -------------------------------------------------------

  // A click that reaches the page and rejects.
  predicate LosesClick(a: Action, cards: seq<Card>, reply: Reply) {
    a.program.Click? && a.widget < |cards| && reply.threw && reply.landed
  }

  // The last poll sees no position, or, one having been seen, reading the fill price
  // fails.
  predicate LosesFill(a: Action, reply: Reply) {
    && a.clicked
    && ((a.program == Confirm(0) && reply.flat != Some(false))
        || (a.program == Ask(Return(Filled)) && (reply.threw || reply.refuse)))
  }

  predicate Loses(a: Action, cards: seq<Card>, reply: Reply) {
    LosesClick(a, cards, reply) || LosesFill(a, reply)
  }

  // `lost`: one of its awaits has lost the click.
  ghost predicate Explained(a: Action, lost: bool) {
    if lost then a.clicked && a.program == Return(Rejected)
    else if !a.clicked then Straight(a.request, a.program)
    else
      || (a.program.Return? && !a.program.result.Rejected?)
      || (IsMarketEntry(a.request) && (a.program.Confirm? || a.program == Ask(Return(Filled))))
  }

  lemma ResumeExplains(call: nat, a: Action, cards: seq<Card>, reply: Reply, lost: bool)
    requires Explained(a, lost) && !Ended(a.program)
    ensures !lost
    ensures Explained(Resume(call, a, cards, reply).action, Loses(a, cards, reply))
    ensures LosesFill(a, reply) ==> IsMarketEntry(a.request)
    ensures Resume(call, a, cards, reply).action.request == a.request
  {
    if a.program.Scan? {
      SwitchIsStraight(a.request, a.program.prefix, a.program.next);
    }
  }

  // ----- Over every run ------------------------------------------------------------------------

  // Event `e`, at `s`, loses the click of call `i`.
  predicate LosesAt(s: State, e: Event, i: nat)
    requires Sized(s)
  {
    e.Await? && e.call == i && C.Running(s.chain, i) && Loses(s.actions[i], s.cards, e.reply)
  }

  ghost predicate LostAt(cards: seq<Card>, events: seq<Event>, k: nat, i: nat) {
    k < |events| && LosesAt(Run(cards, events[..k]), events[k], i)
  }

  ghost predicate Lost(cards: seq<Card>, events: seq<Event>, i: nat) {
    exists k: nat :: LostAt(cards, events, k, i)
  }

  lemma LostStep(cards: seq<Card>, front: seq<Event>, last: Event, i: nat)
    ensures Lost(cards, front + [last], i) <==> Lost(cards, front, i) || LosesAt(Run(cards, front), last, i)
  {
    var events := front + [last];
    assert events[..|front|] == front;
    assert forall k :: 0 <= k < |front| ==> events[..k] == front[..k];
    if Lost(cards, front, i) {
      var k: nat :| LostAt(cards, front, k, i);
      assert LostAt(cards, events, k, i);
    }
    if LosesAt(Run(cards, front), last, i) {
      assert LostAt(cards, events, |front|, i);
    }
    if Lost(cards, events, i) {
      var k: nat :| LostAt(cards, events, k, i);
      assert k < |front| ==> LostAt(cards, front, k, i);
    }
  }

  lemma StepExplains(s: State, e: Event, i: nat, lost: bool)
    requires Inv(s) && i < |s.actions| && Explained(s.actions[i], lost)
    ensures i < |Step(s, e).actions|
    ensures Explained(Step(s, e).actions[i], lost || LosesAt(s, e, i))
  {
    match e
    case Begin(j, settingsOk, dryRun) =>
      if j == i && C.CanStart(s.chain, i) {
        ActionIsStraight(s.actions[i].request, dryRun);
      }
    case Await(j, reply) =>
      if j == i && C.Running(s.chain, i) && !Ended(s.actions[i].program) {
        ResumeExplains(i, s.actions[i], s.cards, reply, lost);
      }
    case _ =>
  }

  lemma {:induction false} RunExplains(cards: seq<Card>, events: seq<Event>, i: nat)
    requires i < |Run(cards, events).actions|
    ensures Explained(Run(cards, events).actions[i], Lost(cards, events, i))
  {
    var n := |events| - 1;
    var front, last := events[..n], events[n];
    var before := Run(cards, front);
    assert events == front + [last];
    RunKeepsInv(cards, front);
    LostStep(cards, front, last, i);
    if i < |before.actions| {
      RunExplains(cards, front, i);
      StepExplains(before, last, i, Lost(cards, front, i));
    } else {
      NoEarlierAwait(cards, front, i);
    }
  }

  lemma {:induction false} NoEarlierAwait(cards: seq<Card>, events: seq<Event>, i: nat)
    requires i >= |Run(cards, events).actions|
    ensures !Lost(cards, events, i)
  {
    if events != [] {
      var n := |events| - 1;
      assert events == events[..n] + [events[n]];
      LostStep(cards, events[..n], events[n], i);
      NoEarlierAwait(cards, events[..n], i);
    }
  }

  // The call has been reported as rejected, and its order has been clicked.
  predicate RejectedThoughClicked(s: State, i: nat)
    requires Sized(s)
  {
    && i < |s.chain| && s.chain[i].run.Fulfilled?
    && s.actions[i].program == Return(Rejected) && s.actions[i].clicked
  }

  // A call that has been reported is rejected though clicked exactly when one of its
  // awaits lost the click: the click itself rejected after reaching the page, or the
  // last poll saw no position, or reading the fill price failed.
  lemma RejectedThoughClickedIff(cards: seq<Card>, events: seq<Event>, i: nat)
    requires var s := Run(cards, events); i < |s.chain| && s.chain[i].run.Fulfilled?
    ensures RejectedThoughClicked(Run(cards, events), i) <==> Lost(cards, events, i)
  {
    RunKeepsInv(cards, events);
    RunExplains(cards, events, i);
  }

  ghost predicate ClickThrew(cards: seq<Card>, events: seq<Event>, i: nat) {
    exists k: nat :: ClickThrewAt(cards, events, k, i)
  }

  ghost predicate ClickThrewAt(cards: seq<Card>, events: seq<Event>, k: nat, i: nat) {
    && LostAt(cards, events, k, i)
    && LosesClick(Run(cards, events[..k]).actions[i], Run(cards, events[..k]).cards, events[k].reply)
  }

  lemma StepKeepsRequest(s: State, e: Event, i: nat)
    requires Sized(s) && i < |s.actions|
    ensures i < |Step(s, e).actions| && Step(s, e).actions[i].request == s.actions[i].request
  {
    if e.Await? && e.call == i && C.Running(s.chain, i) {
      ResumeKeepsRequest(i, s.actions[i], s.cards, e.reply);
    }
  }

  lemma ResumeKeepsRequest(call: nat, a: Action, cards: seq<Card>, reply: Reply)
    ensures Resume(call, a, cards, reply).action.request == a.request
  {
  }

  // Unless the click itself threw, only a market entry can lose it.
  lemma {:induction false} OnlyMarketEntriesLoseFills(cards: seq<Card>, events: seq<Event>, i: nat)
    requires Lost(cards, events, i) && !ClickThrew(cards, events, i)
    ensures i < |Run(cards, events).actions| && IsMarketEntry(Run(cards, events).actions[i].request)
  {
    var k: nat :| LostAt(cards, events, k, i);
    var n := |events| - 1;
    var front, last := events[..n], events[n];
    assert events == front + [last];
    var before := Run(cards, front);
    assert !ClickThrewAt(cards, events, n, i);
    LostStep(cards, front, last, i);
    if LosesAt(before, last, i) {
      RunKeepsInv(cards, front);
      RunExplains(cards, front, i);
      ResumeExplains(i, before.actions[i], before.cards, last.reply, Lost(cards, front, i));
    } else {
      forall j: nat
        ensures !ClickThrewAt(cards, front, j, i)
      {
        assert j < n ==> front[..j] == events[..j];
        assert !ClickThrewAt(cards, events, j, i);
      }
      OnlyMarketEntriesLoseFills(cards, front, i);
    }
    StepKeepsRequest(before, last, i);
  }

  // In every interleaving, a call rejected though clicked is a market entry, or its
  // click reached the page and rejected.
  lemma RejectedMeansUnclicked(cards: seq<Card>, events: seq<Event>, i: nat)
    requires RejectedThoughClicked(Run(cards, events), i) && !ClickThrew(cards, events, i)
    ensures IsMarketEntry(Run(cards, events).actions[i].request)
  {
    RejectedThoughClickedIff(cards, events, i);
    OnlyMarketEntriesLoseFills(cards, events, i);
  }

  // ----- Runs in which it happens ------------------------------------------------------------

  function Entered(r: Request): seq<Event> {
    [Invoke(r)] + [Begin(0, true, false)]
  }

  function Awaits(reply: Reply, n: nat): seq<Event> {
    seq(n, i => Await(0, reply))
  }

  lemma RunOfMore(cards: seq<Card>, events: seq<Event>, e: Event)
    ensures Run(cards, events + [e]) == Step(Run(cards, events), e)
  {
    assert (events + [e])[..|events|] == events;
  }

  // The broker after its only call has been through the awaits of `e`.
  predicate IsAt(s: State, e: Effect) {
    s.chain == [C.Link(true, C.Pending, C.Pending)] && s.actions == [e.action] && s.cards == e.cards
  }

  lemma EnteredRun(r: Request, card: Card)
    ensures IsAt(Run([card], Entered(r)), Effect(FirstStep(r), [card], None))
  {
    RunOfMore([card], [], Invoke(r));
    assert [] + [Invoke(r)] == [Invoke(r)];
    RunOfMore([card], [Invoke(r)], Begin(0, true, false));
  }

  lemma {:induction false} RunRepeats(r: Request, card: Card, reply: Reply, n: nat)
    ensures IsAt(Run([card], Entered(r) + Awaits(reply, n)), Repeat(0, FirstStep(r), [card], reply, n))
  {
    if n == 0 {
      EnteredRun(r, card);
      assert Entered(r) + Awaits(reply, 0) == Entered(r);
    } else {
      RunRepeats(r, card, reply, n - 1);
      var front := Entered(r) + Awaits(reply, n - 1);
      assert Entered(r) + Awaits(reply, n) == front + [Await(0, reply)];
      RunOfMore([card], front, Await(0, reply));
    }
  }

  lemma PollMisses(call: nat, a: Action, cards: seq<Card>, reply: Reply)
    requires a.program.Confirm? && reply.flat.None?
    ensures var e := Resume(call, a, cards, reply);
            && e.action.clicked == a.clicked
            && e.action.program ==
                 if a.program.attemptsLeft == 0 then Return(Rejected) else Confirm(a.program.attemptsLeft - 1)
  {
  }

  predicate IsPolling(e: Effect, left: nat) {
    e.action.program == Confirm(left) && e.action.clicked
  }

  lemma OnePollMisses(call: nat, start: Action, card: Card, n: nat, left: nat)
    requires IsPolling(Repeat(call, start, [card], Calm(card), n), left)
    ensures var e := Repeat(call, start, [card], Calm(card), n + 1);
            if left > 0 then IsPolling(e, left - 1) else e.action.program == Return(Rejected) && e.action.clicked
  {
    var e := Repeat(call, start, [card], Calm(card), n);
    PollMisses(call, e.action, e.cards, Calm(card));
  }

  // Clicked, and no poll sees the position.
  lemma PollsSeeNothing(call: nat, start: Action, card: Card, n: nat)
    requires IsPolling(Repeat(call, start, [card], Calm(card), n), CONFIRM_ATTEMPTS - 1)
    ensures var e := Repeat(call, start, [card], Calm(card), n + CONFIRM_ATTEMPTS);
            e.action.program == Return(Rejected) && e.action.clicked
  {
    OnePollMisses(call, start, card, n, 3);
    OnePollMisses(call, start, card, n + 1, 2);
    OnePollMisses(call, start, card, n + 2, 1);
    OnePollMisses(call, start, card, n + 3, 0);
  }

  // The page for a market entry.
  function MarketCard(r: Request): Card
    requires IsMarketEntry(r)
  {
    var digits := Decimal(r.quantity);
    Card(GetInstrument(r.symbol).value.prefix + "Z26", "Market", digits, digits, None)
  }

  lemma MarketCardObeys(r: Request)
    requires IsMarketEntry(r)
    ensures IsWellFormed(r) && Obeys(MarketCard(r), MarketCard(r), r)
  {
    var card, prefix := MarketCard(r), GetInstrument(r.symbol).value.prefix;
    assert card.contract[..|prefix|] == prefix;
    assert forall i :: 0 <= i < |prefix| ==> card.contract[i] == prefix[i];
    MentionsItself(Decimal(r.quantity));
  }

  lemma MentionsItself(digits: string)
    requires IsNumber(digits)
    ensures DigitsOf(digits) == digits && MentionsExactly(digits, digits)
  {
    assert "" + digits + "" == digits;
    MentionsInParts("", digits, "", digits);
  }

  // Nothing throws, and no poll sees the position: every market entry can be rejected
  // though clicked.
  lemma MarketEntryCanBeLost(r: Request) returns (n: nat)
    requires IsMarketEntry(r)
    ensures var card := MarketCard(r);
            var s := Run([card], Entered(r) + Awaits(Calm(card), n) + [End(0)]);
            RejectedThoughClicked(s, 0) && s.actions[0].request == r
  {
    var card := MarketCard(r);
    MarketCardObeys(r);
    var clicked := SuitableCardIsClicked(0, r, card);
    PollsSeeNothing(0, FirstStep(r), card, clicked);
    n := clicked + CONFIRM_ATTEMPTS;
    RunRepeats(r, card, Calm(card), n);
    RunOfMore([card], Entered(r) + Awaits(Calm(card), n), End(0));
    RunKeepsRequest(r, card, card, n);
    RejectionIsReported(Run([card], Entered(r) + Awaits(Calm(card), n)),
                        Repeat(0, FirstStep(r), [card], Calm(card), n));
  }

  lemma RejectionIsReported(s: State, e: Effect)
    requires IsAt(s, e) && e.action.program == Return(Rejected) && e.action.clicked
    ensures RejectedThoughClicked(Step(s, End(0)), 0) && Step(s, End(0)).actions[0].request == e.action.request
  {
  }

  lemma {:induction false} RunKeepsRequest(r: Request, card: Card, goal: Card, n: nat)
    ensures Repeat(0, FirstStep(r), [card], Calm(goal), n).action.request == r
  {
    if n > 0 {
      RunKeepsRequest(r, card, goal, n - 1);
      var e := Repeat(0, FirstStep(r), [card], Calm(goal), n - 1);
      ResumeKeepsRequest(0, e.action, e.cards, Calm(goal));
    }
  }

  lemma ThrownClickIsLost(s: State, e: Effect, reply: Reply)
    requires IsAt(s, e) && e.action.program.Click? && e.action.widget < |e.cards| && reply.threw && reply.landed
    ensures var t := Step(Step(s, Await(0, reply)), End(0));
            RejectedThoughClicked(t, 0) && t.actions[0].request == e.action.request
  {
    var effect := Resume(0, e.action, e.cards, reply);
    assert effect.action.program == Return(Rejected) && effect.action.clicked;
    assert Step(s, Await(0, reply)).actions == [effect.action];
  }

  // The other case, open to every request: its click reaches the page and rejects.
  lemma ThrownClickCanBeLost(r: Request, card: Card, goal: Card) returns (n: nat)
    requires IsWellFormed(r) && Obeys(card, goal, r)
    ensures var thrown := Await(0, Calm(goal).(threw := true, landed := true));
            var s := Run([card], Entered(r) + Awaits(Calm(goal), n) + [thrown] + [End(0)]);
            RejectedThoughClicked(s, 0) && s.actions[0].request == r
  {
    ActionArrives(r, card, goal);
    n := Arrive(ActionOf(r, false), card, goal).value.awaits;
    ArrivesThere(0, FirstStep(r), card, goal);
    var thrown := Await(0, Calm(goal).(threw := true, landed := true));
    var front := Entered(r) + Awaits(Calm(goal), n);
    RunRepeats(r, card, Calm(goal), n);
    RunKeepsRequest(r, card, goal, n);
    RunOfMore([card], front, thrown);
    RunOfMore([card], front + [thrown], End(0));
    ThrownClickIsLost(Run([card], front), Repeat(0, FirstStep(r), [card], Calm(goal), n), thrown.reply);
  }

  // No click that throws reaches the page.
  predicate Gentle(events: seq<Event>) {
    forall k :: 0 <= k < |events| && events[k].Await? ==> !(events[k].reply.threw && events[k].reply.landed)
  }

  ghost predicate CanBeLost(r: Request) {
    exists cards, events, i: nat ::
      Gentle(events) && RejectedThoughClicked(Run(cards, events), i) && Run(cards, events).actions[i].request == r
  }

  // Where no click that throws reaches the page, a request can be rejected though
  // clicked exactly when it is a market entry.
  lemma CanBeLostIff(r: Request)
    ensures CanBeLost(r) <==> IsMarketEntry(r)
  {
    if CanBeLost(r) {
      var cards, events, i: nat :|
        Gentle(events) && RejectedThoughClicked(Run(cards, events), i) && Run(cards, events).actions[i].request == r;
      assert !ClickThrew(cards, events, i);
      RejectedMeansUnclicked(cards, events, i);
    }
    if IsMarketEntry(r) {
      var n := MarketEntryCanBeLost(r);
      assert Gentle(Entered(r) + Awaits(Calm(MarketCard(r)), n) + [End(0)]);
    }
  }
}
