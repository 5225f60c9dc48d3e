// What becomes of a ticket action on a page that does what it is told, and on one whose
// button mentions the quantity in its price.

module ObedientPage {
  import opened Options
  import opened Characters
  import opened OrderTicket

  // `n` awaits in a row, all answered alike; the click is the last await's.
  function Repeat(call: nat, a: Action, cards: seq<Card>, reply: Reply, n: nat): Effect {
    if n == 0 then Effect(a, cards, None)
    else
      var e := Repeat(call, a, cards, reply, n - 1);
      Resume(call, e.action, e.cards, reply)
  }

  // Nothing throws, and every write brings its part of the card to what `goal` shows.
  function Calm(goal: Card): Reply {
    Reply(false, false, false, goal, Unreadable, None)
  }

  function FirstStep(r: Request): Action {
    Action(r, ActionOf(r, false), 0, {}, None, false, false)
  }

  lemma {:induction false} RepeatKeepsTrack(call: nat, a: Action, cards: seq<Card>, reply: Reply, n: nat)
    requires OnTrack(a, cards)
    ensures var e := Repeat(call, a, cards, reply, n);
            && OnTrack(e.action, e.cards) && |e.cards| == |cards| && e.action.request == a.request
            && (e.click.Some? ==>
                  GoodClick(e.click.value) && e.click.value.call == call && e.click.value.request == a.request)
  {
    if n > 0 {
      RepeatKeepsTrack(call, a, cards, reply, n - 1);
      var e := Repeat(call, a, cards, reply, n - 1);
      ResumeKeepsTrack(call, e.action, e.cards, reply);
    }
  }

  // ----- The scan ------------------------------------------------------------------------

  predicate NoneMatches(cards: seq<Card>, prefix: string, from: nat, to: nat)
    requires to <= |cards|
  {
    forall i :: from <= i < to ==> !MatchesContractPattern(cards[i].contract, prefix)
  }

  // The first card on the contract is the one that is used ...
  lemma ScanTakesFirstMatch(call: nat, a: Action, cards: seq<Card>, reply: Reply, passed: nat)
    requires a.program.Scan? && a.program.card + passed < |cards| && !reply.threw
    requires MatchesContractPattern(cards[a.program.card + passed].contract, a.program.prefix)
    requires NoneMatches(cards, a.program.prefix, a.program.card, a.program.card + passed)
    ensures var e := Repeat(call, a, cards, reply, passed + 1);
            e.cards == cards && e.action.widget == a.program.card + passed && e.action.program == a.program.next
  {
    ScanPasses(call, a, cards, reply, passed);
    MatchIsTaken(call, Passed(a, passed), cards, reply);
  }

  lemma MatchIsTaken(call: nat, a: Action, cards: seq<Card>, reply: Reply)
    requires a.program.Scan? && a.program.card < |cards| && !reply.threw
    requires MatchesContractPattern(cards[a.program.card].contract, a.program.prefix)
    ensures var e := Resume(call, a, cards, reply);
            e.cards == cards && e.action.widget == a.program.card && e.action.program == a.program.next
  {
  }

  // ... and when there is none, the first card of all is switched to it.
  lemma ScanSwitchesFirst(call: nat, a: Action, cards: seq<Card>, reply: Reply)
    requires a.program.Scan? && a.program.card <= |cards| && cards != [] && !reply.threw
    requires NoneMatches(cards, a.program.prefix, a.program.card, |cards|)
    ensures var e := Repeat(call, a, cards, reply, |cards| - a.program.card + 1);
            && e.cards == cards && e.action.widget == 0
            && e.action.program == SwitchContract(a.program.prefix, a.program.next)
  {
    ScanPasses(call, a, cards, reply, |cards| - a.program.card);
  }

  // `a`, having passed `n` more cards.
  function Passed(a: Action, n: nat): Action
    requires a.program.Scan?
  {
    a.(program := Scan(a.program.card + n, a.program.prefix, a.program.next))
  }

  lemma {:induction false} ScanPasses(call: nat, a: Action, cards: seq<Card>, reply: Reply, n: nat)
    requires a.program.Scan? && a.program.card + n <= |cards|
    requires NoneMatches(cards, a.program.prefix, a.program.card, a.program.card + n)
    ensures Repeat(call, a, cards, reply, n) == Effect(Passed(a, n), cards, None)
  {
    if n > 0 {
      ScanPasses(call, a, cards, reply, n - 1);
      CardIsPassed(call, a, cards, reply, n - 1);
    }
  }

  lemma CardIsPassed(call: nat, a: Action, cards: seq<Card>, reply: Reply, n: nat)
    requires a.program.Scan? && a.program.card + n < |cards|
    requires !MatchesContractPattern(cards[a.program.card + n].contract, a.program.prefix)
    ensures Resume(call, Passed(a, n), cards, reply) == Effect(Passed(a, n + 1), cards, None)
  {
  }

  // ----- The way to the click --------------------------------------------------------------

  // The click a program arrives at: after how many awaits, and what the card shows then.
  datatype Arrival = Arrival(awaits: nat, card: Card, button: Button, next: Program)

  function Behind(n: nat, a: Option<Arrival>): Option<Arrival> {
    if a.Some? then Some(a.value.(awaits := a.value.awaits + n)) else None
  }

  // From `card`, alone on a page that brings it to `goal` write by write.
  function Arrive(p: Program, card: Card, goal: Card): Option<Arrival>
    decreases p
  {
    match p
    case Ask(next) => Behind(1, Arrive(next, card, goal))
    case Scan(i, prefix, next) =>
      if i != 0 then None
      else if MatchesContractPattern(card.contract, prefix) then Behind(1, Arrive(next, card, goal))
      else if CardShows(card, OnContract(prefix)) then Behind(3, Arrive(next, card, goal))
      else if CardShows(goal, OnContract(prefix)) then Behind(8, Arrive(next, goal, goal))
      else None
    case Branch(f, yes, no) =>
      if !OnCard(f) then None
      else Behind(1, if CardShows(card, f) then Arrive(yes, card, goal) else Arrive(no, card, goal))
    case Write(w, next) => Behind(1, Arrive(next, Disturb(w, card, goal), goal))
    case Verify(f, next) => if OnCard(f) && CardShows(card, f) then Behind(1, Arrive(next, card, goal)) else None
    case ReadPosition(next) => Behind(1, Arrive(next, card, goal))
    case IdleCheck(next) => Behind(1, Arrive(next, card, goal))
    case Click(button, next) => Some(Arrival(0, card, button, next))
    case _ => None
  }

  predicate At(e: Effect, p: Program, card: Card) {
    e.cards == [card] && e.action.widget == 0 && e.action.program == p
  }

  // One await that is neither a scan nor a click.
  lemma OneAwait(call: nat, a: Action, card: Card, goal: Card, p: Program)
    requires At(Effect(a, [card], None), p, card) && Arrive(p, card, goal).Some? && !p.Scan? && !p.Click?
    ensures var e := Resume(call, a, [card], Calm(goal));
            && |e.cards| == 1 && At(e, e.action.program, e.cards[0])
            && Behind(1, Arrive(e.action.program, e.cards[0], goal)) == Arrive(p, card, goal)
            && e.action.program < p
  {
  }

  lemma SwitchArrives(prefix: string, next: Program, card: Card, goal: Card)
    requires CardShows(card, OnContract(prefix)) || CardShows(goal, OnContract(prefix))
    ensures Arrive(SwitchContract(prefix, next), card, goal)
         == if CardShows(card, OnContract(prefix)) then Behind(1, Arrive(next, card, goal))
            else Behind(6, Arrive(next, goal, goal))
  {
    if !CardShows(card, OnContract(prefix)) {
      var verified := Verify(OnContract(prefix), next);
      ShownIsVerified(OnContract(prefix), next, goal, goal);
      WriteArrives(Contract, verified, goal, goal);
      var chosen := Ask(Write(Contract, verified));
      assert Arrive(chosen, goal, goal) == Behind(3, Arrive(next, goal, goal));
      WriteArrives(Contract, chosen, goal, goal);
      WriteArrives(Contract, Write(Contract, chosen), card, goal);
    }
  }

  lemma {:induction false} RepeatFirst(call: nat, a: Action, cards: seq<Card>, reply: Reply, n: nat)
    ensures var first := Resume(call, a, cards, reply);
            var e := Repeat(call, first.action, first.cards, reply, n);
            var f := Repeat(call, a, cards, reply, n + 1);
            f.action == e.action && f.cards == e.cards && (n > 0 ==> f.click == e.click)
  {
    if n > 0 { RepeatFirst(call, a, cards, reply, n - 1); }
  }

  lemma {:induction false} RepeatOn(call: nat, a: Action, cards: seq<Card>, reply: Reply, n: nat, m: nat)
    ensures var first := Repeat(call, a, cards, reply, n);
            var e := Repeat(call, first.action, first.cards, reply, m);
            var f := Repeat(call, a, cards, reply, n + m);
            f.action == e.action && f.cards == e.cards
  {
    if m > 0 { RepeatOn(call, a, cards, reply, n, m - 1); }
  }

  lemma {:induction false} ArrivesThere(call: nat, a: Action, card: Card, goal: Card)
    requires a.widget == 0 && Arrive(a.program, card, goal).Some?
    ensures var v := Arrive(a.program, card, goal).value;
            At(Repeat(call, a, [card], Calm(goal), v.awaits), Click(v.button, v.next), v.card)
    decreases Arrive(a.program, card, goal).value.awaits
  {
    if a.program.Scan? {
      ArrivesFromScan(call, a, card, goal);
    } else if !a.program.Click? {
      var awaits := Arrive(a.program, card, goal).value.awaits;
      OneAwait(call, a, card, goal, a.program);
      var e := Resume(call, a, [card], Calm(goal));
      ArrivesThere(call, e.action, e.cards[0], goal);
      assert e.cards == [e.cards[0]];
      RepeatFirst(call, a, [card], Calm(goal), awaits - 1);
    }
  }

  lemma {:induction false} ArrivesFromScan(call: nat, a: Action, card: Card, goal: Card)
    requires a.widget == 0 && a.program.Scan? && Arrive(a.program, card, goal).Some?
    ensures var v := Arrive(a.program, card, goal).value;
            At(Repeat(call, a, [card], Calm(goal), v.awaits), Click(v.button, v.next), v.card)
    decreases Arrive(a.program, card, goal).value.awaits, 0
  {
    var passed := if MatchesContractPattern(card.contract, a.program.prefix) then 1 else 2;
    ScanHandsOver(call, a, card, goal, passed);
    var e := Repeat(call, a, [card], Calm(goal), passed);
    var left := Arrive(e.action.program, card, goal).value.awaits;
    ArrivesThere(call, e.action, card, goal);
    RepeatOn(call, a, [card], Calm(goal), passed, left);
    assert Arrive(a.program, card, goal).value.awaits == passed + left;
  }

  lemma ScanHandsOver(call: nat, a: Action, card: Card, goal: Card, passed: nat)
    requires a.widget == 0 && a.program.Scan? && Arrive(a.program, card, goal).Some?
    requires passed == if MatchesContractPattern(card.contract, a.program.prefix) then 1 else 2
    ensures var e := Repeat(call, a, [card], Calm(goal), passed);
            && At(e, e.action.program, card)
            && Arrive(a.program, card, goal) == Behind(passed, Arrive(e.action.program, card, goal))
  {
    if passed == 1 {
      ScanTakesFirstMatch(call, a, [card], Calm(goal), 0);
    } else {
      ScanSwitchesFirst(call, a, [card], Calm(goal));
      SwitchArrives(a.program.prefix, a.program.next, card, goal);
    }
  }

  // ----- Every request that can be carried out arrives -----------------------------------------

  // What the source asks of a request before it touches the page.
  predicate IsWellFormed(r: Request) {
    && GetInstrument(r.symbol).Some?
    && match r
       case PlaceOrder(_, _, orderType, quantity, limitPrice, hasReference) =>
         quantity > 0 && hasReference && (orderType.LimitOrder? ==> limitPrice.Some?)
       case Flatten(_, _, quantity) => quantity > 0
       case TrailingStop(_, _, quantity, _) => quantity > 0
       case TakeProfit(_, _, quantity, _) => quantity > 0
       case _ => true
  }

  // `goal` shows what the request needs; and typing a quantity leaves the price on the
  // button alone, so that price must be right from the start where none is typed.
  predicate Obeys(card: Card, goal: Card, r: Request) {
    && (forall f :: f in ClickNeeds(r) && OnCard(f) ==> CardShows(goal, f))
    && (|| r.TakeProfit? || (r.PlaceOrder? && r.orderType.LimitOrder?)
        || ButtonPrice(card.buttonText) == ButtonPrice(goal.buttonText))
  }

  lemma QuantityArrives(quantity: nat, next: Program, card: Card, goal: Card)
    requires CardShows(goal, BoxReads(Decimal(quantity))) && CardShows(goal, ButtonMentions(Decimal(quantity)))
    requires ButtonPrice(card.buttonText) == ButtonPrice(goal.buttonText)
    ensures var typed := card.(qtyBox := goal.qtyBox, buttonText := goal.buttonText);
            Arrive(SetQuantity(quantity, next), card, goal) == Behind(5, Arrive(next, typed, goal))
  {
    TypedArrives(Decimal(quantity), next, card, Disturb(Quantity, card, goal), goal);
  }

  lemma TypedArrives(digits: string, next: Program, card: Card, typed: Card, goal: Card)
    requires Disturb(Quantity, card, goal) == typed == Disturb(Quantity, typed, goal)
    requires CardShows(typed, BoxReads(digits)) && CardShows(typed, ButtonMentions(digits))
    ensures var verified := Verify(BoxReads(digits), Verify(ButtonMentions(digits), next));
            Arrive(Write(Quantity, Write(Quantity, Write(Quantity, verified))), card, goal)
            == Behind(5, Arrive(next, typed, goal))
  {
    var mentioned := Verify(ButtonMentions(digits), next);
    ShownIsVerified(ButtonMentions(digits), next, typed, goal);
    ShownIsVerified(BoxReads(digits), mentioned, typed, goal);
    ThreeWritesArrive(Quantity, Verify(BoxReads(digits), mentioned), card, typed, goal);
  }

  lemma ThreeWritesArrive(w: Field, next: Program, card: Card, written: Card, goal: Card)
    requires Disturb(w, card, goal) == written == Disturb(w, written, goal)
    ensures Arrive(Write(w, Write(w, Write(w, next))), card, goal) == Behind(3, Arrive(next, written, goal))
  {
    WriteArrives(w, next, written, goal);
    WriteArrives(w, Write(w, next), written, goal);
    WriteArrives(w, Write(w, Write(w, next)), card, goal);
  }

  lemma ShownIsVerified(f: Fact, next: Program, card: Card, goal: Card)
    requires OnCard(f) && CardShows(card, f)
    ensures Arrive(Verify(f, next), card, goal) == Behind(1, Arrive(next, card, goal))
  {
  }

  lemma WriteArrives(w: Field, next: Program, card: Card, goal: Card)
    ensures Arrive(Write(w, next), card, goal) == Behind(1, Arrive(next, Disturb(w, card, goal), goal))
  {
  }

  lemma PriceArrives(price: real, tick: real, next: Program, card: Card, goal: Card)
    requires CardShows(goal, PriceNear(price, tick))
    ensures Arrive(SetLimitPrice(price, tick, next), card, goal)
         == Behind(3, Arrive(next, card.(buttonText := goal.buttonText), goal))
  {
    var priced := card.(buttonText := goal.buttonText);
    var verified := Verify(PriceNear(price, tick), next);
    assert Arrive(verified, priced, goal) == Behind(1, Arrive(next, priced, goal));
    assert Arrive(Write(LimitPrice, verified), priced, goal) == Behind(2, Arrive(next, priced, goal));
  }

  lemma TrailArrives(ticks: int, next: Program, card: Card, goal: Card)
    requires CardShows(goal, TrailReads(ticks as real))
    ensures Arrive(SetTrailDistance(ticks, next), card, goal)
         == Behind(3, Arrive(next, card.(trail := goal.trail), goal))
  {
    var trailed := card.(trail := goal.trail);
    var verified := Verify(TrailReads(ticks as real), next);
    assert Arrive(verified, trailed, goal) == Behind(1, Arrive(next, trailed, goal));
    assert Arrive(Write(TrailDistance, verified), trailed, goal) == Behind(2, Arrive(next, trailed, goal));
  }

  // The card after the order type has been set.
  function Retyped(wanted: string, card: Card, goal: Card): Card {
    if card.orderType == wanted then card else goal.(contract := card.contract)
  }

  // Both arrive, at the same click.
  predicate SameClick(a: Option<Arrival>, b: Option<Arrival>) {
    a.Some? && b.Some? && b.value.(awaits := a.value.awaits) == a.value
  }

  lemma OrderTypeArrives(wanted: string, next: Program, card: Card, goal: Card)
    requires CardShows(goal, OfType(wanted)) && Arrive(next, Retyped(wanted, card, goal), goal).Some?
    ensures SameClick(Arrive(SetOrderType(wanted, next), card, goal), Arrive(next, Retyped(wanted, card, goal), goal))
  {
    if card.orderType != wanted {
      var typed := goal.(contract := card.contract);
      var verified := Verify(OfType(wanted), next);
      assert Arrive(Write(OrderTypeField, verified), typed, goal) == Behind(2, Arrive(next, typed, goal));
      assert Arrive(Ask(Write(OrderTypeField, verified)), typed, goal) == Behind(3, Arrive(next, typed, goal));
    }
  }


  lemma OnTicketArrives(r: Request, body: Program, card: Card, goal: Card)
    requires GetInstrument(r.symbol).Some? && CardShows(goal, OnContract(GetInstrument(r.symbol).value.prefix))
    requires Arrive(body, card, goal).Some? && Arrive(body, goal, goal).Some?
    ensures || SameClick(Arrive(OnTicket(r.symbol, body), card, goal), Arrive(body, card, goal))
            || SameClick(Arrive(OnTicket(r.symbol, body), card, goal), Arrive(body, goal, goal))
  {
    var scan := Scan(0, GetInstrument(r.symbol).value.prefix, body);
    assert Arrive(Ask(scan), card, goal) == Behind(1, Arrive(scan, card, goal));
  }

  // What follows the click of a request's action.
  function AfterClick(r: Request): Program {
    match r
    case PlaceOrder(_, _, orderType, _, _, _) =>
      if orderType.LimitOrder? then Return(Pending) else Confirm(CONFIRM_ATTEMPTS - 1)
    case TrailingStop(_, _, _, _) => Return(Pending)
    case TakeProfit(_, _, _, _) => Return(Pending)
    case _ => Return(Filled)
  }

  // What an action does once it has its card.
  function BodyOf(r: Request): Program
    requires IsWellFormed(r)
  {
    var submit := Submit(ButtonFor(r), false, AfterClick(r));
    match r
    case PlaceOrder(symbol, _, orderType, quantity, limitPrice, _) =>
      if orderType.LimitOrder?
      then SetOrderType("Limit", SetLimitPrice(limitPrice.value, TickOf(symbol), SetQuantity(quantity, submit)))
      else SetOrderType("Market", SetQuantity(quantity, submit))
    case Flatten(_, _, quantity) => SetOrderType("Market", SetQuantity(quantity, submit))
    case TrailingStop(_, _, quantity, ticks) =>
      ReadPosition(SetOrderType("Trailing Stop", SetTrailDistance(ticks, SetQuantity(quantity, submit))))
    case TakeProfit(symbol, _, quantity, target) =>
      ReadPosition(SetOrderType("Limit", SetLimitPrice(target, TickOf(symbol), SetQuantity(quantity, submit))))
    case ClosePosition(_) => submit
    case CancelResting(_) => IdleCheck(submit)
  }

  lemma ActionHasBody(r: Request)
    requires IsWellFormed(r)
    ensures ActionOf(r, false) == OnTicket(r.symbol, BodyOf(r))
  {
  }

  lemma SizedArrives(r: Request, quantity: nat, card: Card, goal: Card)
    requires CardShows(goal, BoxReads(Decimal(quantity))) && CardShows(goal, ButtonMentions(Decimal(quantity)))
    requires ButtonPrice(card.buttonText) == ButtonPrice(goal.buttonText)
    ensures var a := Arrive(SetQuantity(quantity, Submit(ButtonFor(r), false, AfterClick(r))), card, goal);
            a.Some? && a.value.button == ButtonFor(r) && a.value.next == AfterClick(r)
  {
    var submit := Submit(ButtonFor(r), false, AfterClick(r));
    QuantityArrives(quantity, submit, card, goal);
    var typed := card.(qtyBox := goal.qtyBox, buttonText := goal.buttonText);
    assert Arrive(submit, typed, goal) == Some(Arrival(1, typed, ButtonFor(r), AfterClick(r)));
  }

  lemma BodyArrives(r: Request, card: Card, goal: Card)
    requires IsWellFormed(r) && Obeys(card, goal, r)
    ensures var a := Arrive(BodyOf(r), card, goal);
            a.Some? && a.value.button == ButtonFor(r) && a.value.next == AfterClick(r)
  {
    match r
    case PlaceOrder(_, _, _, _, _, _) => EntryArrives(r, card, goal);
    case Flatten(_, _, quantity) => MarketArrives(r, quantity, card, goal);
    case TrailingStop(_, _, _, _) => TrailedArrives(r, card, goal);
    case TakeProfit(_, _, _, _) => TakeProfitArrives(r, card, goal);
    case ClosePosition(_) =>
    case CancelResting(_) =>
  }

  lemma EntryArrives(r: Request, card: Card, goal: Card)
    requires r.PlaceOrder? && IsWellFormed(r) && Obeys(card, goal, r)
    ensures var a := Arrive(BodyOf(r), card, goal);
            a.Some? && a.value.button == ButtonFor(r) && a.value.next == AfterClick(r)
  {
    if r.orderType.LimitOrder? {
      PricedArrives(r, r.limitPrice.value, r.quantity, card, goal);
    } else {
      MarketArrives(r, r.quantity, card, goal);
    }
  }

  lemma MarketArrives(r: Request, quantity: nat, card: Card, goal: Card)
    requires OfType("Market") in ClickNeeds(r) && Obeys(card, goal, r)
    requires BoxReads(Decimal(quantity)) in ClickNeeds(r) && ButtonMentions(Decimal(quantity)) in ClickNeeds(r)
    requires ButtonPrice(card.buttonText) == ButtonPrice(goal.buttonText)
    ensures var submit := Submit(ButtonFor(r), false, AfterClick(r));
            var a := Arrive(SetOrderType("Market", SetQuantity(quantity, submit)), card, goal);
            a.Some? && a.value.button == ButtonFor(r) && a.value.next == AfterClick(r)
  {
    SizedArrives(r, quantity, Retyped("Market", card, goal), goal);
    var sized := SetQuantity(quantity, Submit(ButtonFor(r), false, AfterClick(r)));
    OrderTypeArrives("Market", sized, card, goal);
  }

  lemma TakeProfitArrives(r: Request, card: Card, goal: Card)
    requires r.TakeProfit? && IsWellFormed(r) && Obeys(card, goal, r)
    ensures var a := Arrive(BodyOf(r), card, goal);
            a.Some? && a.value.button == ButtonFor(r) && a.value.next == AfterClick(r)
  {
    PricedArrives(r, r.target, r.quantity, card, goal);
  }

  lemma TrailedArrives(r: Request, card: Card, goal: Card)
    requires r.TrailingStop? && r.quantity > 0 && GetInstrument(r.symbol).Some? && Obeys(card, goal, r)
    ensures var a := Arrive(BodyOf(r), card, goal);
            a.Some? && a.value.button == ButtonFor(r) && a.value.next == AfterClick(r)
  {
    var digits := Decimal(r.quantity);
    assert OfType("Trailing Stop") in ClickNeeds(r) && TrailReads(r.trailTicks as real) in ClickNeeds(r);
    assert BoxReads(digits) in ClickNeeds(r) && ButtonMentions(digits) in ClickNeeds(r);
    var sized := SetQuantity(r.quantity, Submit(ButtonFor(r), false, AfterClick(r)));
    var typed := Retyped("Trailing Stop", card, goal);
    SizedArrives(r, r.quantity, typed.(trail := goal.trail), goal);
    TrailArrives(r.trailTicks, sized, typed, goal);
    OrderTypeArrives("Trailing Stop", SetTrailDistance(r.trailTicks, sized), card, goal);
  }

  lemma PricedArrives(r: Request, price: real, quantity: nat, card: Card, goal: Card)
    requires OfType("Limit") in ClickNeeds(r) && PriceNear(price, TickOf(r.symbol)) in ClickNeeds(r)
    requires BoxReads(Decimal(quantity)) in ClickNeeds(r) && ButtonMentions(Decimal(quantity)) in ClickNeeds(r)
    requires Obeys(card, goal, r)
    ensures var submit := Submit(ButtonFor(r), false, AfterClick(r));
            var priced := SetLimitPrice(price, TickOf(r.symbol), SetQuantity(quantity, submit));
            var a := Arrive(SetOrderType("Limit", priced), card, goal);
            a.Some? && a.value.button == ButtonFor(r) && a.value.next == AfterClick(r)
  {
    var sized := SetQuantity(quantity, Submit(ButtonFor(r), false, AfterClick(r)));
    var typed := Retyped("Limit", card, goal);
    SizedArrives(r, quantity, typed.(buttonText := goal.buttonText), goal);
    PriceArrives(price, TickOf(r.symbol), sized, typed, goal);
    OrderTypeArrives("Limit", SetLimitPrice(price, TickOf(r.symbol), sized), card, goal);
  }

  // On a page that obeys, a well-formed request is carried out whatever the card showed
  // before: its click is arrived at, ...
  lemma ActionArrives(r: Request, card: Card, goal: Card)
    requires IsWellFormed(r) && Obeys(card, goal, r)
    ensures var a := Arrive(ActionOf(r, false), card, goal);
            a.Some? && a.value.button == ButtonFor(r) && a.value.next == AfterClick(r)
  {
    ActionHasBody(r);
    assert OnContract(GetInstrument(r.symbol).value.prefix) in ClickNeeds(r);
    BodyArrives(r, card, goal);
    BodyArrives(r, goal, goal);
    OnTicketArrives(r, BodyOf(r), card, goal);
  }

  // ... and made, on a card that shows all that the request needs.
  lemma ObedientPageIsClicked(call: nat, r: Request, card: Card, goal: Card) returns (v: Arrival)
    requires IsWellFormed(r) && Obeys(card, goal, r)
    ensures Arrive(ActionOf(r, false), card, goal) == Some(v)
    ensures IsClicked(Repeat(call, FirstStep(r), [card], Calm(goal), v.awaits + 1), r, v.card)
  {
    ActionArrives(r, card, goal);
    ActionSound(r, false);
    v := ArrivalIsClicked(call, FirstStep(r), card, goal);
  }

  // The await just answered made a good click for `r`, on this card.
  predicate IsClicked(e: Effect, r: Request, card: Card) {
    && e.click.Some? && GoodClick(e.click.value) && e.click.value.request == r && e.click.value.card == card
    && e.action.clicked && e.action.program == AfterClick(r)
  }

  lemma ArrivalIsClicked(call: nat, a: Action, card: Card, goal: Card) returns (v: Arrival)
    requires OnTrack(a, [card]) && a.widget == 0
    requires Arrive(a.program, card, goal).Some? && Arrive(a.program, card, goal).value.next == AfterClick(a.request)
    ensures Arrive(a.program, card, goal) == Some(v)
    ensures IsClicked(Repeat(call, a, [card], Calm(goal), v.awaits + 1), a.request, v.card)
  {
    v := Arrive(a.program, card, goal).value;
    ArrivesThere(call, a, card, goal);
    RepeatKeepsTrack(call, a, [card], Calm(goal), v.awaits);
    var e := Repeat(call, a, [card], Calm(goal), v.awaits);
    assert e.cards == [v.card];
    ClickIsMade(call, e.action, v.card, Calm(goal));
    assert Repeat(call, a, [card], Calm(goal), v.awaits + 1) == Resume(call, e.action, [v.card], Calm(goal));
  }

  lemma ClickIsMade(call: nat, a: Action, card: Card, reply: Reply)
    requires OnTrack(a, [card]) && a.widget == 0 && a.program.Click? && a.program.next == AfterClick(a.request)
    requires !reply.threw
    ensures IsClicked(Resume(call, a, [card], reply), a.request, card)
  {
    ClickKeepsTrack(call, a, [card], reply);
  }

  // Where there is nothing to cancel, a cancel is reported as done, and clicks nothing.
  lemma NothingToCancel(call: nat, a: Action, cards: seq<Card>, reply: Reply)
    requires a.program.IdleCheck? && reply.refuse && !reply.threw
    ensures Resume(call, a, cards, reply) == Effect(a.(program := Return(Filled)), cards, None)
  {
  }

  // A card that already shows it all stays as it is.
  lemma {:induction false} ArrivesUnchanged(p: Program, goal: Card)
    ensures Arrive(p, goal, goal).Some? ==> Arrive(p, goal, goal).value.card == goal
    decreases p
  {
    match p
    case Ask(next) => ArrivesUnchanged(next, goal);
    case Scan(_, _, next) => ArrivesUnchanged(next, goal);
    case Branch(_, yes, no) => ArrivesUnchanged(yes, goal); ArrivesUnchanged(no, goal);
    case Write(w, next) =>
      assert Disturb(w, goal, goal) == goal;
      ArrivesUnchanged(next, goal);
    case Verify(_, next) => ArrivesUnchanged(next, goal);
    case ReadPosition(next) => ArrivesUnchanged(next, goal);
    case IdleCheck(next) => ArrivesUnchanged(next, goal);
    case _ =>
  }

  // ----- A button that mentions the quantity in its price -------------------------------------

  lemma {:induction false} NothingBeforeAt(before: string, rest: string)
    requires '@' !in before
    ensures NumeralAfterAt(before + rest) == NumeralAfterAt(rest)
  {
    if before == "" {
      assert before + rest == rest;
    } else {
      assert (before + rest)[1..] == before[1..] + rest;
      NothingBeforeAt(before[1..], rest);
    }
  }

  lemma TwoDigits(text: string)
    requires |text| == 2 && IsDigit(text[0]) && IsDigit(text[1])
    ensures DigitsOf(text) == text
    ensures NatOf(text) == 10 * DigitValue(text[0]) + DigitValue(text[1])
  {
    assert DigitsOf(text[1..]) == text[1..] + DigitsOf(text[1..][1..]);
    assert text[..1][..0] == "";
  }

  predicate IsDigitsAndCommas(text: string) {
    forall i :: 0 <= i < |text| ==> IsDigit(text[i]) || text[i] == ','
  }

  predicate GoesOn(text: string, commas: bool) {
    text != "" && (IsDigit(text[0]) || (commas && text[0] == ','))
  }

  lemma {:induction false} SpacesAreSkipped(spaces: string, rest: string)
    requires (forall i :: 0 <= i < |spaces| ==> IsWhiteSpace(spaces[i])) && (rest != "" ==> !IsWhiteSpace(rest[0]))
    ensures SkipSpaces(spaces + rest) == rest
  {
    if spaces == "" {
      assert spaces + rest == rest;
    } else {
      assert (spaces + rest)[1..] == spaces[1..] + rest;
      SpacesAreSkipped(spaces[1..], rest);
    }
  }

  lemma {:induction false} RunIs(run: string, rest: string, commas: bool)
    requires IsDigitsAndCommas(run) && (!commas ==> IsNumber(run) || run == "") && !GoesOn(rest, commas)
    ensures RunOf(run + rest, commas) == |run|
  {
    if run == "" {
      assert run + rest == rest;
    } else {
      assert (run + rest)[1..] == run[1..] + rest;
      RunIs(run[1..], rest, commas);
    }
  }

  lemma PointFollows(whole: string, rest: string)
    requires whole != ""
    ensures var t := whole + ("." + rest);
            && t[0] == whole[0] && t[|whole|] == '.' && t[..|whole|] == whole && t[|whole| + 1..] == rest
  {
  }

  lemma {:induction false} DigitsOfNumber(digits: string)
    requires IsNumber(digits) || digits == ""
    ensures DigitsOf(digits) == digits
  {
    if digits != "" { DigitsOfNumber(digits[1..]); }
  }

  // The price read off a button is the number that stands behind its first `@`, commas
  // and white space aside, with the digits behind its point as decimals.
  lemma ButtonPriceReads(before: string, spaces: string, whole: string, fraction: string, after: string)
    requires '@' !in before && forall i :: 0 <= i < |spaces| ==> IsWhiteSpace(spaces[i])
    requires IsDigitsAndCommas(whole) && DigitsOf(whole) != ""
    requires (IsNumber(fraction) || fraction == "") && (after != "" ==> !IsDigit(after[0]))
    ensures ButtonPrice(before + ("@" + (spaces + (whole + ("." + (fraction + after))))))
         == Some(ValueOf(DigitsOf(whole), fraction))
  {
    var rest := "." + (fraction + after);
    var tail := spaces + (whole + rest);
    assert whole != "";
    PointFollows(whole, fraction + after);
    NothingBeforeAt(before, "@" + tail);
    SpacesAreSkipped(spaces, whole + rest);
    RunIs(whole, rest, true);
    RunIs(fraction, after, false);
    assert (fraction + after)[..|fraction|] == fraction;
    DigitsOfNumber(fraction);
    assert NumeralAt(tail) == Some(Numeral(DigitsOf(whole), fraction));
    AtFirst("@" + tail, tail);
  }

  // The same for a whole number.
  lemma ButtonPriceReadsWhole(before: string, spaces: string, whole: string, after: string)
    requires '@' !in before && forall i :: 0 <= i < |spaces| ==> IsWhiteSpace(spaces[i])
    requires IsDigitsAndCommas(whole) && DigitsOf(whole) != ""
    requires !GoesOn(after, true) && (after != "" ==> after[0] != '.')
    ensures ButtonPrice(before + ("@" + (spaces + (whole + after)))) == Some(ValueOf(DigitsOf(whole), ""))
  {
    var tail := spaces + (whole + after);
    assert whole != "" && !IsWhiteSpace(whole[0]) && (whole + after)[0] == whole[0];
    NothingBeforeAt(before, "@" + tail);
    SpacesAreSkipped(spaces, whole + after);
    RunIs(whole, after, true);
    assert (whole + after)[..|whole|] == whole;
    AtFirst("@" + tail, tail);
  }

  // Without an `@` there is no price.
  lemma NoPriceWithoutAt(text: string)
    requires '@' !in text
    ensures ButtonPrice(text) == None
  {
    NothingBeforeAt(text, "");
    assert text + "" == text;
  }

  lemma AtFirst(text: string, rest: string)
    requires text == "@" + rest && NumeralAt(rest).Some?
    ensures NumeralAfterAt(text) == NumeralAt(rest)
  {
    assert text[1..] == rest;
  }

  lemma WrongButtonPrice(text: string)
    requires text == "BUY +66 @ 71.25"
    ensures ButtonPrice(text) == Some(71.25)
  {
    assert text == text[..8] + ("@" + (text[9..10] + (text[10..12] + ("." + (text[13..] + "")))));
    TwoDigits(text[10..12]);
    ButtonPriceReads(text[..8], text[9..10], text[10..12], text[13..], "");
    ValueOfPrice(text[10..12], text[13..]);
  }

  lemma ValueOfPrice(whole: string, fraction: string)
    requires whole == "71" && fraction == "25"
    ensures WellFormed(Numeral(whole, fraction)) && ValueOf(whole, fraction) == 71.25
  {
    TwoDigits(whole);
    TwoDigits(fraction);
    assert PowerOfTen(0) == 1 && PowerOfTen(1) == 10;
    assert PowerOfTen(|fraction|) == 10 * PowerOfTen(1);
  }

  lemma WrongButtonMentions(text: string)
    requires text == "BUY +66 @ 71.25"
    ensures MentionsExactly(text, "25")
  {
    assert text[13..15] == "25";
    assert MentionsAt(text, "25", 13);
  }

  lemma CrudeContract(text: string)
    requires text == "MCLZ26"
    ensures MatchesContractPattern(text, "MCL")
  {
    assert Upper(text[3]) == 'Z' && "FGHJKMNQUVXZ"[11] == 'Z';
  }

  // A card that already shows what the request needs is clicked as it is.
  lemma SuitableCardIsClicked(call: nat, r: Request, card: Card) returns (n: nat)
    requires IsWellFormed(r) && Obeys(card, card, r)
    ensures IsClicked(Repeat(call, FirstStep(r), [card], Calm(card), n), r, card)
  {
    var v := ObedientPageIsClicked(call, r, card, card);
    ArrivesUnchanged(ActionOf(r, false), card);
    n := v.awaits + 1;
  }

  // A limit order for 25 can be clicked on a button that would buy 66: the digits of
  // the quantity also stand in the price, so the button's check passes, and only the
  // box, which the check before it reads exactly, ever showed 25.
  lemma WrongQuantityCanBeClicked(call: nat)
    ensures exists card: Card, r: Request, n: nat ::
              && r.PlaceOrder? && r.quantity == 25 && card.buttonText == "BUY +66 @ 71.25"
              && IsClicked(Repeat(call, FirstStep(r), [card], Calm(card), n), r, card)
  {
    var card := Card("MCLZ26", "Limit", "25", "BUY +66 @ 71.25", None);
    var r := PlaceOrder("CL", true, LimitOrder, 25, Some(71.25), true);
    WrongButtonObeys(card, r);
    var n := SuitableCardIsClicked(call, r, card);
  }

  lemma WrongButtonObeys(card: Card, r: Request)
    requires card.contract == "MCLZ26" && card.orderType == "Limit" && card.qtyBox == "25"
    requires card.buttonText == "BUY +66 @ 71.25"
    requires r.PlaceOrder? && r.symbol == "CL" && r.orderType.LimitOrder? && r.quantity == 25
    requires r.limitPrice == Some(71.25) && r.hasReferencePrice
    ensures IsWellFormed(r) && Obeys(card, card, r)
  {
    WrongButtonPrice(card.buttonText);
    WrongButtonMentions(card.buttonText);
    TwoDigits(card.qtyBox);
    assert Decimal(2) == "2";
    assert Decimal(r.quantity) == "25";
    CrudeContract(card.contract);
  }
}
