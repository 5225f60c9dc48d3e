// The order cards on the page and the ticket operations of orderTicket.ts and
// browserControlBroker.ts, cut at every `await`.
//
// What the page answers at each await is arbitrary. The only thing assumed of it
// is which readings of a card one write can disturb (`Disturb`): choosing a
// contract may change the whole card, choosing an order type everything but the
// contract, typing a trail distance only that box, typing a limit price only the
// button's text, and typing a quantity only its box and the button's text, in which
// it leaves the price as it was.

module OrderTicket {
  import opened Options
  import opened Characters

  // ----- What the page shows ------------------------------------------------

  datatype Card = Card(
    contract: string,             // contract selector text
    orderType: string,            // order-type combobox text
    qtyBox: string,               // quantity box text
    buttonText: string,           // the Buy button's whole text
    trail: Option<real>           // trail-distance box, read as a number
  )

  datatype Field = Contract | OrderTypeField | LimitPrice | TrailDistance | Quantity

  function Disturb(f: Field, was: Card, now: Card): Card {
    match f
    case Contract => now
    case OrderTypeField => now.(contract := was.contract)
    case LimitPrice => was.(buttonText := now.buttonText)
    case TrailDistance => was.(trail := now.trail)
    case Quantity =>
      var samePrice := ButtonPrice(now.buttonText) == ButtonPrice(was.buttonText);
      was.(qtyBox := now.qtyBox, buttonText := if samePrice then now.buttonText else was.buttonText)
  }

  // ----- Reading the button -------------------------------------------------------

  function SkipSpaces(text: string): string {
    if text != "" && IsWhiteSpace(text[0]) then SkipSpaces(text[1..]) else text
  }

  // Length of the run of digits (and commas) a text begins with.
  function RunOf(text: string, commas: bool): (n: nat)
    ensures n <= |text|
    ensures forall i :: 0 <= i < n ==> IsDigit(text[i]) || (commas && text[i] == ',')
    ensures n < |text| ==> !IsDigit(text[n]) && !(commas && text[n] == ',')
  {
    if text != "" && (IsDigit(text[0]) || (commas && text[0] == ',')) then 1 + RunOf(text[1..], commas) else 0
  }

  // What `[\d,]+\.?\d*` matched, commas taken out.
  datatype Numeral = Numeral(whole: string, fraction: string)

  function NumeralAt(text: string): Option<Numeral> {
    var t := SkipSpaces(text);
    var n := RunOf(t, true);
    if n == 0 then None
    else if n < |t| && t[n] == '.' then
      var rest := t[n + 1..];
      Some(Numeral(DigitsOf(t[..n]), DigitsOf(rest[..RunOf(rest, false)])))
    else Some(Numeral(DigitsOf(t[..n]), ""))
  }

  // /@\s*([\d,]+\.?\d*)/, at its leftmost match
  function NumeralAfterAt(text: string): Option<Numeral> {
    if text == "" then None
    else if text[0] == '@' && NumeralAt(text[1..]).Some? then NumeralAt(text[1..])
    else NumeralAfterAt(text[1..])
  }

  function PowerOfTen(n: nat): nat
    ensures PowerOfTen(n) > 0
  {
    if n == 0 then 1 else 10 * PowerOfTen(n - 1)
  }

  function ValueOf(whole: string, fraction: string): real
    requires forall i :: 0 <= i < |whole| ==> IsDigit(whole[i])
    requires forall i :: 0 <= i < |fraction| ==> IsDigit(fraction[i])
  {
    NatOf(whole) as real + NatOf(fraction) as real / PowerOfTen(|fraction|) as real
  }

  predicate WellFormed(n: Numeral) {
    && (forall i :: 0 <= i < |n.whole| ==> IsDigit(n.whole[i]))
    && (forall i :: 0 <= i < |n.fraction| ==> IsDigit(n.fraction[i]))
    && (n.whole != "" || n.fraction != "")
  }

  // The price after `@`. None where there is none, and where only commas stand
  // there, on which `new Decimal` throws: setLimitPrice throws in both cases.
  function ButtonPrice(text: string): Option<real> {
    match NumeralAfterAt(text)
    case None => None
    case Some(n) => if WellFormed(n) then Some(ValueOf(n.whole, n.fraction)) else None
  }

  function Upper(c: char): char {
    if 'a' <= c <= 'z' then (c as int - 32) as char else c
  }

  predicate StartsWithIgnoringCase(text: string, prefix: string) {
    |prefix| <= |text| && forall i :: 0 <= i < |prefix| ==> Upper(text[i]) == Upper(prefix[i])
  }

  // Two characters are taken for the same exactly when they are, or are a letter in
  // either case.
  lemma UpperIff(c: char, d: char)
    ensures Upper(c) == Upper(d)
       <==> || c == d
            || ('a' <= c <= 'z' && 'A' <= d <= 'Z' && c as int - d as int == 32)
            || ('a' <= d <= 'z' && 'A' <= c <= 'Z' && d as int - c as int == 32)
  {
  }

  // A contract text is its instrument's prefix, one of the twelve month letters and two
  // digits, in either case.
  lemma ContractTextIs(prefix: string, text: string)
    ensures MatchesContractPattern(text, prefix) ==> StartsWithIgnoringCase(text, prefix)
    ensures StartsWithIgnoringCase(prefix, prefix)
    ensures forall month, tens, ones ::
              month in "FGHJKMNQUVXZ" && IsDigit(tens) && IsDigit(ones) ==>
                MatchesContractPattern(prefix + [month, tens, ones], prefix)
  {
    forall month, tens, ones | month in "FGHJKMNQUVXZ" && IsDigit(tens) && IsDigit(ones)
      ensures MatchesContractPattern(prefix + [month, tens, ones], prefix)
    {
      var contract := prefix + [month, tens, ones];
      assert contract[|prefix|] == month && contract[|prefix| + 1] == tens && contract[|prefix| + 2] == ones;
    }
  }

  // /^PREFIX[FGHJKMNQUVXZ]\d{2}$/i
  predicate MatchesContractPattern(text: string, prefix: string) {
    && |text| == |prefix| + 3
    && StartsWithIgnoringCase(text, prefix)
    && Upper(text[|prefix|]) in "FGHJKMNQUVXZ"
    && IsDigit(text[|prefix| + 1]) && IsDigit(text[|prefix| + 2])
  }

  // ----- Requests ---------------------------------------------------------------

  datatype Button = Buy | Sell | Close | CancelOrders

  datatype RequestedType = MarketOrder | LimitOrder | StopOrder | TrailingStopOrder

  datatype Request =
    | PlaceOrder(symbol: string, buy: bool, orderType: RequestedType, quantity: int, limitPrice: Option<real>,
                 hasReferencePrice: bool)
    | Flatten(symbol: string, long: bool, quantity: int)
    | TrailingStop(symbol: string, long: bool, quantity: int, trailTicks: int)
    | TakeProfit(symbol: string, long: bool, quantity: int, target: real)
    | ClosePosition(symbol: string)
    | CancelResting(symbol: string)

  datatype Instrument = Instrument(prefix: string, tick: real)

  function GetInstrument(symbol: string): Option<Instrument> {
    if symbol == "ES" then Some(Instrument("MES", 0.25))
    else if symbol == "NQ" then Some(Instrument("MNQ", 0.25))
    else if symbol == "CL" then Some(Instrument("MCL", 0.01))
    else if symbol == "GC" then Some(Instrument("MGC", 0.10))
    else None
  }

  // No card can be on two instruments' contracts at once.
  lemma ContractNamesOneInstrument(text: string, s: string, t: string)
    requires GetInstrument(s).Some? && GetInstrument(t).Some?
    requires StartsWithIgnoringCase(text, GetInstrument(s).value.prefix)
    requires StartsWithIgnoringCase(text, GetInstrument(t).value.prefix)
    ensures s == t
  {
    var p, q := GetInstrument(s).value.prefix, GetInstrument(t).value.prefix;
    assert |p| == |q| == 3;
    assert Upper(text[1]) == Upper(p[1]) == Upper(q[1]);
  }

  datatype Position = Unreadable | Flat | Open(long: bool, averagePrice: real)

  // protectiveOrderRefusal: only a reading that positively contradicts the
  // protective order refuses it.
  predicate Refused(r: Request, p: Position) {
    match p
    case Unreadable => false
    case Flat => true
    case Open(long, avg) =>
      match r
      case TrailingStop(_, side, _, _) => long != side
      case TakeProfit(_, side, _, target) => long != side || (if side then target <= avg else target >= avg)
      case _ => false
  }

  // What a position entered at `entry` gains by leaving at `exit`.
  function Gain(long: bool, entry: real, exit: real): real {
    if long then exit - entry else entry - exit
  }

  // A readable position lets a protective order through exactly when it is on the
  // order's side and, for a take-profit, would gain by it.
  lemma RefusedIff(r: Request, p: Position)
    requires (r.TrailingStop? || r.TakeProfit?) && !p.Unreadable?
    ensures !Refused(r, p)
       <==> p.Open? && p.long == r.long && (r.TakeProfit? ==> Gain(p.long, p.averagePrice, r.target) > 0.0)
  {
  }

  datatype Result = Rejected | Pending | Filled

  // ----- What an action knows -------------------------------------------------------

  // One thing an action has read back and not disturbed since.
  datatype Fact =
    | OnContract(prefix: string)
    | OfType(wanted: string)
    | BoxReads(digits: string)
    | ButtonMentions(digits: string)
    | PriceNear(price: real, tick: real)
    | TrailReads(ticks: real)
    | NotRefused
    | Clicked
    | PositionSeen

  predicate OnCard(f: Fact) {
    !f.NotRefused? && !f.Clicked? && !f.PositionSeen?
  }

  predicate CardShows(c: Card, f: Fact)
    requires OnCard(f)
  {
    match f
    case OnContract(prefix) => StartsWithIgnoringCase(c.contract, prefix)
    case OfType(wanted) => c.orderType == wanted
    case BoxReads(digits) => DigitsOf(c.qtyBox) == digits
    case ButtonMentions(digits) => MentionsExactly(c.buttonText, digits)
    case PriceNear(price, tick) =>
      var shown := ButtonPrice(c.buttonText);
      shown.Some? && -(tick / 2.0) <= shown.value - price <= tick / 2.0
    case TrailReads(ticks) => c.trail == Some(ticks)
  }

  // The price check lets half a tick through, and no more.
  lemma PriceNearIff(c: Card, price: real, tick: real)
    ensures CardShows(c, PriceNear(price, tick))
       <==> exists shown: real :: ButtonPrice(c.buttonText) == Some(shown) && -tick <= 2.0 * (shown - price) <= tick
  {
  }

  predicate Disturbs(w: Field, f: Fact) {
    match w
    case Contract => OnCard(f)
    case OrderTypeField => OnCard(f) && !f.OnContract?
    case LimitPrice => f.PriceNear? || f.ButtonMentions?
    case TrailDistance => f.TrailReads?
    case Quantity => f.BoxReads? || f.ButtonMentions?
  }

  lemma UndisturbedFactsStay(w: Field, was: Card, now: Card, f: Fact)
    requires OnCard(f) && CardShows(was, f) && !Disturbs(w, f)
    ensures CardShows(Disturb(w, was, now), f)
  {
  }

  // ----- Programs: one ticket action, cut at its awaits ------------------------------

  datatype Program =
    | Return(result: Result)
    | Throw
    | Ask(next: Program)                                  // page / modal / option lookups: may throw or refuse
    | Scan(card: nat, prefix: string, next: Program)      // findOrderWidget reading one card
    | Branch(fact: Fact, yes: Program, no: Program)       // read, and skip the work when it already reads right
    | Write(field: Field, next: Program)                  // click, fill or press
    | Verify(fact: Fact, next: Program)                   // read back, throw on a mismatch
    | ReadPosition(next: Program)                         // protectiveOrderRefusal
    | IdleCheck(next: Program)                            // Cancel Orders greyed out: nothing to cancel
    | Click(button: Button, next: Program)
    | Confirm(attemptsLeft: nat)                          // confirmPositionOpened, then the fill-price read

  function SwitchContract(prefix: string, next: Program): Program {
    Branch(OnContract(prefix), next,
      Write(Contract, Write(Contract, Ask(Write(Contract, Verify(OnContract(prefix), next))))))
  }

  function SetOrderType(wanted: string, next: Program): Program {
    Branch(OfType(wanted), next,
      Write(OrderTypeField, Ask(Write(OrderTypeField, Verify(OfType(wanted), next)))))
  }

  function SetLimitPrice(price: real, tick: real, next: Program): Program {
    Write(LimitPrice, Write(LimitPrice, Verify(PriceNear(price, tick), next)))
  }

  function SetTrailDistance(ticks: int, next: Program): Program {
    Write(TrailDistance, Write(TrailDistance, Verify(TrailReads(ticks as real), next)))
  }

  function SetQuantity(quantity: nat, next: Program): Program {
    var digits := Decimal(quantity);
    Write(Quantity, Write(Quantity, Write(Quantity, Verify(BoxReads(digits), Verify(ButtonMentions(digits), next)))))
  }

  // `submit`: read the button's text, then click it - or, in a dry run, only
  // highlight it, which every caller reports as a rejection.
  function Submit(button: Button, dryRun: bool, next: Program): Program {
    Ask(if dryRun then Ask(Return(Rejected)) else Click(button, next))
  }

  // getPage, findBlockingModalText, getInstrument, findOrSwitchToOrderWidget.
  function OnTicket(symbol: string, body: Program): Program {
    match GetInstrument(symbol)
    case None => Ask(Ask(Return(Rejected)))
    case Some(instrument) => Ask(Ask(Scan(0, instrument.prefix, body)))
  }

  function TickOf(symbol: string): real {
    if GetInstrument(symbol).Some? then GetInstrument(symbol).value.tick else 0.0
  }

  const CONFIRM_ATTEMPTS: nat := 4

  function Opposite(long: bool): Button {
    if long then Sell else Buy
  }

  // The body of each `...OnTicket` method.
  function ActionOf(r: Request, dryRun: bool): Program {
    match r
    case PlaceOrder(symbol, buy, orderType, quantity, limitPrice, hasReference) =>
      if quantity <= 0 || !hasReference || (orderType.LimitOrder? && limitPrice.None?) then Return(Rejected)
      else
        var button := if buy then Buy else Sell;
        OnTicket(symbol,
          if orderType.LimitOrder? then
            SetOrderType("Limit", SetLimitPrice(limitPrice.value, TickOf(symbol),
              SetQuantity(quantity, Submit(button, dryRun, Return(Pending)))))
          else
            SetOrderType("Market", SetQuantity(quantity, Submit(button, dryRun, Confirm(CONFIRM_ATTEMPTS - 1)))))
    case Flatten(symbol, long, quantity) =>
      if quantity <= 0 then Return(Rejected)
      else
        var submit := Submit(Opposite(long), dryRun, Return(Filled));
        OnTicket(symbol, SetOrderType("Market", SetQuantity(quantity, submit)))
    case TrailingStop(symbol, long, quantity, trailTicks) =>
      if quantity <= 0 then Return(Rejected)
      else OnTicket(symbol, ReadPosition(SetOrderType("Trailing Stop", SetTrailDistance(trailTicks,
             SetQuantity(quantity, Submit(Opposite(long), dryRun, Return(Pending)))))))
    case TakeProfit(symbol, long, quantity, target) =>
      if quantity <= 0 then Return(Rejected)
      else OnTicket(symbol, ReadPosition(SetOrderType("Limit", SetLimitPrice(target, TickOf(symbol),
             SetQuantity(quantity, Submit(Opposite(long), dryRun, Return(Pending)))))))
    case ClosePosition(symbol) => OnTicket(symbol, Submit(Close, dryRun, Return(Filled)))
    case CancelResting(symbol) => OnTicket(symbol, IdleCheck(Submit(CancelOrders, dryRun, Return(Filled))))
  }

  // ----- What a click and a returned status must rest on --------------------------------

  // What the ticket must show, and which button may be pressed, for this request.
  function QuantityFacts(quantity: int): set<Fact> {
    if quantity <= 0 then {} else {BoxReads(Decimal(quantity)), ButtonMentions(Decimal(quantity))}
  }

  function ContractFacts(symbol: string): set<Fact> {
    if GetInstrument(symbol).Some? then {OnContract(GetInstrument(symbol).value.prefix)} else {}
  }

  function ClickNeeds(r: Request): set<Fact> {
    ContractFacts(r.symbol) +
    match r
    case PlaceOrder(symbol, _, orderType, quantity, limitPrice, _) =>
      QuantityFacts(quantity) +
      (if !orderType.LimitOrder? then {OfType("Market")}
       else if limitPrice.Some? then {OfType("Limit"), PriceNear(limitPrice.value, TickOf(symbol))}
       else {OfType("Limit")})
    case Flatten(_, _, quantity) => QuantityFacts(quantity) + {OfType("Market")}
    case TrailingStop(_, _, quantity, ticks) =>
      QuantityFacts(quantity) + {OfType("Trailing Stop"), TrailReads(ticks as real), NotRefused}
    case TakeProfit(symbol, _, quantity, target) =>
      QuantityFacts(quantity) + {OfType("Limit"), PriceNear(target, TickOf(symbol)), NotRefused}
    case ClosePosition(_) => {}
    case CancelResting(_) => {}
  }

  function ButtonFor(r: Request): Button {
    match r
    case PlaceOrder(_, buy, _, _, _, _) => if buy then Buy else Sell
    case Flatten(_, long, _) => Opposite(long)
    case TrailingStop(_, long, _, _) => Opposite(long)
    case TakeProfit(_, long, _, _) => Opposite(long)
    case ClosePosition(_) => Close
    case CancelResting(_) => CancelOrders
  }

  // A market entry is reported filled only on a position actually seen, and
  // nothing but an idle cancel is reported as done without its click.
  function ReturnNeeds(r: Request, result: Result): set<Fact> {
    if result.Rejected? || r.CancelResting? then {}
    else if r.PlaceOrder? && result.Filled? then {Clicked, PositionSeen}
    else {Clicked}
  }

  // ----- Static check of a program -------------------------------------------------------

  function Learn(known: set<Fact>, w: Field): set<Fact> {
    set f | f in known && !Disturbs(w, f)
  }

  // Along every path of `p`, entered knowing `known`, each click and each return
  // is made knowing what it needs, with the right button, and at most one click
  // is made (`mayClick`: none yet).
  ghost predicate Sound(r: Request, known: set<Fact>, p: Program, mayClick: bool)
    decreases p
  {
    match p
    case Return(result) => ReturnNeeds(r, result) <= known
    case Throw => true
    case Ask(next) => Sound(r, known, next, mayClick)
    case Scan(_, prefix, next) => Sound(r, (set f | f in known && !OnCard(f)) + {OnContract(prefix)}, next, mayClick)
    case Branch(f, yes, no) => OnCard(f) && Sound(r, known + {f}, yes, mayClick) && Sound(r, known, no, mayClick)
    case Write(w, next) => Sound(r, Learn(known, w), next, mayClick)
    case Verify(f, next) => OnCard(f) && Sound(r, known + {f}, next, mayClick)
    case ReadPosition(next) => Sound(r, known + {NotRefused}, next, mayClick)
    case IdleCheck(next) => r.CancelResting? && Sound(r, known, next, mayClick)
    case Click(button, next) => mayClick && button == ButtonFor(r) && ClickNeeds(r) <= known
        && Sound(r, known + {Clicked}, next, false)
    case Confirm(_) => ReturnNeeds(r, Filled) <= known + {PositionSeen}
  }

  // ----- One step of a program -----------------------------------------------------------

  // The page's answer to one await.
  datatype Reply = Reply(
    threw: bool,            // the awaited call rejected
    landed: bool,           // with `threw`, a click that reached the page although it rejected
    refuse: bool,           // a blocking modal is open / Cancel Orders is disabled / a card is unreadable
    card: Card,             // what the card shows after a write, rejected or not
    position: Position,     // readApiOpenPosition
    flat: Option<bool>      // checkPositionFlat
  )

  // One action in progress.
  datatype Action = Action(
    request: Request,
    program: Program,
    widget: nat,                  // the card its widget handle points at
    known: set<Fact>,
    position: Option<Position>,   // last position reading
    clicked: bool,
    seen: bool                    // a poll saw the position
  )

  datatype ClickRecord = ClickRecord(call: nat, request: Request, button: Button, card: Card,
                                     position: Option<Position>)

  datatype Effect = Effect(action: Action, cards: seq<Card>, click: Option<ClickRecord>)

  // findOrSwitchToOrderWidget at one card, or past the last one.
  function ScanStep(call: nat, a: Action, cards: seq<Card>, reply: Reply): Effect
    requires a.program.Scan?
  {
    var p := a.program;
    var kept := set f | f in a.known && !OnCard(f);
    if p.card < |cards| then
      if !reply.threw && MatchesContractPattern(cards[p.card].contract, p.prefix)
      then Effect(a.(widget := p.card, program := p.next, known := kept + {OnContract(p.prefix)}), cards, None)
      else Effect(a.(program := p.(card := p.card + 1)), cards, None)
    else if reply.threw || |cards| == 0 then Effect(a.(program := Return(Rejected)), cards, None)
    else Effect(a.(widget := 0, known := kept, program := SwitchContract(p.prefix, p.next)), cards, None)
  }

  // A write that rejects may have changed the card, and a click that rejects may
  // have reached the page.
  function CardStep(call: nat, a: Action, cards: seq<Card>, reply: Reply): Effect
    requires a.widget < |cards|
    requires a.program.Branch? || a.program.Write? || a.program.Verify? || a.program.Click?
  {
    var card := cards[a.widget];
    match a.program
    case Branch(f, yes, no) =>
      if reply.threw then Effect(a.(program := Return(Rejected)), cards, None)
      else if OnCard(f) && CardShows(card, f)
      then Effect(a.(program := yes, known := a.known + {f}), cards, None)
      else Effect(a.(program := no), cards, None)
    case Write(w, next) =>
      Effect(a.(program := if reply.threw then Return(Rejected) else next, known := Learn(a.known, w)),
             cards[a.widget := Disturb(w, card, reply.card)], None)
    case Verify(f, next) =>
      if !reply.threw && OnCard(f) && CardShows(card, f)
      then Effect(a.(program := next, known := a.known + {f}), cards, None)
      else Effect(a.(program := Return(Rejected)), cards, None)
    case Click(button, next) =>
      if reply.threw && !reply.landed then Effect(a.(program := Return(Rejected)), cards, None)
      else
        var after := if reply.threw then Return(Rejected) else next;
        Effect(a.(program := after, known := a.known + {Clicked}, clicked := true), cards,
               Some(ClickRecord(call, a.request, button, card, a.position)))
  }

  // One await of action `a` resolving with `reply`. A throw is caught by the
  // action's own try block and becomes a rejection.
  function Resume(call: nat, a: Action, cards: seq<Card>, reply: Reply): Effect {
    match a.program
    case Return(_) => Effect(a, cards, None)
    case Throw => Effect(a, cards, None)
    case Scan(_, _, _) => ScanStep(call, a, cards, reply)
    case Confirm(left) =>
      if reply.flat == Some(false) then
        Effect(a.(seen := true, known := a.known + {PositionSeen}, program := Ask(Return(Filled))), cards, None)
      else if left == 0 then Effect(a.(program := Return(Rejected)), cards, None)
      else Effect(a.(program := Confirm(left - 1)), cards, None)
    case IdleCheck(next) =>
      if reply.refuse && !reply.threw then Effect(a.(program := Return(Filled)), cards, None)
      else Effect(a.(program := next), cards, None)
    case Ask(next) =>
      if reply.threw || reply.refuse then Effect(a.(program := Return(Rejected)), cards, None)
      else Effect(a.(program := next), cards, None)
    case ReadPosition(next) =>
      var read := a.(position := Some(reply.position));
      if reply.threw || Refused(a.request, reply.position)
      then Effect(read.(known := a.known - {NotRefused}, program := Return(Rejected)), cards, None)
      else Effect(read.(known := a.known + {NotRefused}, program := next), cards, None)
    case _ =>
      if a.widget >= |cards| then Effect(a.(program := Return(Rejected)), cards, None)
      else CardStep(call, a, cards, reply)
  }

  predicate Holds(f: Fact, a: Action, cards: seq<Card>) {
    match f
    case NotRefused => a.position.Some? && !Refused(a.request, a.position.value)
    case Clicked => a.clicked
    case PositionSeen => a.seen
    case _ => a.widget < |cards| && CardShows(cards[a.widget], f)
  }

  // The invariant of a running action that nobody interferes with.
  ghost predicate OnTrack(a: Action, cards: seq<Card>) {
    && Sound(a.request, a.known, a.program, !a.clicked)
    && forall f :: f in a.known ==> Holds(f, a, cards)
  }

  // The ticket was on the request's contract, order type, quantity (and price or
  // distance), the right button was pressed, and a protective order was not one
  // the position reading refused.
  predicate GoodClick(c: ClickRecord) {
    && c.button == ButtonFor(c.request)
    && (forall f :: f in ClickNeeds(c.request) && OnCard(f) ==> CardShows(c.card, f))
    && (NotRefused in ClickNeeds(c.request) ==> c.position.Some? && !Refused(c.request, c.position.value))
  }

  lemma SwitchContractSound(r: Request, known: set<Fact>, prefix: string, next: Program, mayClick: bool)
    requires forall f :: f in known ==> !OnCard(f)
    requires Sound(r, known + {OnContract(prefix)}, next, mayClick)
    ensures Sound(r, known, SwitchContract(prefix, next), mayClick)
  {
    assert Learn(known, Contract) == known;
    var verified := Verify(OnContract(prefix), next);
    assert Sound(r, known, verified, mayClick);
    assert Sound(r, known, Write(Contract, verified), mayClick);
    assert Sound(r, known, Ask(Write(Contract, verified)), mayClick);
    assert Sound(r, known, Write(Contract, Ask(Write(Contract, verified))), mayClick);
  }

  // What one step must keep, and what any click it makes must satisfy.
  ghost predicate KeepsTrack(call: nat, a: Action, cards: seq<Card>, e: Effect) {
    && OnTrack(e.action, e.cards)
    && |e.cards| == |cards|
    && e.action.request == a.request
    && (e.click.Some? ==>
          && !a.clicked
          && GoodClick(e.click.value)
          && e.click.value.call == call
          && e.click.value.request == a.request)
    && e.action.clicked == (a.clicked || e.click.Some?)
  }

  lemma FoundKeepsTrack(call: nat, a: Action, cards: seq<Card>, reply: Reply)
    requires OnTrack(a, cards) && a.program.Scan? && a.program.card < |cards|
    requires !reply.threw && MatchesContractPattern(cards[a.program.card].contract, a.program.prefix)
    ensures KeepsTrack(call, a, cards, ScanStep(call, a, cards, reply))
  {
    var e := ScanStep(call, a, cards, reply);
    forall f | f in e.action.known
      ensures Holds(f, e.action, e.cards)
    {
      assert f == OnContract(a.program.prefix) || f in a.known;
    }
  }

  lemma SwitchKeepsTrack(call: nat, a: Action, cards: seq<Card>, reply: Reply)
    requires OnTrack(a, cards) && a.program.Scan? && a.program.card >= |cards|
    requires !reply.threw && |cards| > 0
    ensures KeepsTrack(call, a, cards, ScanStep(call, a, cards, reply))
  {
    var kept := set f | f in a.known && !OnCard(f);
    SwitchContractSound(a.request, kept, a.program.prefix, a.program.next, !a.clicked);
  }

  lemma ScanKeepsTrack(call: nat, a: Action, cards: seq<Card>, reply: Reply)
    requires OnTrack(a, cards) && a.program.Scan?
    ensures KeepsTrack(call, a, cards, ScanStep(call, a, cards, reply))
  {
    var p := a.program;
    if p.card < |cards| {
      if !reply.threw && MatchesContractPattern(cards[p.card].contract, p.prefix) {
        FoundKeepsTrack(call, a, cards, reply);
      }
    } else if !reply.threw && |cards| > 0 {
      SwitchKeepsTrack(call, a, cards, reply);
    }
  }

  lemma WriteKeepsTrack(call: nat, a: Action, cards: seq<Card>, reply: Reply)
    requires OnTrack(a, cards) && a.program.Write? && a.widget < |cards|
    ensures KeepsTrack(call, a, cards, CardStep(call, a, cards, reply))
  {
    var e := CardStep(call, a, cards, reply);
    forall f | f in e.action.known
      ensures Holds(f, e.action, e.cards)
    {
      if OnCard(f) {
        UndisturbedFactsStay(a.program.field, cards[a.widget], reply.card, f);
      }
    }
  }

  lemma ClickKeepsTrack(call: nat, a: Action, cards: seq<Card>, reply: Reply)
    requires OnTrack(a, cards) && a.program.Click? && a.widget < |cards|
    ensures KeepsTrack(call, a, cards, CardStep(call, a, cards, reply))
  {
    forall f | f in ClickNeeds(a.request)
      ensures Holds(f, a, cards)
    {
    }
  }

  lemma ReadKeepsTrack(call: nat, a: Action, cards: seq<Card>, reply: Reply)
    requires OnTrack(a, cards) && (a.program.Branch? || a.program.Verify?)
    ensures KeepsTrack(call, a, cards, Resume(call, a, cards, reply))
  {
  }

  lemma PositionKeepsTrack(call: nat, a: Action, cards: seq<Card>, reply: Reply)
    requires OnTrack(a, cards) && a.program.ReadPosition?
    ensures KeepsTrack(call, a, cards, Resume(call, a, cards, reply))
    ensures var next := Resume(call, a, cards, reply).action.program;
            next == if !reply.threw && !Refused(a.request, reply.position) then a.program.next else Return(Rejected)
  {
    var e := Resume(call, a, cards, reply);
    forall f | f in e.action.known
      ensures Holds(f, e.action, e.cards)
    {
      assert f.NotRefused? || f in a.known;
    }
  }

  lemma WaitKeepsTrack(call: nat, a: Action, cards: seq<Card>, reply: Reply)
    requires OnTrack(a, cards)
    requires a.program.Ask? || a.program.IdleCheck? || a.program.Confirm? || Ended(a.program)
    ensures KeepsTrack(call, a, cards, Resume(call, a, cards, reply))
  {
    var e := Resume(call, a, cards, reply);
    forall f | f in e.action.known
      ensures Holds(f, e.action, e.cards)
    {
      assert f.PositionSeen? || f in a.known;
    }
  }

  lemma {:induction false} ResumeKeepsTrack(call: nat, a: Action, cards: seq<Card>, reply: Reply)
    requires OnTrack(a, cards)
    ensures KeepsTrack(call, a, cards, Resume(call, a, cards, reply))
  {
    match a.program
    case Scan(_, _, _) => ScanKeepsTrack(call, a, cards, reply);
    case Write(_, _) => if a.widget < |cards| { WriteKeepsTrack(call, a, cards, reply); }
    case Click(_, _) => if a.widget < |cards| { ClickKeepsTrack(call, a, cards, reply); }
    case Branch(_, _, _) => ReadKeepsTrack(call, a, cards, reply);
    case Verify(_, _) => ReadKeepsTrack(call, a, cards, reply);
    case ReadPosition(_) => PositionKeepsTrack(call, a, cards, reply);
    case _ => WaitKeepsTrack(call, a, cards, reply);
  }

  // ----- Every ticket action is sound ------------------------------------------------------

  lemma SetOrderTypeSound(r: Request, known: set<Fact>, wanted: string, next: Program, mayClick: bool)
    requires forall f :: f in known ==> f.OnContract? || !OnCard(f)
    requires Sound(r, known + {OfType(wanted)}, next, mayClick)
    ensures Sound(r, known, SetOrderType(wanted, next), mayClick)
  {
    assert Learn(known, OrderTypeField) == known;
    var verified := Verify(OfType(wanted), next);
    assert Sound(r, known, verified, mayClick);
    assert Sound(r, known, Write(OrderTypeField, verified), mayClick);
    assert Sound(r, known, Ask(Write(OrderTypeField, verified)), mayClick);
  }

  lemma SetLimitPriceSound(r: Request, known: set<Fact>, price: real, tick: real, next: Program, mayClick: bool)
    requires forall f :: f in known ==> !Disturbs(LimitPrice, f)
    requires Sound(r, known + {PriceNear(price, tick)}, next, mayClick)
    ensures Sound(r, known, SetLimitPrice(price, tick, next), mayClick)
  {
    assert Learn(known, LimitPrice) == known;
    var verified := Verify(PriceNear(price, tick), next);
    assert Sound(r, known, verified, mayClick);
    assert Sound(r, known, Write(LimitPrice, verified), mayClick);
  }

  lemma SetTrailDistanceSound(r: Request, known: set<Fact>, ticks: int, next: Program, mayClick: bool)
    requires forall f :: f in known ==> !Disturbs(TrailDistance, f)
    requires Sound(r, known + {TrailReads(ticks as real)}, next, mayClick)
    ensures Sound(r, known, SetTrailDistance(ticks, next), mayClick)
  {
    assert Learn(known, TrailDistance) == known;
    var verified := Verify(TrailReads(ticks as real), next);
    assert Sound(r, known, verified, mayClick);
    assert Sound(r, known, Write(TrailDistance, verified), mayClick);
  }

  lemma SetQuantitySound(r: Request, known: set<Fact>, quantity: nat, next: Program, mayClick: bool)
    requires quantity > 0
    requires forall f :: f in known ==> !Disturbs(Quantity, f)
    requires Sound(r, known + QuantityFacts(quantity), next, mayClick)
    ensures Sound(r, known, SetQuantity(quantity, next), mayClick)
  {
    assert Learn(known, Quantity) == known;
    var digits := Decimal(quantity);
    assert known + {BoxReads(digits)} + {ButtonMentions(digits)} == known + QuantityFacts(quantity);
    var mentions := Verify(ButtonMentions(digits), next);
    assert Sound(r, known + {BoxReads(digits)}, mentions, mayClick);
    var verified := Verify(BoxReads(digits), mentions);
    assert Sound(r, known, verified, mayClick);
    assert Sound(r, known, Write(Quantity, verified), mayClick);
    assert Sound(r, known, Write(Quantity, Write(Quantity, verified)), mayClick);
  }

  lemma SubmitSound(r: Request, known: set<Fact>, dryRun: bool, next: Program)
    requires ClickNeeds(r) <= known
    requires Sound(r, known + {Clicked}, next, false)
    ensures Sound(r, known, Submit(ButtonFor(r), dryRun, next), true)
  {
    assert Sound(r, known, Ask(Return(Rejected)), true);
    assert Sound(r, known, Click(ButtonFor(r), next), true);
  }

  lemma OnTicketSound(r: Request, body: Program)
    requires GetInstrument(r.symbol).Some? ==> Sound(r, ContractFacts(r.symbol), body, true)
    ensures Sound(r, {}, OnTicket(r.symbol, body), true)
  {
    if GetInstrument(r.symbol).None? {
      assert Sound(r, {}, Ask(Return(Rejected)), true);
    } else {
      var scan := Scan(0, GetInstrument(r.symbol).value.prefix, body);
      var none: set<Fact> := {};
      var found := (set f | f in none && !OnCard(f)) + {OnContract(scan.prefix)};
      assert found == ContractFacts(r.symbol);
      assert Sound(r, found, body, true);
      assert Sound(r, {}, scan, true);
      assert Sound(r, {}, Ask(scan), true);
    }
  }

  // Entered knowing nothing, whatever an earlier action left on the ticket.
  lemma ActionSound(r: Request, dryRun: bool)
    ensures Sound(r, {}, ActionOf(r, dryRun), true)
  {
    var button := ButtonFor(r);
    var contract := ContractFacts(r.symbol);
    match r
    case PlaceOrder(symbol, _, orderType, quantity, limitPrice, hasReference) =>
      if quantity > 0 && hasReference && (orderType.LimitOrder? ==> limitPrice.Some?) {
        if orderType.LimitOrder? {
          LimitEntrySound(r, limitPrice.value, quantity, dryRun);
        } else {
          var next := Confirm(CONFIRM_ATTEMPTS - 1);
          SubmitSound(r, ClickNeeds(r), dryRun, next);
          MarketSound(r, quantity, Submit(button, dryRun, next));
        }
      }
    case Flatten(symbol, _, quantity) =>
      if quantity > 0 {
        SubmitSound(r, ClickNeeds(r), dryRun, Return(Filled));
        MarketSound(r, quantity, Submit(button, dryRun, Return(Filled)));
      }
    case TrailingStop(symbol, _, quantity, ticks) =>
      if quantity > 0 { TrailingStopSound(r, dryRun); }
    case TakeProfit(symbol, _, quantity, target) =>
      if quantity > 0 { TakeProfitSound(r, dryRun); }
    case ClosePosition(symbol) =>
      SubmitSound(r, contract, dryRun, Return(Filled));
      OnTicketSound(r, Submit(button, dryRun, Return(Filled)));
    case CancelResting(symbol) =>
      SubmitSound(r, contract, dryRun, Return(Filled));
      assert Sound(r, contract, IdleCheck(Submit(button, dryRun, Return(Filled))), true);
      OnTicketSound(r, IdleCheck(Submit(button, dryRun, Return(Filled))));
  }

  lemma MarketSound(r: Request, quantity: nat, submit: Program)
    requires quantity > 0
    requires ClickNeeds(r) == ContractFacts(r.symbol) + QuantityFacts(quantity) + {OfType("Market")}
    requires Sound(r, ClickNeeds(r), submit, true)
    ensures Sound(r, {}, OnTicket(r.symbol, SetOrderType("Market", SetQuantity(quantity, submit))), true)
  {
    var contract := ContractFacts(r.symbol);
    var typed := contract + {OfType("Market")};
    assert typed + QuantityFacts(quantity) == ClickNeeds(r);
    SetQuantitySound(r, typed, quantity, submit, true);
    SetOrderTypeSound(r, contract, "Market", SetQuantity(quantity, submit), true);
    OnTicketSound(r, SetOrderType("Market", SetQuantity(quantity, submit)));
  }

  lemma LimitEntrySound(r: Request, price: real, quantity: nat, dryRun: bool)
    requires r.PlaceOrder? && r.orderType.LimitOrder? && r.limitPrice == Some(price) && r.quantity == quantity > 0
    ensures Sound(r, {},
              OnTicket(r.symbol, SetOrderType("Limit", SetLimitPrice(price, TickOf(r.symbol),
                SetQuantity(quantity, Submit(ButtonFor(r), dryRun, Return(Pending)))))), true)
  {
    var tick, contract := TickOf(r.symbol), ContractFacts(r.symbol);
    var typed := contract + {OfType("Limit")};
    var priced := typed + {PriceNear(price, tick)};
    assert priced + QuantityFacts(quantity) == ClickNeeds(r);
    var submit := Submit(ButtonFor(r), dryRun, Return(Pending));
    SubmitSound(r, ClickNeeds(r), dryRun, Return(Pending));
    SetQuantitySound(r, priced, quantity, submit, true);
    SetLimitPriceSound(r, typed, price, tick, SetQuantity(quantity, submit), true);
    SetOrderTypeSound(r, contract, "Limit", SetLimitPrice(price, tick, SetQuantity(quantity, submit)), true);
    OnTicketSound(r, SetOrderType("Limit", SetLimitPrice(price, tick, SetQuantity(quantity, submit))));
  }

  lemma TakeProfitSound(r: Request, dryRun: bool)
    requires r.TakeProfit? && r.quantity > 0
    ensures Sound(r, {}, ActionOf(r, dryRun), true)
  {
    var tick, contract := TickOf(r.symbol), ContractFacts(r.symbol) + {NotRefused};
    var typed := contract + {OfType("Limit")};
    var priced := typed + {PriceNear(r.target, tick)};
    assert priced + QuantityFacts(r.quantity) == ClickNeeds(r);
    var submit := Submit(ButtonFor(r), dryRun, Return(Pending));
    var quantity := SetQuantity(r.quantity, submit);
    var price := SetLimitPrice(r.target, tick, quantity);
    SubmitSound(r, ClickNeeds(r), dryRun, Return(Pending));
    SetQuantitySound(r, priced, r.quantity, submit, true);
    SetLimitPriceSound(r, typed, r.target, tick, quantity, true);
    SetOrderTypeSound(r, contract, "Limit", price, true);
    assert Sound(r, ContractFacts(r.symbol), ReadPosition(SetOrderType("Limit", price)), true);
    OnTicketSound(r, ReadPosition(SetOrderType("Limit", price)));
  }

  lemma TrailingStopSound(r: Request, dryRun: bool)
    requires r.TrailingStop? && r.quantity > 0
    ensures Sound(r, {}, ActionOf(r, dryRun), true)
  {
    var contract := ContractFacts(r.symbol) + {NotRefused};
    var typed := contract + {OfType("Trailing Stop")};
    var trailed := typed + {TrailReads(r.trailTicks as real)};
    assert trailed + QuantityFacts(r.quantity) == ClickNeeds(r);
    var submit := Submit(ButtonFor(r), dryRun, Return(Pending));
    var quantity := SetQuantity(r.quantity, submit);
    var trail := SetTrailDistance(r.trailTicks, quantity);
    SubmitSound(r, ClickNeeds(r), dryRun, Return(Pending));
    SetQuantitySound(r, trailed, r.quantity, submit, true);
    SetTrailDistanceSound(r, typed, r.trailTicks, quantity, true);
    SetOrderTypeSound(r, contract, "Trailing Stop", trail, true);
    assert Sound(r, ContractFacts(r.symbol), ReadPosition(SetOrderType("Trailing Stop", trail)), true);
    OnTicketSound(r, ReadPosition(SetOrderType("Trailing Stop", trail)));
  }

  // ----- Every action ends -------------------------------------------------------------------

  // A bound on the awaits left, on a page with `n` cards.
  function AwaitsLeft(p: Program, n: nat): nat
    decreases p
  {
    match p
    case Return(_) => 0
    case Throw => 0
    case Ask(next) => 1 + AwaitsLeft(next, n)
    case Scan(j, _, next) => (if j < n then n - j else 0) + 7 + AwaitsLeft(next, n)
    case Branch(_, yes, no) =>
      var (y, w) := (AwaitsLeft(yes, n), AwaitsLeft(no, n));
      1 + if y < w then w else y
    case Write(_, next) => 1 + AwaitsLeft(next, n)
    case Verify(_, next) => 1 + AwaitsLeft(next, n)
    case ReadPosition(next) => 1 + AwaitsLeft(next, n)
    case IdleCheck(next) => 1 + AwaitsLeft(next, n)
    case Click(_, next) => 1 + AwaitsLeft(next, n)
    case Confirm(left) => left + 2
  }

  predicate Ended(p: Program) {
    p.Return? || p.Throw?
  }

  lemma SwitchLength(prefix: string, next: Program, n: nat)
    ensures AwaitsLeft(SwitchContract(prefix, next), n) == 6 + AwaitsLeft(next, n)
  {
    var verified := Verify(OnContract(prefix), next);
    assert AwaitsLeft(Write(Contract, verified), n) == 2 + AwaitsLeft(next, n);
    assert AwaitsLeft(Ask(Write(Contract, verified)), n) == 3 + AwaitsLeft(next, n);
    assert AwaitsLeft(Write(Contract, Write(Contract, Ask(Write(Contract, verified)))), n) == 5 + AwaitsLeft(next, n);
  }

  lemma ScanShortens(call: nat, a: Action, cards: seq<Card>, reply: Reply)
    requires a.program.Scan?
    ensures var e := ScanStep(call, a, cards, reply);
            && e.cards == cards
            && AwaitsLeft(e.action.program, |cards|) < AwaitsLeft(a.program, |cards|)
  {
    SwitchLength(a.program.prefix, a.program.next, |cards|);
  }

  lemma CardShortens(call: nat, a: Action, cards: seq<Card>, reply: Reply)
    requires a.widget < |cards|
    requires a.program.Branch? || a.program.Write? || a.program.Verify? || a.program.Click?
    ensures var e := CardStep(call, a, cards, reply);
            && |e.cards| == |cards|
            && AwaitsLeft(e.action.program, |cards|) < AwaitsLeft(a.program, |cards|)
  {
  }

  lemma WaitShortens(call: nat, a: Action, cards: seq<Card>, reply: Reply)
    requires a.program.Confirm? || a.program.IdleCheck? || a.program.Ask? || a.program.ReadPosition?
    ensures var e := Resume(call, a, cards, reply);
            && e.cards == cards
            && AwaitsLeft(e.action.program, |cards|) < AwaitsLeft(a.program, |cards|)
  {
  }

  lemma ResumeShortens(call: nat, a: Action, cards: seq<Card>, reply: Reply)
    requires !Ended(a.program)
    ensures var e := Resume(call, a, cards, reply);
            && |e.cards| == |cards|
            && AwaitsLeft(e.action.program, |cards|) < AwaitsLeft(a.program, |cards|)
  {
    match a.program
    case Scan(_, _, _) => ScanShortens(call, a, cards, reply);
    case Confirm(_) => WaitShortens(call, a, cards, reply);
    case IdleCheck(_) => WaitShortens(call, a, cards, reply);
    case Ask(_) => WaitShortens(call, a, cards, reply);
    case ReadPosition(_) => WaitShortens(call, a, cards, reply);
    case _ => if a.widget < |cards| { CardShortens(call, a, cards, reply); }
  }

  // ----- Order types ---------------------------------------------------------------------------

  // What the page calls the requested type.
  function LabelOf(t: RequestedType): string {
    match t
    case MarketOrder => "Market"
    case LimitOrder => "Limit"
    case StopOrder => "Stop Market"
    case TrailingStopOrder => "Trailing Stop"
  }

  // An entry is clicked on its requested type exactly when that is market or limit.
  lemma EntryClickTypeIff(c: ClickRecord)
    requires GoodClick(c) && c.request.PlaceOrder?
    ensures c.card.orderType == LabelOf(c.request.orderType)
       <==> c.request.orderType.MarketOrder? || c.request.orderType.LimitOrder?
  {
    var wanted := OfType(if c.request.orderType.LimitOrder? then "Limit" else "Market");
    assert wanted in ClickNeeds(c.request);
    assert CardShows(c.card, wanted);
    assert "Stop Market"[0] != "Market"[0] && "Trailing Stop"[0] != "Market"[0];
  }

  // The quantity a request types, if it types one.
  function QuantityOf(r: Request): Option<nat> {
    match r
    case PlaceOrder(_, _, _, quantity, _, _) => if quantity > 0 then Some(quantity) else None
    case Flatten(_, _, quantity) => if quantity > 0 then Some(quantity) else None
    case TrailingStop(_, _, quantity, _) => if quantity > 0 then Some(quantity) else None
    case TakeProfit(_, _, quantity, _) => if quantity > 0 then Some(quantity) else None
    case ClosePosition(_) => None
    case CancelResting(_) => None
  }

  // A good click's box holds exactly the quantity, and so does its button unless the
  // button's other text mentions the same number.
  lemma GoodClickQuantity(c: ClickRecord, before: string, shown: string, after: string)
    requires GoodClick(c) && QuantityOf(c.request).Some?
    requires c.card.buttonText == before + shown + after && Frames(before, after) && IsNumber(shown)
    ensures var digits := Decimal(QuantityOf(c.request).value);
            && DigitsOf(c.card.qtyBox) == digits
            && (shown == digits || MentionsExactly(before, digits) || MentionsExactly(after, digits))
  {
    var digits := Decimal(QuantityOf(c.request).value);
    assert BoxReads(digits) in ClickNeeds(c.request) && ButtonMentions(digits) in ClickNeeds(c.request);
    assert CardShows(c.card, BoxReads(digits)) && CardShows(c.card, ButtonMentions(digits));
    MentionsInParts(before, shown, after, digits);
  }
}
