// With dry runs switched on, or for a request the broker refuses outright, no button is
// ever clicked.

module DryRuns {
  import opened Options
  import opened Characters
  import opened OrderTicket
  import opened ObedientPage
  import opened TicketBroker
  import C = PromiseChain

  // No path of `p` clicks, and every path that ends is rejected, an idle cancel apart.
  ghost predicate IsClickless(r: Request, p: Program)
    decreases p
  {
    match p
    case Return(result) => result.Rejected? || (r.CancelResting? && result.Filled?)
    case Throw => true
    case Ask(next) => IsClickless(r, next)
    case Scan(_, _, next) => IsClickless(r, next)
    case Branch(_, yes, no) => IsClickless(r, yes) && IsClickless(r, no)
    case Write(_, next) => IsClickless(r, next)
    case Verify(_, next) => IsClickless(r, next)
    case ReadPosition(next) => IsClickless(r, next)
    case IdleCheck(next) => r.CancelResting? && IsClickless(r, next)
    case Click(_, _) => false
    case Confirm(_) => false
  }

  lemma SwitchIsClickless(r: Request, prefix: string, next: Program)
    requires IsClickless(r, next)
    ensures IsClickless(r, SwitchContract(prefix, next))
  {
    var verified := Verify(OnContract(prefix), next);
    assert IsClickless(r, Ask(Write(Contract, verified)));
    assert IsClickless(r, Write(Contract, Write(Contract, Ask(Write(Contract, verified)))));
  }

  lemma OrderTypeIsClickless(r: Request, wanted: string, next: Program)
    requires IsClickless(r, next)
    ensures IsClickless(r, SetOrderType(wanted, next))
  {
    assert IsClickless(r, Ask(Write(OrderTypeField, Verify(OfType(wanted), next))));
  }

  lemma QuantityIsClickless(r: Request, quantity: nat, next: Program)
    requires IsClickless(r, next)
    ensures IsClickless(r, SetQuantity(quantity, next))
  {
    var digits := Decimal(quantity);
    var verified := Verify(BoxReads(digits), Verify(ButtonMentions(digits), next));
    assert IsClickless(r, verified);
    assert IsClickless(r, Write(Quantity, Write(Quantity, verified)));
  }

  lemma PriceIsClickless(r: Request, price: real, next: Program)
    requires IsClickless(r, next)
    ensures IsClickless(r, SetLimitPrice(price, TickOf(r.symbol), next))
  {
    assert IsClickless(r, Write(LimitPrice, Verify(PriceNear(price, TickOf(r.symbol)), next)));
  }

  lemma TrailIsClickless(r: Request, ticks: int, next: Program)
    requires IsClickless(r, next)
    ensures IsClickless(r, SetTrailDistance(ticks, next))
  {
    assert IsClickless(r, Write(TrailDistance, Verify(TrailReads(ticks as real), next)));
  }

  lemma OnTicketIsClickless(r: Request, body: Program)
    requires GetInstrument(r.symbol).Some? ==> IsClickless(r, body)
    ensures IsClickless(r, OnTicket(r.symbol, body))
  {
    assert IsClickless(r, Ask(Return(Rejected)));
    if GetInstrument(r.symbol).Some? {
      assert IsClickless(r, Ask(Scan(0, GetInstrument(r.symbol).value.prefix, body)));
    }
  }

  lemma DryBodyIsClickless(r: Request, quantity: nat, next: Program)
    ensures IsClickless(r, SetQuantity(quantity, Submit(ButtonFor(r), true, next)))
  {
    var submit := Submit(ButtonFor(r), true, next);
    assert IsClickless(r, Ask(Return(Rejected)));
    QuantityIsClickless(r, quantity, submit);
  }

  lemma ActionIsClickless(r: Request, dryRun: bool)
    requires dryRun || !IsWellFormed(r)
    ensures IsClickless(r, ActionOf(r, dryRun))
  {
    if GetInstrument(r.symbol).None? {
      assert IsClickless(r, Ask(Return(Rejected)));
    } else if dryRun && IsWellFormed(r) {
      DryActionIsClickless(r);
    }
  }

  lemma DryActionIsClickless(r: Request)
    requires IsWellFormed(r)
    ensures IsClickless(r, ActionOf(r, true))
  {
    var next, tick := AfterClick(r), TickOf(r.symbol);
    var submit := Submit(ButtonFor(r), true, next);
    assert IsClickless(r, Ask(Return(Rejected)));
    match r
    case PlaceOrder(_, _, orderType, quantity, limitPrice, _) =>
      var sized := SetQuantity(quantity, submit);
      DryBodyIsClickless(r, quantity, next);
      if orderType.LimitOrder? {
        PriceIsClickless(r, limitPrice.value, sized);
        OrderTypeIsClickless(r, "Limit", SetLimitPrice(limitPrice.value, tick, sized));
        OnTicketIsClickless(r, SetOrderType("Limit", SetLimitPrice(limitPrice.value, tick, sized)));
      } else {
        OrderTypeIsClickless(r, "Market", sized);
        OnTicketIsClickless(r, SetOrderType("Market", sized));
      }
    case Flatten(_, _, quantity) =>
      DryBodyIsClickless(r, quantity, next);
      OrderTypeIsClickless(r, "Market", SetQuantity(quantity, submit));
      OnTicketIsClickless(r, SetOrderType("Market", SetQuantity(quantity, submit)));
    case TrailingStop(_, _, quantity, ticks) =>
      var trailed := SetTrailDistance(ticks, SetQuantity(quantity, submit));
      DryBodyIsClickless(r, quantity, next);
      TrailIsClickless(r, ticks, SetQuantity(quantity, submit));
      OrderTypeIsClickless(r, "Trailing Stop", trailed);
      OnTicketIsClickless(r, ReadPosition(SetOrderType("Trailing Stop", trailed)));
    case TakeProfit(_, _, quantity, target) =>
      var priced := SetLimitPrice(target, tick, SetQuantity(quantity, submit));
      DryBodyIsClickless(r, quantity, next);
      PriceIsClickless(r, target, SetQuantity(quantity, submit));
      OrderTypeIsClickless(r, "Limit", priced);
      OnTicketIsClickless(r, ReadPosition(SetOrderType("Limit", priced)));
    case ClosePosition(_) => OnTicketIsClickless(r, submit);
    case CancelResting(_) => OnTicketIsClickless(r, IdleCheck(submit));
  }

  // ----- Over every run ------------------------------------------------------------------------

  // At `s`, `e` begins call `i` as a dry run, or with a request that is not well formed.
  predicate BeginsIdle(s: State, e: Event, i: nat)
    requires Sized(s)
  {
    && e.Begin? && e.call == i && C.CanStart(s.chain, i)
    && (e.dryRun || !IsWellFormed(s.actions[i].request))
  }

  ghost predicate BegunIdle(cards: seq<Card>, events: seq<Event>, i: nat) {
    exists k: nat :: BegunIdleAt(cards, events, k, i)
  }

  ghost predicate BegunIdleAt(cards: seq<Card>, events: seq<Event>, k: nat, i: nat) {
    k < |events| && BeginsIdle(Run(cards, events[..k]), events[k], i)
  }

  lemma BegunBefore(cards: seq<Card>, front: seq<Event>, last: Event, i: nat)
    requires BegunIdle(cards, front + [last], i)
    ensures BegunIdle(cards, front, i) || BeginsIdle(Run(cards, front), last, i)
  {
    var events := front + [last];
    var k: nat :| BegunIdleAt(cards, events, k, i);
    assert events[..k] == if k < |front| then front[..k] else front;
    if k < |front| { assert BegunIdleAt(cards, front, k, i); }
  }

  ghost predicate IsIdle(s: State, i: nat)
    requires Sized(s)
  {
    && i < |s.chain| && s.chain[i].started
    && !s.actions[i].clicked && IsClickless(s.actions[i].request, s.actions[i].program)
  }

  lemma ResumeKeepsClickless(call: nat, a: Action, cards: seq<Card>, reply: Reply)
    requires IsClickless(a.request, a.program)
    ensures var e := Resume(call, a, cards, reply);
            e.action.request == a.request && e.action.clicked == a.clicked && IsClickless(a.request, e.action.program)
  {
    if a.program.Scan? {
      SwitchIsClickless(a.request, a.program.prefix, a.program.next);
    }
  }

  lemma StepKeepsIdle(s: State, e: Event, i: nat)
    requires Inv(s) && (IsIdle(s, i) || BeginsIdle(s, e, i))
    ensures IsIdle(Step(s, e), i)
  {
    if BeginsIdle(s, e, i) {
      C.StartKeepsOrder(s.chain, i, true);
      ActionIsClickless(s.actions[i].request, e.dryRun);
    } else if e.Await? && e.call == i {
      ResumeKeepsClickless(i, s.actions[i], s.cards, e.reply);
    }
  }

  lemma {:induction false} RunKeepsIdle(cards: seq<Card>, events: seq<Event>, i: nat)
    requires BegunIdle(cards, events, i)
    ensures IsIdle(Run(cards, events), i)
  {
    var k: nat :| BegunIdleAt(cards, events, k, i);
    var n := |events| - 1;
    var front, last := events[..n], events[n];
    assert events == front + [last];
    RunKeepsInv(cards, front);
    BegunBefore(cards, front, last, i);
    if BegunIdle(cards, front, i) { RunKeepsIdle(cards, front, i); }
    StepKeepsIdle(Run(cards, front), last, i);
  }

  // In every interleaving, a call begun as a dry run, or with a request that is not well
  // formed, makes no click, and is reported as rejected unless it cancels nothing.
  lemma DryRunsNeverClick(cards: seq<Card>, events: seq<Event>, i: nat)
    requires BegunIdle(cards, events, i)
    ensures var s := Run(cards, events);
            && i < |s.chain|
            && (forall k :: 0 <= k < |s.clicks| ==> s.clicks[k].call != i)
            && (s.chain[i].run.Fulfilled? ==>
                  || s.actions[i].program == Return(Rejected)
                  || (s.actions[i].request.CancelResting? && s.actions[i].program == Return(Filled)))
  {
    RunKeepsInv(cards, events);
    RunKeepsIdle(cards, events, i);
  }
}
