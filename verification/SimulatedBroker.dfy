// The paper-trading broker: simulated fills one tick off the reference price, a
// bracket per position, and a stop that trails the most favourable price. Prices are
// exact numbers; orders are numbered as the id counter numbers them.

module SimulatedBroker {
  import opened Options

  const DEFAULT_SLIPPAGE_TICKS: real := 1.0
  const TICK_SIZE: real := 0.25

  datatype OrderSide = Buy | Sell

  datatype Position = Position(accountId: string, symbol: string, side: OrderSide, quantity: real, avgPrice: real)

  datatype Bracket = Bracket(
    side: OrderSide,
    quantity: real,
    entryPrice: real,
    stopPrice: real,
    takeProfitPrice: Option<real>,
    trailTicks: Option<real>,
    highestFavorable: real)

  datatype OrderStatus = Pending | Filled | Cancelled

  datatype Order = Order(accountId: string, symbol: string, side: OrderSide, quantity: real, status: OrderStatus)

  datatype Request = Request(
    accountId: string,
    symbol: string,
    side: OrderSide,
    quantity: real,
    referencePrice: Option<real>,
    stopLossPrice: Option<real>,
    takeProfitPrice: Option<real>,
    trailTicks: Option<real>)

  datatype Result = Rejected | FilledAt(orderId: nat, price: real)

  // ----- Keys ------------------------------------------------------------------------

  function Key(accountId: string, symbol: string): string {
    accountId + ":" + symbol
  }

  // Two accounts can be given the same key, for some symbols, exactly when one name
  // runs on from the other through a colon.
  lemma AccountsShareKeysIff(a: string, b: string)
    requires a != b
    ensures (exists x, y :: Key(a, x) == Key(b, y)) <==> a + ":" <= b || b + ":" <= a
  {
    if x, y :| Key(a, x) == Key(b, y) {
      SharedKeyPrefix(a, x, b, y);
    }
    if a + ":" <= b {
      assert Key(a, b[|a| + 1..] + ":") == Key(b, "");
    } else if b + ":" <= a {
      assert Key(a, "") == Key(b, a[|b| + 1..] + ":");
    }
  }

  lemma SharedKeyPrefix(a: string, x: string, b: string, y: string)
    requires Key(a, x) == Key(b, y)
    ensures a == b || a + ":" <= b || b + ":" <= a
  {
    var whole := Key(a, x);
    assert whole[..|a|] == a && whole[..|a| + 1] == a + ":";
    assert whole[..|b|] == b && whole[..|b| + 1] == b + ":";
    assert |a| < |b| ==> whole[..|b|][..|a| + 1] == whole[..|a| + 1];
    assert |b| < |a| ==> whole[..|a|][..|b| + 1] == whole[..|b| + 1];
  }

  // Within one account no two symbols share a key.
  lemma SymbolsNeverShareKeys(a: string, x: string, y: string)
    requires Key(a, x) == Key(a, y)
    ensures x == y
  {
    assert Key(a, x)[|a| + 1..] == x && Key(a, y)[|a| + 1..] == y;
  }

  // ----- The trailing stop ---------------------------------------------------------------

  // A fill is one tick worse than its reference: closed at the reference price, it
  // has lost exactly that tick.
  function FillPrice(side: OrderSide, reference: real): (fill: real)
    ensures Points(side, fill, reference) == -TICK_SIZE
  {
    var slippage := TICK_SIZE * DEFAULT_SLIPPAGE_TICKS;
    if side == Buy then reference + slippage else reference - slippage
  }

  // Points made from `entry` to `exit` on a position of this side.
  function Points(side: OrderSide, entry: real, exit: real): real {
    if side == Buy then exit - entry else entry - exit
  }

  function TrailDistance(b: Bracket): real
    requires b.trailTicks.Some?
  {
    TICK_SIZE * b.trailTicks.value
  }

  function Trail(b: Bracket, price: real): Bracket {
    if b.trailTicks.None? then b
    else if b.side == Buy then
      var favorable := if b.highestFavorable >= price then b.highestFavorable else price;
      var newStop := favorable - TrailDistance(b);
      b.(highestFavorable := favorable, stopPrice := if newStop > b.stopPrice then newStop else b.stopPrice)
    else
      var favorable := if b.highestFavorable <= price then b.highestFavorable else price;
      var newStop := favorable + TrailDistance(b);
      b.(highestFavorable := favorable, stopPrice := if newStop < b.stopPrice then newStop else b.stopPrice)
  }

  function TrailAll(b: Bracket, path: seq<real>): Bracket {
    if path == [] then b else Trail(TrailAll(b, path[..|path| - 1]), path[|path| - 1])
  }

  lemma TrailStep(first: Bracket, path: seq<real>, price: real)
    ensures TrailAll(first, path + [price]) == Trail(TrailAll(first, path), price)
  {
    assert (path + [price])[..|path|] == path;
  }

  // `top` is the greatest (least, for a short) of the fill and every price seen.
  ghost predicate IsMostFavorable(side: OrderSide, fill: real, path: seq<real>, top: real) {
    && (top == fill || top in path)
    && (if side == Buy then fill <= top && forall p :: p in path ==> p <= top
        else top <= fill && forall p :: p in path ==> top <= p)
  }

  // `b` after a path of prices: a long's stop is the greater of its first stop and
  // the highest price less the trail, a short's the mirror image.
  ghost predicate IsTrailed(first: Bracket, path: seq<real>, b: Bracket) {
    && b == first.(stopPrice := b.stopPrice, highestFavorable := b.highestFavorable)
    && if first.trailTicks.None? || path == [] then b == first
       else
         && IsMostFavorable(first.side, first.highestFavorable, path, b.highestFavorable)
         && b.stopPrice ==
              if first.side == Buy then Max(first.stopPrice, b.highestFavorable - TrailDistance(first))
              else Min(first.stopPrice, b.highestFavorable + TrailDistance(first))
  }

  function Max(x: real, y: real): real { if x >= y then x else y }

  function Min(x: real, y: real): real { if x <= y then x else y }

  lemma {:induction false} TrailedStopHasClosedForm(first: Bracket, path: seq<real>)
    ensures IsTrailed(first, path, TrailAll(first, path))
  {
    if path != [] {
      var front := path[..|path| - 1];
      TrailedStopHasClosedForm(first, front);
      assert path == front + [path[|path| - 1]];
      assert forall p :: p in path <==> p in front || p == path[|path| - 1];
    }
  }

  // ... which leaves nothing open: the path decides the bracket.
  lemma ClosedFormDetermines(first: Bracket, path: seq<real>, b: Bracket)
    requires IsTrailed(first, path, b)
    ensures b == TrailAll(first, path)
  {
    TrailedStopHasClosedForm(first, path);
    var c := TrailAll(first, path);
    assert b.highestFavorable == c.highestFavorable;
  }

  ghost predicate AtLeastAsTight(side: OrderSide, stop: real, was: real) {
    if side == Buy then was <= stop else stop <= was
  }

  // However prices go on, a stop never gives ground.
  lemma {:induction false} StopsOnlyTighten(first: Bracket, path: seq<real>, more: seq<real>)
    ensures AtLeastAsTight(first.side, TrailAll(first, path + more).stopPrice, TrailAll(first, path).stopPrice)
  {
    if more == [] {
      assert path + more == path;
    } else {
      assert (path + more)[..|path + more| - 1] == path + more[..|more| - 1];
      StopsOnlyTighten(first, path, more[..|more| - 1]);
      TrailedStopHasClosedForm(first, path + more[..|more| - 1]);
    }
  }

  // Only the set of prices matters, not the order they came in.
  lemma PathOrderIsIrrelevant(first: Bracket, path: seq<real>, other: seq<real>)
    requires forall p :: p in path <==> p in other
    ensures TrailAll(first, path) == TrailAll(first, other)
  {
    TrailedStopHasClosedForm(first, path);
    if path != [] {
      var p := path[0];
      assert p in path;
    }
    if other != [] {
      var p := other[0];
      assert p in other;
    }
    ClosedFormDetermines(first, other, TrailAll(first, path));
  }

  method TrailBracket(before: Bracket, currentPrice: real) returns (bracket: Bracket)
    ensures bracket == Trail(before, currentPrice)
  {
    bracket := before;
    if bracket.trailTicks.None? { return; }
    var trailDistance := TICK_SIZE * bracket.trailTicks.value;
    if bracket.side == Buy {
      bracket := bracket.(highestFavorable := Max(bracket.highestFavorable, currentPrice));
      var newStop := bracket.highestFavorable - trailDistance;
      if newStop > bracket.stopPrice { bracket := bracket.(stopPrice := newStop); }
    } else {
      bracket := bracket.(highestFavorable := Min(bracket.highestFavorable, currentPrice));
      var newStop := bracket.highestFavorable + trailDistance;
      if newStop < bracket.stopPrice { bracket := bracket.(stopPrice := newStop); }
    }
  }

  // ----- The broker ------------------------------------------------------------------------

  class Broker {
    var positions: map<string, Position>
    var brackets: map<string, Bracket>
    var orders: map<nat, Order>
    var nextOrderId: nat
    // Each bracket as placed, and the prices it has been trailed over since.
    ghost var placed: map<string, Bracket>
    ghost var paths: map<string, seq<real>>

    ghost predicate Valid()
      reads this
    {
      && brackets.Keys <= positions.Keys
      && brackets.Keys == placed.Keys == paths.Keys
      && (forall key :: key in brackets ==> brackets[key] == TrailAll(placed[key], paths[key]))
      && (forall key :: key in placed ==> placed[key].highestFavorable == placed[key].entryPrice)
      && (forall id :: id in orders ==> id < nextOrderId && orders[id].status == Filled)
    }

    constructor (firstOrderId: nat)
      ensures Valid() && positions == map[] && brackets == map[] && orders == map[] && nextOrderId == firstOrderId
    {
      positions, brackets, orders, nextOrderId := map[], map[], map[], firstOrderId;
      placed, paths := map[], map[];
    }

    method SetBracket(key: string, bracket: Bracket)
      requires Valid() && key in positions && bracket.highestFavorable == bracket.entryPrice
      modifies `brackets, `placed, `paths
      ensures Valid()
      ensures brackets == old(brackets)[key := bracket]
      ensures placed == old(placed)[key := bracket] && paths == old(paths)[key := []]
    {
      brackets := brackets[key := bracket];
      placed, paths := placed[key := bracket], paths[key := []];
    }

    method PlaceOrder(request: Request) returns (result: Result)
      requires Valid()
      modifies this
      ensures Valid()
      ensures request.referencePrice.None? ==>
                result == Rejected && positions == old(positions) && brackets == old(brackets) && orders == old(orders)
                && nextOrderId == old(nextOrderId) && placed == old(placed) && paths == old(paths)
      ensures request.referencePrice.Some? ==>
                var key := Key(request.accountId, request.symbol);
                var fill := FillPrice(request.side, request.referencePrice.value);
                && result == FilledAt(old(nextOrderId), fill) && nextOrderId == old(nextOrderId) + 1
                && positions == old(positions)[key := Position(request.accountId, request.symbol, request.side,
                                                               request.quantity, fill)]
                && orders == old(orders)[old(nextOrderId) :=
                     Order(request.accountId, request.symbol, request.side, request.quantity, Filled)]
                && (request.stopLossPrice.None? ==>
                    brackets == old(brackets) && placed == old(placed) && paths == old(paths))
                && (request.stopLossPrice.Some? ==>
                      && brackets == old(brackets)[key := Bracket(request.side, request.quantity, fill,
                           request.stopLossPrice.value, request.takeProfitPrice, request.trailTicks, fill)]
                      && placed == old(placed)[key := brackets[key]] && paths == old(paths)[key := []])
      // A bracket can outlive the side it was made for: after a fill it has the
      // position's side exactly when the order brought a stop or kept the old side.
      ensures var key := Key(request.accountId, request.symbol);
              request.referencePrice.Some? && key in brackets ==>
                && (request.stopLossPrice.None? ==> key in old(brackets))
                && (brackets[key].side == positions[key].side
                    <==> request.stopLossPrice.Some? || old(brackets)[key].side == request.side)
    {
      if request.referencePrice.None? { return Rejected; }
      var orderId := nextOrderId;
      nextOrderId := nextOrderId + 1;
      var slippage := TICK_SIZE * DEFAULT_SLIPPAGE_TICKS;
      var fillPrice := if request.side == Buy then request.referencePrice.value + slippage
                       else request.referencePrice.value - slippage;
      var key := Key(request.accountId, request.symbol);
      var position := Position(request.accountId, request.symbol, request.side, request.quantity, fillPrice);
      positions := positions[key := position];
      if request.stopLossPrice.Some? {
        SetBracket(key, Bracket(request.side, request.quantity, fillPrice,
          request.stopLossPrice.value, request.takeProfitPrice, request.trailTicks, fillPrice));
      }
      orders := orders[orderId := Order(request.accountId, request.symbol, request.side, request.quantity, Filled)];
      return FilledAt(orderId, fillPrice);
    }

    // Every simulated order fills at once, so there is never one to cancel.
    method CancelOrder(orderId: nat) returns (cancelled: bool)
      modifies `orders
      ensures cancelled <==> orderId in old(orders) && old(orders)[orderId].status == Pending
      ensures cancelled ==> orders == old(orders)[orderId := old(orders)[orderId].(status := Cancelled)]
      ensures !cancelled ==> orders == old(orders)
      ensures old(Valid()) ==> Valid() && !cancelled
    {
      if orderId !in orders || orders[orderId].status != Pending { return false; }
      orders := orders[orderId := orders[orderId].(status := Cancelled)];
      return true;
    }

    // The realised points; what is left has neither the position nor its bracket.
    method ClosePosition(accountId: string, symbol: string, exitPrice: real) returns (points: real)
      requires Valid()
      modifies `positions, `brackets, `placed, `paths
      ensures Valid()
      ensures var key := Key(accountId, symbol);
              && positions == old(positions) - {key} && brackets == old(brackets) - {key}
              && placed == old(placed) - {key} && paths == old(paths) - {key}
              && points == if key !in old(positions) then 0.0
                           else Points(old(positions)[key].side, old(positions)[key].avgPrice, exitPrice)
    {
      var key := Key(accountId, symbol);
      var position := if key in positions then Some(positions[key]) else None;
      positions := positions - {key};
      brackets := brackets - {key};
      placed, paths := placed - {key}, paths - {key};
      if position.None? { return 0.0; }
      var direction := if position.value.side == Buy then 1.0 else -1.0;
      points := (exitPrice - position.value.avgPrice) * direction;
    }

    method UpdateTrailingStop(accountId: string, symbol: string, currentPrice: real)
      requires Valid()
      modifies `brackets, `paths
      ensures Valid()
      ensures var key := Key(accountId, symbol);
              && (key !in old(brackets) ==> brackets == old(brackets) && paths == old(paths))
              && (key in old(brackets) ==>
                    && paths == old(paths)[key := old(paths)[key] + [currentPrice]]
                    && brackets == old(brackets)[key := Trail(old(brackets)[key], currentPrice)])
    {
      var key := Key(accountId, symbol);
      if key !in brackets { return; }
      TrailStep(placed[key], paths[key], currentPrice);
      var bracket := TrailBracket(brackets[key], currentPrice);
      brackets := brackets[key := bracket];
      paths := paths[key := paths[key] + [currentPrice]];
    }

    // Whatever calls came before, a remembered stop is the closed form over the
    // prices since its order, and it belongs to a position.
    method GetBracketStopPrice(accountId: string, symbol: string) returns (stop: Option<real>)
      requires Valid()
      ensures var key := Key(accountId, symbol);
              && (stop.Some? <==> key in brackets)
              && (stop.Some? ==>
                    && key in positions && stop.value == brackets[key].stopPrice
                    && IsTrailed(placed[key], paths[key], brackets[key])
                    && AtLeastAsTight(placed[key].side, stop.value, placed[key].stopPrice))
    {
      var key := Key(accountId, symbol);
      if key !in brackets { return None; }
      TrailedStopHasClosedForm(placed[key], paths[key]);
      return Some(brackets[key].stopPrice);
    }
  }
}
