// The promise-chain idiom shared by the order ticket (`withTicket`) and the
// assistant chat (`sendChatMessage`): every call appends
//
//     run  = chain.then(action [, action])
//     chain = run.catch(() => undefined)
//
// A step happens between two awaits, so a run of the system is any sequence of
// the events below, in any order.

module PromiseChain {

  datatype Outcome = Pending | Fulfilled | Rejected

  // One call: has its action been entered, how did `run` settle, and how did the
  // `catch` promise behind it settle.
  datatype Link = Link(started: bool, run: Outcome, tail: Outcome)

  type Chain = seq<Link>

  const FRESH_LINK := Link(false, Pending, Pending)

  // The promise call `i` was chained onto.
  function Head(c: Chain, i: nat): Outcome
    requires i < |c|
  {
    if i == 0 then Fulfilled else c[i - 1].tail
  }

  function Call(c: Chain): Chain {
    c + [FRESH_LINK]
  }

  predicate CanStart(c: Chain, i: nat) {
    i < |c| && !c[i].started && c[i].run.Pending? && Head(c, i) != Pending
  }

  // The reaction to the head settling. With only a fulfilment handler
  // (`onRejected` false) a rejected head is passed straight through.
  function Start(c: Chain, i: nat, onRejected: bool): Chain
    requires CanStart(c, i)
  {
    if Head(c, i).Rejected? && !onRejected
    then c[i := c[i].(run := Rejected)]
    else c[i := c[i].(started := true)]
  }

  // The action of call `i` has been entered and has not returned.
  predicate Running(c: Chain, i: nat) {
    i < |c| && c[i].started && c[i].run.Pending?
  }

  function Finish(c: Chain, i: nat, ok: bool): Chain
    requires Running(c, i)
  {
    c[i := c[i].(run := if ok then Fulfilled else Rejected)]
  }

  predicate CanSettle(c: Chain, i: nat) {
    i < |c| && c[i].tail.Pending? && !c[i].run.Pending?
  }

  // `catch(() => undefined)` fulfils whichever way `run` went.
  function Settle(c: Chain, i: nat): Chain
    requires CanSettle(c, i)
  {
    c[i := c[i].(tail := Fulfilled)]
  }

  ghost predicate Ordered(c: Chain) {
    && (forall i :: 0 <= i < |c| ==> c[i].tail != Rejected)
    && (forall i :: 0 <= i < |c| && c[i].tail.Fulfilled? ==> !c[i].run.Pending?)
    && (forall i :: 0 <= i < |c| && !c[i].run.Pending? ==> c[i].started)
    && (forall i, j :: 0 <= i < j < |c| && c[j].started ==> c[i].tail.Fulfilled?)
  }

  lemma CallKeepsOrder(c: Chain)
    requires Ordered(c)
    ensures Ordered(Call(c))
  {
  }

  // A head is never rejected, so a single handler is as good as two.
  lemma StartKeepsOrder(c: Chain, i: nat, onRejected: bool)
    requires Ordered(c) && CanStart(c, i)
    ensures Ordered(Start(c, i, onRejected))
    ensures Start(c, i, onRejected) == c[i := c[i].(started := true)]
  {
    if i > 0 {
      assert c[i - 1].tail.Fulfilled? && c[i - 1].started;
    }
  }

  lemma FinishKeepsOrder(c: Chain, i: nat, ok: bool)
    requires Ordered(c) && Running(c, i)
    ensures Ordered(Finish(c, i, ok))
  {
  }

  lemma SettleKeepsOrder(c: Chain, i: nat)
    requires Ordered(c) && CanSettle(c, i)
    ensures Ordered(Settle(c, i))
  {
  }

  // At most one action is between its start and its end, and starts follow call order.
  lemma OneRunning(c: Chain, i: nat, j: nat)
    requires Ordered(c) && Running(c, i) && j < |c| && c[j].started
    ensures j <= i
    ensures Running(c, j) ==> j == i
  {
  }

  // Nothing a call does can wedge the chain: while any link is unsettled, the
  // first one can be started, is running, or can be settled.
  lemma {:induction false} NeverWedged(c: Chain, n: nat)
    requires Ordered(c) && n < |c| && c[n].tail.Pending?
    ensures exists i: nat :: i <= n && (CanStart(c, i) || Running(c, i) || CanSettle(c, i))
    decreases n
  {
    if n > 0 && c[n - 1].tail.Pending? {
      NeverWedged(c, n - 1);
    } else {
      assert CanStart(c, n) || Running(c, n) || CanSettle(c, n);
    }
  }
}
