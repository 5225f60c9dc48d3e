# TeraTrade: verified models of the order ticket, the plan scheduler and the market analytics

A Dafny 4.11 model of the parts of TeraTrade's backend whose correctness cannot be
read off one function: code that interleaves at every `await`, caches in front of
tables and feeds, and the arithmetic between raw bars and a resting order price.
`dafny verify dfyconfig.toml` checks everything.

## What is modelled

**Interleaved systems.** A step happens between two awaits. Each system is a total
step function over a state and an event, events arrive in any order, and whatever
comes back from a page, a model, a database or a clock is part of the event. The
theorems hold after every sequence of events.

- `PromiseChain` is the idiom `run = chain.then(action); chain = run.catch(...)`.
- `OrderTicket` and `TicketBroker`: TopstepX has one order ticket for all contracts.
  Every operation of `orderTicket.ts` and every `...OnTicket` action of the broker is a
  program cut at its awaits; `Sound` checks along every path of a program that each click
  knows, from what was read back and not disturbed since, what the request needs.
  `ObedientPage` says that each request is carried out on a page that does what it is
  told, `DryRuns` that dry runs click nothing, and `RejectedClicks` when an order that has
  been clicked is reported as rejected.
  The class `BrowserControlBroker` is the object those steps update, in place.
- `ChatQueue`: the same chain protects the AssistantMessage table, through tool loops,
  failures and the fallback from Ollama to Gemini. `TurnMerging` is the history sent on.
- `PlanScheduler`, `PlanTicks` and `Session`: overlapping timer ticks, plan builds asked
  for in chat, failed model turns, the session override cell and zone writes.
- `DealerGexCache`: single-flight fetches behind a time-to-live, and the staleness clock.
- `ZoneCache`: the plan zones' cache, first one call at a time against its table
  (the class `ZoneStore`), then interleaved.

**Pipelines and loops.** `BarAggregation`, `VolumeProfile`, `Vwap`, `SmartEntry` (bars to
a resting entry price); `DealerGex` (option chain to walls and flip);
`PivotDetection` and `SupportResistance`; `ChatStream` (streamed model replies);
`OrderFlow` (listener and bounded history); `Drawdown`; `SimulatedBroker` (brackets and
the trailing stop).
Loops are methods proved against specification functions, and the lemmas are about those.
`Characters` (digits, and the pattern that looks for a number in a text), `Sorting`,
`Sequences` and `Options` hold what several modules share.

Prices, volumes and gamma are exact reals, times integer milliseconds.

## What came out

Properties that hold with an exact condition, or not at all:

- **Quantity on the button.** `setQuantity` looks for the digits anywhere in the Buy
  button's text, and a limit order's button also shows its price. The check forces the
  quantity shown exactly when the rest of the text does not mention the same digits
  (`Characters.PatternForcesNumberIff`), so on a market or trailing-stop button if that
  carries no other digits, which is assumed (`TicketBroker.ClicksShowTheirQuantity`); but
  a limit entry for 25 is clicked on "BUY +66 @ 71.25"
  (`ObedientPage.WrongQuantityCanBeClicked`). What every click has is the exact quantity
  in the box.
- **Dealer levels, cold start.** `getDealerLevels` reads the clock before it awaits the
  history rows, so a non-null answer can be over fifteen minutes old when it is handed
  out (`DealerGexCache.ColdAnswerCanBeStale`). Every such answer is fresh, whatever the
  rows, exactly when the wait is zero (`ColdAnswersFreshIff`); in general it is younger
  than fifteen minutes plus the wait, which is attained (`ColdAnswerAgeBound`). Every
  other answer is exact (`WarmAnswersAreExact`).
- **Zone cache.** What a get puts into the cache is current exactly when, since its query
  was answered, no write of the same plan has committed or the last one that did stored
  the same rows (`ZoneCache.FillIsCurrentIff`), and a later hit on it likewise
  (`HitIsCurrentIff`). Otherwise replaced rows are served for up to thirty seconds
  (`OvertakenReadServesOldRows`); apart from that, a hit is old only while a committed
  write has yet to drop it (`HitsAreCurrentUnlessOvertaken`).
- **Chat history.** The new user turn is pushed after the merge, so two plain user turns
  are sent in a row exactly when the stored history ends with one
  (`TurnMerging.SentHistoryIsSettledIff`).
- **Tick rounding.** Every reference between the signal price and the structure stays
  between them after rounding exactly when neither limit rounds past itself
  (`SmartEntry.RoundedEntriesStayFavorableIff`), which grid prices never do. Profile
  levels are off the grid: six candles with an ATR of 8 rest a long a tenth of a point above
  its signal price (`OffGridEntryCanCross`).
- **Volume profile.** A bar whose high falls in a lower bucket than its low loses its
  volume (`VolumeProfile.ProfileConservesVolume` says exactly what is kept). The `break`
  of the value-area loop can be taken exactly when some level above the point of control
  has less than -1 and less than every level below it (`BreakIsPossibleIff`,
  `BreaksOffIff`, `NegativeVolumeCanBreak`).
- **Drawdown.** `maxDrawdown` is not a number exactly when the running peak is zero
  somewhere (`Drawdown.MaxDrawdown`); its caller's filter rules that out
  (`ReportedDrawdown`).
- **Simulated broker.** After a fill a bracket has its position's side exactly when the
  order brought a stop or kept the old side (`SimulatedBroker.Broker.PlaceOrder`), and
  two accounts can share a position key exactly when one name runs on from the other
  through a colon (`AccountsShareKeysIff`).
- **Plan writes.** `dailyPlanSessionOverride.ts` says in its header that manual chat
  requests are unaffected by the override. The code resolves every plan write through the
  same cell, so a chat tool call strays from its own session exactly while a turn for
  another session is running (`PlanScheduler.ChatWriteStraysIff`), and in every
  pre-trigger window it can (`ChatWriteCanStray`).
- **Order types.** `placeOrder` distinguishes only `LIMIT`; a stop or trailing-stop
  request is clicked as a market order, so a click is of the requested type exactly for
  market and limit requests (`TicketBroker.EntriesAreOfTheirTypeIff`).
- **Rejected though clicked.** A rejected status does not mean that nothing was clicked.
  It hides a click exactly when the click threw after reaching the page, the last poll saw
  no position, or reading the fill price failed (`RejectedClicks.RejectedThoughClickedIff`).
  Unless clicks throw, that happens to market entries and to nothing else (`CanBeLostIff`).

## Model

| member | source | states |
|---|---|---|
| PromiseChain.StartKeepsOrder | backend/src/brokers/browserControlBroker.ts:73-77 | a chain's head is never rejected, so an action is entered only after its predecessor has settled, and one `then` handler is as good as two |
| PromiseChain.OneRunning | backend/src/brokers/browserControlBroker.ts:73-77 | at most one action is between its start and its end, and nothing started comes after it |
| PromiseChain.NeverWedged | backend/src/assistant/client.ts:243-253 | while a call is unsettled, some call up to it can be started, is running or can be settled |
| Characters.PatternForcesNumberIff | backend/src/browserControl/orderTicket.ts:208-218 | passing the quantity pattern forces the number a button shows exactly when neither the text before it nor the text after it mentions the digits; so 66 never passes for 6 on a button without other digits |
| Characters.MentionsInParts | backend/src/browserControl/orderTicket.ts:208-218 | the pattern matches a whole text exactly when the number in it is the quantity or the text before or after it mentions the quantity |
| Characters.DecimalInjective | backend/src/browserControl/orderTicket.ts:205-214 | different quantities have different digits, so the box check decides the quantity |
| OrderTicket.ContractNamesOneInstrument | backend/src/browserControl/orderTicket.ts:121-140 | no contract text starts with two different instruments' prefixes |
| OrderTicket.ContractTextIs | backend/src/browserControl/orderTicket.ts:60-90 | a prefix with any month letter and two digits is a contract text of that prefix |
| OrderTicket.UpperIff | backend/src/browserControl/orderTicket.ts:121-140 | two characters pass for the same exactly when they are, or are one letter in either case |
| OrderTicket.PriceNearIff | backend/src/browserControl/orderTicket.ts:258-268 | the price check passes exactly when the button shows a price and twice its distance is at most a tick |
| OrderTicket.SwitchContractSound | backend/src/browserControl/orderTicket.ts:121-140 | switching the contract, entered with no reading of the card, continues only on the wanted contract |
| OrderTicket.SetOrderTypeSound | backend/src/browserControl/orderTicket.ts:233-247 | setting the order type continues only with the type read back and keeps only the contract reading |
| OrderTicket.SetLimitPriceSound | backend/src/browserControl/orderTicket.ts:258-268 | setting the limit price continues only with the button within half a tick of it |
| OrderTicket.SetTrailDistanceSound | backend/src/browserControl/orderTicket.ts:278-286 | setting the trail distance continues only with exactly that distance read back |
| OrderTicket.SetQuantitySound | backend/src/browserControl/orderTicket.ts:203-219 | setting the quantity continues only with the box reading exactly it and the button's whole text mentioning it |
| OrderTicket.SubmitSound | backend/src/browserControl/orderTicket.ts:379-393 | a live submit clicks only knowing all the request needs |
| OrderTicket.OnTicketSound | backend/src/browserControl/orderTicket.ts:91-174 | finding or switching a card hands over a card on the request's contract, or ends rejected |
| OrderTicket.ActionSound | backend/src/brokers/browserControlBroker.ts:135-245 | every request's action, dry run or not, started on whatever an earlier one left, is sound: right button, at most one click, all needed readings in hand, honest status |
| DryRuns.ActionIsClickless | backend/src/brokers/browserControlBroker.ts:135-210 | with dry runs on, or for a request without quantity, reference price, limit price or known instrument, no path of any of the six actions clicks, and all end rejected, an idle cancel apart |
| DryRuns.DryRunsNeverClick | backend/src/browserControl/orderTicket.ts:379-393 | in every interleaving a call begun so makes no click and is reported as rejected, an idle cancel apart |
| OrderTicket.LimitEntrySound | backend/src/brokers/browserControlBroker.ts:176-218 | a limit entry clicks on Limit, price within half a tick and the quantity, and reports pending |
| OrderTicket.MarketSound | backend/src/brokers/browserControlBroker.ts:439-487 | market entries and flattens click only on Market with the quantity in the box and on the button |
| OrderTicket.TrailingStopSound | backend/src/brokers/browserControlBroker.ts:493-544 | a trailing stop clicks only unrefused, on Trailing Stop, with exact distance and quantity |
| OrderTicket.TakeProfitSound | backend/src/brokers/browserControlBroker.ts:553-602 | a take-profit clicks only unrefused, on Limit, near its target, with the exact quantity |
| OrderTicket.PositionKeepsTrack | backend/src/brokers/browserControlBroker.ts:369-381 | a protective order goes on exactly when the position reading neither throws nor contradicts it, and the action stays on track either way |
| OrderTicket.RefusedIff | backend/src/brokers/browserControlBroker.ts:369-381 | a readable position lets a protective order through exactly when it is on the order's side and a take-profit would gain by its target |
| OrderTicket.ResumeKeepsTrack | backend/src/brokers/browserControlBroker.ts:135-245 | each await of an undisturbed action keeps every reading it relies on true of the page, and any click it makes is a good one |
| OrderTicket.ResumeShortens | backend/src/brokers/browserControlBroker.ts:256-264 | every await brings an action closer to its end, retries included |
| ObedientPage.ScanTakesFirstMatch | backend/src/browserControl/orderTicket.ts:91-114 | the scan hands over the first card whose contract matches |
| ObedientPage.ScanSwitchesFirst | backend/src/browserControl/orderTicket.ts:158-174 | when none matches, the first card of all is switched |
| ObedientPage.ButtonPriceReads | backend/src/browserControl/orderTicket.ts:258-268 | the price read off a button is the number behind its first `@`, commas and white space aside |
| ObedientPage.ButtonPriceReadsWhole | backend/src/browserControl/orderTicket.ts:258-268 | the same for a whole number |
| ObedientPage.NoPriceWithoutAt | backend/src/browserControl/orderTicket.ts:258-268 | without an `@` there is none |
| ObedientPage.ObedientPageIsClicked | backend/src/brokers/browserControlBroker.ts:135-210 | on a page that does what it is told, whatever its card showed before, every well-formed live request is clicked: right button, on a card showing all it needs |
| ObedientPage.NothingToCancel | backend/src/brokers/browserControlBroker.ts:604-644 | with Cancel Orders greyed out a cancel is reported as done without a click |
| ObedientPage.SuitableCardIsClicked | backend/src/brokers/browserControlBroker.ts:135-210 | a card that already shows all a request needs is clicked as it is |
| ObedientPage.WrongQuantityCanBeClicked | backend/src/browserControl/orderTicket.ts:208-218 | a limit entry for 25 is clicked on a button reading "BUY +66 @ 71.25": the digits in the price pass for the quantity |
| OrderTicket.EntryClickTypeIff | backend/src/brokers/browserControlBroker.ts:144-193 | a clicked entry stands on its requested order type exactly when that is market or limit |
| TicketBroker.StepKeepsInv | backend/src/brokers/browserControlBroker.ts:71-77 | calls, chain reactions and single awaits in any order keep the ticket invariant |
| TicketBroker.TicketActionsTakeTurns | backend/src/brokers/browserControlBroker.ts:71-77 | in every interleaving an action begins only after all earlier calls have ended, however they ended |
| TicketBroker.EveryClickIsItsOwn | backend/src/brokers/browserControlBroker.ts:135-245 | in every interleaving each click finds the ticket on its own request's contract, type, quantity (box, and a mention on the button), price or distance, presses its button, is its call's only click, and clicks come in call order |
| TicketBroker.ClicksShowTheirQuantity | backend/src/browserControl/orderTicket.ts:203-219 | in every interleaving a click finds exactly its quantity in the box, and on the button too unless the button's other text mentions the same digits |
| TicketBroker.ClicksShowTheirPrice | backend/src/browserControl/orderTicket.ts:258-268 | in every interleaving a click that types a price finds one on the button within half a tick of its instrument |
| TicketBroker.ClicksTakeTheRightSide | backend/src/brokers/browserControlBroker.ts:439-602 | in every interleaving entries press their own side's button, and what leaves a long position sells, a short one buys |
| TicketBroker.ProtectiveClicksProtect | backend/src/brokers/browserControlBroker.ts:369-381 | in every interleaving no protective order is clicked on a position read as flat or on the other side, and no take-profit at a losing price |
| TicketBroker.EntriesAreOfTheirTypeIff | backend/src/brokers/browserControlBroker.ts:144-193 | in every interleaving an entry's click is of its requested type exactly when that is market or limit |
| TicketBroker.NoClickOnAnotherContract | backend/src/brokers/browserControlBroker.ts:65-71 | no click for one instrument lands while the ticket shows another's contract |
| TicketBroker.StatusesAreHonest | backend/src/brokers/browserControlBroker.ts:212-240 | a filled entry was clicked and its position seen by the same call; every other non-rejected status, an idle cancel apart, was clicked |
| RejectedClicks.RejectedThoughClickedIff | backend/src/brokers/browserControlBroker.ts:212-245 | in every interleaving a reported call is rejected though clicked exactly when one of its awaits lost the click: the click rejected after reaching the page, the last poll saw no position, or reading the fill price failed |
| RejectedClicks.RejectedMeansUnclicked | backend/src/brokers/browserControlBroker.ts:135-245 | in every interleaving a call rejected though clicked is a market entry, unless its click itself threw after reaching the page |
| RejectedClicks.MarketEntryCanBeLost | backend/src/brokers/browserControlBroker.ts:221-235 | for every market entry a run in which nothing throws, the order is clicked, no poll sees the position and the call is rejected |
| RejectedClicks.ThrownClickCanBeLost | backend/src/brokers/browserControlBroker.ts:241-244 | for every well-formed request and a page that obeys, a run in which the click reaches the page, throws, and the call is rejected |
| RejectedClicks.CanBeLostIff | backend/src/brokers/browserControlBroker.ts:135-245 | where no throwing click reaches the page, some run ends a request rejected though clicked exactly when it is an entry not of type limit with a positive quantity, a reference price and a known instrument |
| TicketBroker.EnabledEventsShrinkWork | backend/src/brokers/browserControlBroker.ts:73-77 | every possible event brings the calls made so far strictly closer to all being settled |
| TicketBroker.UnsettledCallsCanMove | backend/src/brokers/browserControlBroker.ts:73-77 | while any call is unsettled some event is possible, so a failed action never blocks the ticket |
| TicketBroker.BrowserControlBroker.constructor | backend/src/brokers/browserControlBroker.ts:71 | a new broker's chain is settled and its invariant holds |
| TicketBroker.BrowserControlBroker.WithTicket | backend/src/brokers/browserControlBroker.ts:73-77 | a call is appended behind all earlier ones, which it leaves alone |
| TicketBroker.BrowserControlBroker.EnterAction | backend/src/brokers/browserControlBroker.ts:131-136 | the action entered is the only one running |
| TicketBroker.BrowserControlBroker.ResolveAwait | backend/src/brokers/browserControlBroker.ts:158-245 | one await of the running action; at most one click is added and it is a good click of that call |
| TicketBroker.BrowserControlBroker.EndAction | backend/src/brokers/browserControlBroker.ts:73-77 | after an action ends nothing is running |
| TicketBroker.BrowserControlBroker.SettleCall | backend/src/brokers/browserControlBroker.ts:75 | the catch frees the next call whichever way this one went |
| ChatQueue.StoredRowFits | backend/src/assistant/client.ts:280-339 | the row a suspended turn stores goes behind its own text, reply or tool results |
| ChatQueue.TurnOpens | backend/src/assistant/client.ts:270-277 | a turn the queue reaches starts with the history, or fails when the settings cannot be read |
| ChatQueue.TurnStoresText | backend/src/assistant/client.ts:270-285 | left alone, a turn stores the user's text before it reads the gate |
| ChatQueue.TurnTakesRound | backend/src/assistant/client.ts:286-340 | each round stores the reply and, if it asks for tools, their results; a reply without tool calls, or the tenth round, ends the turn |
| ChatQueue.RowsFormBlocks | backend/src/assistant/client.ts:243-253 | in every interleaving the rows are blocks in call order, each at most an Ollama part then a Gemini part, replies and tool results paired with their causes |
| ChatQueue.BlocksAreContiguous | backend/src/assistant/client.ts:150-164 | no other call's row lies between two rows of one call |
| ChatQueue.EnabledEventsAreProgress | backend/src/assistant/client.ts:286-340 | every possible event is progress for its own call and leaves the others as they were |
| ChatQueue.RejectedCallsNeverBlock | backend/src/assistant/client.ts:248-251 | an unsettled call always has a possible event at it or before it, whatever became of earlier calls |
| ChatQueue.ChatService.SendChatMessage | backend/src/assistant/client.ts:243-253 | a call is queued behind all earlier ones |
| ChatQueue.ChatService.ResolveAwait | backend/src/assistant/ollamaLoop.ts:190-228 | one await of the running turn; rows are only appended, and only that call's |
| ChatQueue.ChatService.SettleCall | backend/src/assistant/client.ts:251 | a rejected turn frees the next call as a fulfilled one does |
| TurnMerging.MergeConsecutiveSameRole | backend/src/assistant/client.ts:132-143 | the loop computes `Merge` |
| TurnMerging.NextTurnJoinsIff | backend/src/assistant/client.ts:109-143 | a turn is joined to the one before exactly when both are plain text of one role |
| TurnMerging.MergingKeepsTranscript | backend/src/assistant/client.ts:109-143 | no part is lost, reordered or given to the other role, and every function turn stays its own |
| TurnMerging.MergingSettles | backend/src/assistant/client.ts:109-143 | no two mergeable neighbours are left, and the last turn keeps its role and kind |
| TurnMerging.MergingIsIdempotent | backend/src/assistant/client.ts:132-143 | merging once is enough |
| TurnMerging.SentHistoryIsSettledIff | backend/src/assistant/client.ts:277-281 | with the user turn pushed after the merge, mergeable neighbours remain exactly when stored history ended with a plain user turn |
| Session.SessionStart | backend/src/analytics/session.ts:36-48 | the latest session boundary at or before the instant |
| Session.SessionEnd | backend/src/analytics/session.ts:58-72 | the first session boundary after the instant |
| Session.GetSessionStart | backend/src/analytics/session.ts:36-48 | the setters on a fresh date compute that boundary |
| Session.GetSessionEnd | backend/src/analytics/session.ts:58-72 | the setters on a fresh date compute that boundary |
| Session.BoundariesAreFixedPoints | backend/src/analytics/session.ts:36-72 | the start of a session's start, or of its end, is that instant itself |
| Session.SessionsTileTime | backend/src/analytics/session.ts:28-72 | two instants share a window exactly when they share a start, exactly when they share an end |
| Session.SessionsCycle | backend/src/analytics/session.ts:21-26 | a window has one label throughout, the next window the next label of London, New York, Asian, and fixed length |
| PlanScheduler.StepKeepsInv | backend/src/assistant/dailyPlanScheduler.ts:335-397 | ticks, builds, tool calls, queries and failures in any order keep the scheduler invariant |
| PlanScheduler.TurnsNeverOverlap | backend/src/assistant/dailyPlanScheduler.ts:298-345 | in every interleaving at most one refresh turn runs, the override is exactly its session and null outside turns, and the flag is set exactly while a refresh holds it |
| PlanScheduler.WritesLandOnTheTurnsSession | backend/src/engine/dailyPlanSessionOverride.ts:20-29 | every plan write resolved during a turn lands on the turn's session, every other on the session of its moment |
| PlanScheduler.TickStartsAreSpacedAndNeeded | backend/src/assistant/dailyPlanScheduler.ts:413-482 | a tick begins a refresh at least ten minutes after that session's last attempt by anyone, and only on its own query finding no zones or none younger than an hour |
| PlanScheduler.StartsAreForTheirSession | backend/src/assistant/dailyPlanScheduler.ts:409-474 | in every interleaving a chat build is for the session of its moment, a tick's refresh for the session of the tick's instant or, ten minutes or less before its start, for the next |
| PlanTicks.TickStartsHaveTicks | backend/src/assistant/dailyPlanScheduler.ts:413-482 | and that instant is one at which an enabled timer tick fired |
| PlanTicks.TickAloneIff | backend/src/assistant/dailyPlanScheduler.ts:413-482 | left alone from any state, a tick refreshes exactly the session that is due (free, unplanned or an hour stale, the next one first near its start) and marks exactly the session found planned |
| PlanTicks.FailedTickEnds | backend/src/assistant/dailyPlanScheduler.ts:413-482 | a tick whose await fails, or that finds actions switched off, ends and changes nothing |
| PlanTicks.FailedAttemptsAreRetriedOnce | backend/src/assistant/dailyPlanScheduler.ts:335-365 | a failed attempt is made once more; after that, or after the first success, the flag is free and the override null |
| PlanTicks.TurnRunsUnderOverride | backend/src/assistant/dailyPlanScheduler.ts:298-327 | the turn runs under the override of its own session |
| PlanTicks.ReleasedMarksIff | backend/src/assistant/dailyPlanScheduler.ts:355-395 | a released refresh marks its session handled exactly when zones of it were written since it began |
| PlanScheduler.HandledMeansZonesSeen | backend/src/assistant/dailyPlanScheduler.ts:355-395 | the session marked handled had zones of its own read back, each there from the start or stored by a landed write; if a refresh marked it, all written since that refresh began |
| PlanScheduler.NewWritesAreWellScoped | backend/src/assistant/tools.ts:616 | the override cell read by a plan write is the running turn's session, if one runs |
| PlanScheduler.ChatWriteStraysIff | backend/src/engine/dailyPlanSessionOverride.ts:1-29 | a chat tool's plan write is bound for another session than its moment's exactly when a turn for another session is running |
| PlanScheduler.ChatWriteCanStray | backend/src/engine/dailyPlanSessionOverride.ts:1-29 | in every pre-trigger window a run exists in which a zone set in chat is stored for the session still to come |
| PlanScheduler.LandReplacesPlan | backend/src/engine/dailyPlanZoneCache.ts:60-74 | a landing zone write replaces the rows of its own session and symbol and no others |
| PlanScheduler.ZonesComeFromLandedWrites | backend/src/engine/dailyPlanSessionOverride.ts:20-29 | every row of the zone table was there from the start or was stored by a landed write, under the session of the turn running when that write resolved, else of its moment |
| PlanScheduler.DailyPlanScheduler.ResolveDailyPlanAt | backend/src/engine/dailyPlanSessionOverride.ts:27-29 | the instant resolved belongs to the running turn's session, else to the current one |
| PlanScheduler.DailyPlanScheduler.RefreshForSession | backend/src/assistant/dailyPlanScheduler.ts:335-346 | does nothing while a refresh is in flight; else takes the flag and records the attempt before its first await |
| PlanScheduler.DailyPlanScheduler.BuildDailyPlanNow | backend/src/assistant/dailyPlanScheduler.ts:409-411 | a chat-triggered build is skipped exactly while a refresh is in flight, and else starts one for the session of the moment |
| PlanScheduler.DailyPlanScheduler.ResumeAwait | backend/src/assistant/dailyPlanScheduler.ts:335-482 | any settled await keeps the invariant |
| DealerGexCache.ResolveInitialLastChangedAt | backend/src/engine/dealerGexCache.ts:92-112 | the row walk returns the time of the last of the first rows, of fifty, that are at the price, and now when the first is not, there is none, or the query failed |
| DealerGexCache.FiftyRowsAreEnoughIff | backend/src/engine/dealerGexCache.ts:78-91 | fifty rows and all rows give the same stale verdict exactly when the equal-price run ends within the fifty, or the fiftieth is already fifteen minutes old, or the run is still younger |
| DealerGexCache.StoredRowsSuffice | backend/src/engine/dealerGexCache.ts:78-91 | for the rows that the fetches of any one run store at their times, fifty are always enough |
| DealerGexCache.RestartedRowsSuffice | backend/src/engine/dealerGexCache.ts:78-91 | for rows that several processes left, fifty are enough if at most 34 of the 49 gaps between them are shorter than a minute |
| DealerGexCache.StoredRowsHaveNoShortGaps | backend/src/engine/dealerGexCache.ts:114-118 | the rows of one run have no such gap |
| DealerGexCache.ShortGapsAddUp | backend/src/engine/dealerGexCache.ts:78-91 | each restart between two processes' rows adds at most one such gap |
| DealerGexCache.ThirtyFiveShortGapsCanMislead | backend/src/engine/dealerGexCache.ts:78-91 | with 35 short gaps fifty rows can give another verdict than all |
| DealerGexCache.RunStart | backend/src/engine/dealerGexCache.ts:127-131 | the first of the equal-price fetches the record ends with |
| DealerGexCache.RunStartIsUnique | backend/src/engine/dealerGexCache.ts:127-131 | there is only one such fetch |
| DealerGexCache.StepKeepsInv | backend/src/engine/dealerGexCache.ts:114-151 | asks, fetch replies and history replies in any order keep single flight and the change record |
| DealerGexCache.OneFetchPerSymbol | backend/src/engine/dealerGexCache.ts:120-149 | in every interleaving at most one fetch per symbol is unsettled |
| DealerGexCache.ChangeTimeIsTrue | backend/src/engine/dealerGexCache.ts:127-132 | the remembered change time is that of the last fetch whose price differed from its predecessor's; without one, that of the last equal-priced row at the head of the stored history, or of the first fetch |
| DealerGexCache.FetchesAreSpaced | backend/src/engine/dealerGexCache.ts:114-118 | successful fetches of a symbol are at least sixty seconds apart |
| DealerGexCache.WarmAnswersAreExact | backend/src/engine/dealerGexCache.ts:114-137 | a cached or warm answer is null exactly when the price had not changed for fifteen minutes, else the latest fetch |
| DealerGexCache.AskIff | backend/src/engine/dealerGexCache.ts:114-121 | a call is answered from the cache exactly while the entry is under a minute old, and starts a fetch exactly when it is not and none is in flight |
| DealerGexCache.FailedFetchLeavesNoTrace | backend/src/engine/dealerGexCache.ts:138-147 | a fetch that throws answers null, frees the symbol and changes nothing remembered |
| DealerGexCache.ColdAnswerAge | backend/src/engine/dealerGexCache.ts:128-137 | a cold answer's verdict is on the age the rows gave when it was read; delivered, it is older by exactly the wait for the rows |
| DealerGexCache.ColdAnswersFreshIff | backend/src/engine/dealerGexCache.ts:128-137 | every non-null cold answer is under fifteen minutes old when delivered, whatever the rows, exactly when that wait is zero |
| DealerGexCache.ColdAnswerAgeBound | backend/src/engine/dealerGexCache.ts:128-137 | its age is less than fifteen minutes plus the wait, and rows that attain the last millisecond exist |
| DealerGexCache.ColdAnswerCanBeStale | backend/src/engine/dealerGexCache.ts:128-137 | a run in which a sixteen-minute-old answer is handed out, the history being the row its fetch has just stored |
| DealerGexCache.DealerLevelCache.GetDealerLevels | backend/src/engine/dealerGexCache.ts:114-121 | answers from a fresh entry, joins the fetch in flight, or starts one and keeps the invariant |
| DealerGexCache.DealerLevelCache.OnFetched | backend/src/engine/dealerGexCache.ts:125-147 | the fetch's reply is the specified step and keeps the invariant |
| DealerGexCache.DealerLevelCache.OnWalked | backend/src/engine/dealerGexCache.ts:129-137 | the history reply is the specified step and keeps the invariant |
| ZoneCache.KeysAreInjective | backend/src/engine/dailyPlanZoneCache.ts:24-26 | different symbols or sessions never share a cache key, whatever characters the symbol has |
| ZoneCache.WritesReplaceOnePlan | backend/src/engine/dailyPlanZoneCache.ts:60-74 | a write replaces the rows of its own symbol and session and no others |
| ZoneCache.ZoneStore.GetActiveDailyPlanZones | backend/src/engine/dailyPlanZoneCache.ts:29-44 | one call at a time, a get returns the table's rows for its key and keeps every entry equal to the table |
| ZoneCache.ZoneStore.SetDailyPlanZones | backend/src/engine/dailyPlanZoneCache.ts:60-76 | a set makes its zones the whole plan of that key, drops that entry only, and keeps the cache true |
| ZoneCache.ZoneStore.ClearDailyPlanZones | backend/src/engine/dailyPlanZoneCache.ts:79-83 | a clear empties that plan, drops that entry only, and keeps the cache true |
| ZoneCache.OvertakenIff | backend/src/engine/dailyPlanZoneCache.ts:35-42 | an answered read is overtaken when it fills exactly when a write of its own plan committed in between |
| ZoneCache.PlanAfterCommits | backend/src/engine/dailyPlanZoneCache.ts:60-74 | after any events the table holds of a plan what it held before or, if writes of it committed, what the last of them stored |
| ZoneCache.FillIsCurrentIff | backend/src/engine/dailyPlanZoneCache.ts:35-42 | a fill puts the table's current rows into the cache exactly when no write of its plan has committed since its query was answered, or the last one that did stored the same rows |
| ZoneCache.HitIsCurrentIff | backend/src/engine/dailyPlanZoneCache.ts:29-44 | the same for a hit on that entry, whatever has happened since, as long as the entry has not been filled again or dropped |
| ZoneCache.LateIff | backend/src/engine/dailyPlanZoneCache.ts:29-44 | an entry counts as late exactly when the last event to fill or drop it was a fill from an overtaken read |
| ZoneCache.HitsAreCurrentUnlessOvertaken | backend/src/engine/dailyPlanZoneCache.ts:29-44 | in every interleaving a hit is under thirty seconds old and is the table's current rows, or a committed write of that plan is about to drop it, or its last fill was from an overtaken read |
| ZoneCache.OvertakenReadServesOldRows | backend/src/engine/dailyPlanZoneCache.ts:35-42 | an interleaving in which a get serves rows that a finished write had replaced |
| BarAggregation.AggregateBars | backend/src/analytics/intradayEmaProximity.ts:22-38 | the bucketing loop computes `Aggregate` |
| BarAggregation.AggregateSummarizes | backend/src/analytics/intradayEmaProximity.ts:22-38 | each aggregated bar has the open of the first, the close of the last, the extremes and the volume of exactly its bucket's bars, and every bar's bucket has one |
| BarAggregation.AggregateIsAscending | backend/src/analytics/intradayEmaProximity.ts:22-38 | bucket times strictly increase and low, open, close, high keep their order |
| BarAggregation.AggregateIsAligned | backend/src/analytics/intradayEmaProximity.ts:16-27 | bucket times are multiples of the width |
| BarAggregation.AggregateConservesVolume | backend/src/analytics/intradayEmaProximity.ts:31-34 | total volume is kept |
| BarAggregation.AggregationComposes | backend/src/analytics/intradayEmaProximity.ts:22-38 | for ascending bars, aggregating finely and then to a multiple equals aggregating straight to the multiple |
| BarAggregation.CompositionNeedsAscendingBars | backend/src/analytics/intradayEmaProximity.ts:33 | two bars out of order for which one-minute bars aggregated to two minutes have another close than two-minute bars made directly |
| BarAggregation.OlderBarsOnlyPrepend | backend/src/analytics/intradayEmaProximity.ts:22-38 | older bars in older buckets only prepend their own buckets |
| VolumeProfile.ComputeVolumeProfile | backend/src/analytics/volumeProfile.ts:39-95 | levels, point of control and value area as specified, empty for no bars, no bucket size or no level |
| VolumeProfile.FillBuckets | backend/src/analytics/volumeProfile.ts:42-52 | the nested loops with their roundings give every touched bucket one even share |
| VolumeProfile.FindPoc | backend/src/analytics/volumeProfile.ts:57-61 | the first level of greatest volume |
| VolumeProfile.PocIs | backend/src/analytics/volumeProfile.ts:39-61 | the point of control is that level's price, and missing exactly without a bucket size or a level |
| VolumeProfile.ExpandFrom | backend/src/analytics/volumeProfile.ts:65-81 | the loop's tracked cover equals the true sum of its range and it ends where the specification does |
| VolumeProfile.LevelsHoldTheirShares | backend/src/analytics/volumeProfile.ts:42-54 | levels are strictly sorted, and each holds exactly the shares of the bars touching its bucket |
| VolumeProfile.BucketsHoldEvenShares | backend/src/analytics/volumeProfile.ts:42-54 | there is a level for exactly the buckets some bar's range reaches into, and it holds the sum of those bars' volumes, each divided by the number of buckets it reaches into |
| VolumeProfile.ProfileConservesVolume | backend/src/analytics/volumeProfile.ts:42-54 | level volumes sum to the bars' volumes, less bars whose high falls in a lower bucket than their low |
| VolumeProfile.ValueAreaIsTight | backend/src/analytics/volumeProfile.ts:63-81 | the area contains the point of control, was short of its share before its last greedy step, and stops short only on a level volume below -1 |
| VolumeProfile.ValueAreaReachesItsShare | backend/src/analytics/volumeProfile.ts:63-81 | with non-negative volumes and a share of at most the whole, the area covers its share |
| VolumeProfile.LevelsAreNonNegative | backend/src/analytics/volumeProfile.ts:42-54 | bars without negative volume give levels without negative volume |
| VolumeProfile.BreaksOffIff | backend/src/analytics/volumeProfile.ts:65-81 | the `break` is taken exactly when some level above the point of control has less than -1 and less than every level below it, and the target exceeds all that is covered on the way to the first such level; the area is then everything under that level |
| VolumeProfile.BreakIsPossibleIff | backend/src/analytics/volumeProfile.ts:65-81 | some target, and for a total other than zero some share, makes the loop break exactly when there is such a level |
| VolumeProfile.OrdinaryVolumesNeverBreak | backend/src/analytics/volumeProfile.ts:65-81 | without a volume below -1 the `break` is never taken |
| VolumeProfile.FallsShortIff | backend/src/analytics/volumeProfile.ts:63-81 | the area falls short of its share exactly when the loop breaks off or the whole profile falls short |
| VolumeProfile.NegativeVolumeCanBreak | backend/src/analytics/volumeProfile.ts:42-81 | four bars, one of negative volume, for which the `break` leaves the area at 5 of the 9.1 wanted |
| Vwap.ComputeRollingVwap | backend/src/analytics/vwap.ts:36-48 | the loop computes the weighted mean of the last bars, none when too few or without volume |
| Vwap.VwapIsTheMean | backend/src/analytics/vwap.ts:36-48 | it is the volume-weighted mean of (high + low + close) / 3 over the last bars, and exists exactly when there are enough bars with volume |
| Vwap.VwapWithinBounds | backend/src/analytics/vwap.ts:36-48 | the mean lies between any bounds on the window's lows and highs |
| SmartEntry.RoundingIsMonotone | backend/src/analytics/smartEntry.ts:37-41 | tick rounding is monotone |
| SmartEntry.RoundingLandsOnGrid | backend/src/analytics/smartEntry.ts:37-41 | a rounded price is fixed by rounding again |
| SmartEntry.RoundingMovesHalfATick | backend/src/analytics/smartEntry.ts:37-41 | rounding moves a price by at most half a tick |
| SmartEntry.HalvesRoundAway | backend/src/analytics/smartEntry.ts:37-41 | a price halfway between two ticks rounds away from zero |
| SmartEntry.EntryChoice | backend/src/analytics/smartEntry.ts:49-99 | with six five-minute candles the point of control is taken if favourable, else the VWAP if favourable, else the signal price |
| SmartEntry.FavorableIff | backend/src/analytics/smartEntry.ts:62-72 | a reference is favourable exactly when it gains on the signal price without passing the structure level |
| SmartEntry.EntryStaysFavorable | backend/src/analytics/smartEntry.ts:49-99 | with signal and structure on the grid, the rounded entry is on the grid and still between them on the favourable side |
| SmartEntry.RoundedEntriesStayFavorableIff | backend/src/analytics/smartEntry.ts:37-72 | every reference between the signal and the structure stays between them after rounding exactly when neither limit rounds past itself, or nothing lies between them |
| SmartEntry.OffGridEntryCanCross | backend/src/analytics/smartEntry.ts:37-99 | six candles for which a long signalled at 20,000.4 is rested at 20,000.5 |
| SmartEntry.VwapEntryWithinCandles | backend/src/analytics/smartEntry.ts:87-92 | a VWAP entry is within half a tick of the six candles' span |
| SmartEntry.OlderBarsChangeNothing | backend/src/analytics/smartEntry.ts:57-99 | bars in earlier buckets than the six candles change nothing |
| DealerGex.ComputeGexByStrike | backend/src/analytics/dealerGex.ts:122-134 | the loop over the map computes `GexByStrike` |
| DealerGex.ContractGexIs | backend/src/analytics/dealerGex.ts:104-107 | a contract's exposure is spot squared times gamma times open interest, for calls positive and for puts negative |
| DealerGex.GexByStrikeDescribes | backend/src/analytics/dealerGex.ts:116-134 | strikes strictly increase, are exactly the options' strikes, and each row holds the sums of its own calls and puts |
| DealerGex.OptionOrderIsIrrelevant | backend/src/analytics/dealerGex.ts:122-134 | any order of the chain gives the same rows |
| DealerGex.TotalGexIsConserved | backend/src/analytics/dealerGex.ts:104-134 | net exposure over the strikes is the exposure of all contracts |
| DealerGex.BucketOptionsByExpiration | backend/src/analytics/dealerGex.ts:64-71 | the split is a partition by UTC date |
| DealerGex.BlendedIsZeroDtePlusStructural | backend/src/analytics/dealerGex.ts:38-71 | at every strike the blended net is the same-day net plus the structural net |
| DealerGex.FindGammaWalls | backend/src/analytics/dealerGex.ts:143-155 | the first strikes of greatest positive and greatest negative net, none when no net has that sign |
| DealerGex.FindGammaFlip | backend/src/analytics/dealerGex.ts:176-194 | the first of the zero crossings nearest to spot |
| DealerGex.FlipIsNearest | backend/src/analytics/dealerGex.ts:176-194 | no crossing is nearer to spot than the flip, on either side |
| DealerGex.CumulativeIsSum | backend/src/analytics/dealerGex.ts:176-194 | the totals are the nets summed from the lowest strike |
| DealerGex.FlipIsAZeroOfTheTotals | backend/src/analytics/dealerGex.ts:157-194 | a flip lies between neighbouring strikes whose totals straddle zero, and the interpolated total there is zero |
| DealerGex.NoFlipIffOneSided | backend/src/analytics/dealerGex.ts:176-194 | there is no flip exactly when the totals keep one strict sign, perhaps ending at zero for good |
| DealerGex.BothSignsForceAFlip | backend/src/analytics/dealerGex.ts:157-194 | totals of both signs force a flip |
| PivotDetection.DetectPivots | backend/src/analytics/supportResistance.ts:26-35 | the loop computes the pivots, those too near the ends left out |
| PivotDetection.PivotHasMaker | backend/src/analytics/supportResistance.ts:26-35 | every pivot is the high or low of a bar that none in its window passes |
| PivotDetection.MakerHasPivot | backend/src/analytics/supportResistance.ts:26-35 | and every such high or low is a pivot |
| SupportResistance.ClusterLevels | backend/src/analytics/supportResistance.ts:38-53 | the loop computes the means of `Clusters` of the sorted prices |
| SupportResistance.ClustersAreMaximalRuns | backend/src/analytics/supportResistance.ts:42-50 | the clusters cut the prices into runs with steps within the tolerance and larger steps between |
| SupportResistance.MaximalRunsAreUnique | backend/src/analytics/supportResistance.ts:42-50 | there is only one such cut |
| SupportResistance.TouchesAddUp | backend/src/analytics/supportResistance.ts:52 | every pivot is counted in exactly one level |
| SupportResistance.LevelsLieInTheirRuns | backend/src/analytics/supportResistance.ts:52 | each level lies between its run's least and greatest price |
| SupportResistance.LevelsLieApart | backend/src/analytics/supportResistance.ts:37-53 | successive levels are more than the tolerance apart |
| SupportResistance.LevelsComeSorted | backend/src/analytics/supportResistance.ts:64-66 | the levels come strictly sorted, so the final sort changes nothing |
| SupportResistance.ReclusteringKeepsPrices | backend/src/analytics/supportResistance.ts:38-53 | clustering the level prices again keeps every price |
| SupportResistance.PivotOrderIsIrrelevant | backend/src/analytics/supportResistance.ts:38-53 | only the multiset of pivot prices matters |
| SupportResistance.ComputeSupportResistanceLevels | backend/src/analytics/supportResistance.ts:60-67 | strictly sorted levels, supports below the current price and then resistances, none without a positive ATR |
| ChatStream.SplitRoundTrip | backend/src/agentCore/ollamaToolLoop.ts:117 | splitting at newlines loses nothing and leaves none |
| ChatStream.JoinRoundTrip | backend/src/agentCore/ollamaToolLoop.ts:117 | it is the only such cut |
| ChatStream.HandleAllMeaning | backend/src/agentCore/ollamaToolLoop.ts:106-112 | the first failing line decides the error; without one, contents and tool calls are strung together in order |
| ChatStream.HandleAllTells | backend/src/agentCore/ollamaToolLoop.ts:106-112 | told by the parser alone: an error exactly when some line that is not all white space is unreadable or carries an error, then the first such; else the contents and calls of the other lines in order |
| ChatStream.OneShotIsEveryLine | backend/src/agentCore/ollamaToolLoop.ts:113-121 | with the decoder's flush the one-shot reading is every line of the whole text handled once |
| ChatStream.ReadOllamaChatStream | backend/src/agentCore/ollamaToolLoop.ts:99-123 | however the text is cut into pieces, the streamed reply, error included, is what the lines of the whole text tell, and a failed read is an error |
| OrderFlow.VolumesAreConserved | backend/src/browserWatch/orderFlowListener.ts:352-404 | flushed plus pending buy (sell) volume is the volume of trades at or beyond the ask (bid) known at their moment, and trade counts add up |
| OrderFlow.SidesPartitionVolume | backend/src/browserWatch/orderFlowListener.ts:361-373 | every print counts for buyers, sellers or nobody, and for one of them only |
| OrderFlow.SymbolsHearTheirOwn | backend/src/browserWatch/orderFlowListener.ts:334-404 | a symbol hears all of its own books and trade logs and no others', its own tilt rows, and flushes once it is known |
| OrderFlow.PointInTimeFieldsSurvive | backend/src/browserWatch/orderFlowListener.ts:394-404 | quotes and tilt are always the latest heard, across every flush |
| OrderFlow.LiveOrderFlowCache.AppendOrderFlowHistory | backend/src/engine/liveOrderFlowCache.ts:36-41 | appends and keeps the last 500, for that symbol only |
| OrderFlow.LiveOrderFlowCache.GetOrderFlowHistory | backend/src/engine/liveOrderFlowCache.ts:43-46 | the last `limit` points, none for a limit below one |
| OrderFlow.OrderFlowListener.HandleDom | backend/src/browserWatch/orderFlowListener.ts:334-350 | state and history stay what every symbol's tape of messages says |
| OrderFlow.OrderFlowListener.HandleTradeLog | backend/src/browserWatch/orderFlowListener.ts:352-374 | state and history stay what every symbol's tape of messages says |
| OrderFlow.OrderFlowListener.HandleTilt | backend/src/browserWatch/orderFlowListener.ts:376-392 | state and history stay what every symbol's tape of messages says |
| OrderFlow.OrderFlowListener.Flush | backend/src/browserWatch/orderFlowListener.ts:394-404 | every known symbol's snapshot becomes latest and enters its history, the last 500 of all flushed |
| Drawdown.MaxDrawdown | backend/src/analytics/stats.ts:72-91 | for every list the deepest fall from a positive running peak, not a number exactly when the running peak is zero somewhere, and the longest stretch of points under a peak of zero or more |
| Drawdown.DeepestIsGreatestFall | backend/src/analytics/stats.ts:72-91 | on positive equity that is the greatest fall from any point to any later one |
| Drawdown.WholeLossIffNonPositive | backend/src/analytics/stats.ts:136-156 | a drawdown of 100% or more happens exactly when a value of zero or less comes after one above zero |
| Drawdown.PositivesAreKept | backend/src/analytics/stats.ts:157-159 | the filter drops exactly the non-positive points |
| Drawdown.ReportedDrawdown | backend/src/analytics/stats.ts:161-173 | for every equity list the reported drawdown is a proper fraction and the greatest fall of the filtered curve, with its longest time under water |
| SimulatedBroker.AccountsShareKeysIff | backend/src/brokers/simulatedBroker.ts:56-58 | two accounts can share a key exactly when one name runs on from the other through a colon |
| SimulatedBroker.SymbolsNeverShareKeys | backend/src/brokers/simulatedBroker.ts:56-58 | within an account no two symbols share a key |
| SimulatedBroker.FillPrice | backend/src/brokers/simulatedBroker.ts:86-89 | a fill is exactly one tick worse than its reference |
| SimulatedBroker.TrailedStopHasClosedForm | backend/src/brokers/simulatedBroker.ts:151-165 | after any prices a long's stop is the greater of its first stop and the best price less the trail, a short's the mirror image |
| SimulatedBroker.ClosedFormDetermines | backend/src/brokers/simulatedBroker.ts:151-165 | the closed form leaves only one bracket |
| SimulatedBroker.StopsOnlyTighten | backend/src/brokers/simulatedBroker.ts:150-165 | however prices go on, a stop never gives ground |
| SimulatedBroker.PathOrderIsIrrelevant | backend/src/brokers/simulatedBroker.ts:151-165 | only the set of prices seen matters |
| SimulatedBroker.Broker.PlaceOrder | backend/src/brokers/simulatedBroker.ts:80-130 | position, bracket and order of a fill; every bracket still has a position; the bracket's side matches exactly when a stop came or the side was kept |
| SimulatedBroker.Broker.CancelOrder | backend/src/brokers/simulatedBroker.ts:132-137 | cancels exactly a pending order, and the broker never has one |
| SimulatedBroker.Broker.ClosePosition | backend/src/brokers/simulatedBroker.ts:140-148 | removes position and bracket together and returns the signed points |
| SimulatedBroker.Broker.UpdateTrailingStop | backend/src/brokers/simulatedBroker.ts:151-165 | trails that bracket by one price and no other |
| SimulatedBroker.Broker.GetBracketStopPrice | backend/src/brokers/simulatedBroker.ts:175-177 | whatever was called before, a remembered stop is the closed form over the prices since its order, is no looser than placed, and has a position |

## Left out

- Playwright, CDP, fetch, SignalR, Prisma and the model APIs: their replies are arbitrary inputs of the steps.
- The frontend, the API routes, logging, configuration, passwords and session tokens.
- engine/loop, risk, the replay harness, marketData and scoring: not part of this model.
- The ticket operations as one method each: between two awaits of one the page and the other calls move on, so each is a program cut at its awaits, which `BrowserControlBroker.Resolve` carries out on the object's fields one await at a time.
- The page's own behaviour: choosing a contract may change the whole card, choosing a type everything but the contract; typing a distance changes only that field, typing a price only the button's text, typing a quantity its box and the button's text but not the price read from that text (`OrderTicket.Disturb`). A write or click that throws may still have taken effect. A person using the page at the same time, and several broker instances on one page, are outside these assumptions.
- The index of an order card: a card keeps its place on the page while an action runs.
- Fractional order quantities, and case folding of contract texts beyond ASCII.
- `configureBracket`, which no order path calls any more.
- The value of a confirmed fill price (`readRealFillPrice`): reported with the fill, no part of when one is reported.
- Two clock readings without an await between them are taken to be equal (`getDealerLevels`, `mayAttemptSession`).
- The bucketed dealer-level cache: the same single flight without the staleness clock.
- `parseOccOptionSymbol`, the wall and flip outcome functions, and choosing the expirations considered.
- High and low volume nodes, session VWAP, EMAs and the other single-expression indicators.
- Aggregation to a fraction of a minute: bucket widths are whole minutes.
- `findNearestRelevantLevel`, `findNearestTargetLevel` and `findLevelNearBreakout`: a filter and a minimum.
- Sharpe, Sortino, volatility, CAGR and trade statistics: roots, fractional powers or sums.
- Drawdown.MaxDrawdown: no negative zero, whose quotient would have the other sign.
- The instrument registry's mapping of contract roots to symbols (`contractRootToSymbol`, `globexCodeToSymbol`): messages name the symbol they resolve to.
- The promise reactions between an async function's return and its caller's next statement: one step, except in the ticket and chat chains, where settling is a step of its own.
- Messages that arrive while a flush waits: the installed flush handler does not wait.
- ZoneCache.KeysAreInjective: the ISO rendering of dates is a parameter, relied on only to differ for different dates and to contain no bar.
- `listActiveDailyPlanZones` grouping, and dates outside the range a Date can hold.
- JSON parsing and UTF-8 decoding in ChatStream: what a line parses to is a parameter, and the pieces are text.
- The times of stored dealer-history rows: `DealerGexCache.StoredRowsSuffice` is about rows stored at the times of one run's fetches, `RestartedRowsSuffice` about any rows in order of time; what reads such rows takes any.
- Floating-point rounding everywhere: numbers are exact.
