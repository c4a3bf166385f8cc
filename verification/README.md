# Exchange model

A Dafny 4.11 model of the trading exchange: the limit order book, the matching engine, the order
manager with its balance ledger, the connections between the two processes, the shared-memory ring
buffer that carries market data, the chart's candle aggregation and the market maker's running
variance. `dafny verify dfyconfig.toml` checks everything.

## How it is built

- **Order book.** `BookSpec` is a flat book: one sequence per side in price-then-arrival order.
  `OrderBook` is the object the engine uses, with price levels and an id index, proved to refine it.
  `BookCost` is the cost of taking from a side, exact and as computed in 32 bits from level sums.
- **Processes.** `OrderManagement` and `Pipeline` give both single-threaded processes and the FIFO
  connections between them as one state machine. Its events are a new order, a cancel, a cost answer,
  a response, an engine turn and a snapshot. An event a process cannot take leaves the state alone, so
  every sequence of events is a run. `History` only observes.
- **Width.** The configuration says how wide amounts are. With `Bits32` they are those of the code:
  cost answers, level sums, settlement products and averages wrap, and a contract that then fails
  stops its process. With `Exact` nothing wraps. Theorems about runs hold for both unless they name
  one. `Agreement` says when the two are in the same state.
- **Objects.** `OrderManagerProcess` and `MatchingEngineProcess` are the objects the two threads work
  on. `Exchange` joins them and shows that they follow the pipeline in 32 bits through every run.
- **Invariant.** `PipelineInv` states it. `PipelineIntake`, `PipelineAccept`, `PipelineEngine`,
  `PipelineSettle` and `PipelineMoney` show that steps keep it and what becomes of the totals;
  `PipelineRuns` puts them together.
- **Theorems.** `PipelineTheorems`, `PipelineUsd` and `PipelineIds` say what holds in every reachable
  state. `Validation`, `PipelineReplies`, `PipelineReports`, `PipelineAccounts` and `PipelineFates` say
  what each event does: which order is accepted, who is told what, which account is paid, what trades,
  rests or is dropped. `Circulation` adds what a bound on the money in circulation gives, and
  `Witnesses` holds short runs with surprising ends.
- **The rest.** `RingBuffer` interleaves atomic steps of any number of producers and one consumer;
  `RingLaws` says what a push and a pop then do.
  `Candles` and `CandleLaws` compare the chart with batch results, `TradeStats` the running sums
  with recomputation.

## What is assumed

- Connections deliver every message, in order. User ids are distinct and in [0, 1000); user names
  and symbols are not empty and contain no zero byte; USD is not itself a traded symbol; initial
  balances are not negative. Names may be of any length: `EngineStopsIff` says when that matters.
- An order carries a price exactly when it is a limit order, as the gateway sends it. Prices,
  quantities and client ids are 32-bit inputs of any sign. Signed overflow wraps.
- Balances and reservations are 64 bits in the code and do not wrap here. Order ids are 32 bits and
  do not wrap while fewer than 2^31 orders are submitted (`OrderIdsStaySmall`).
- Assertions and contracts are compiled in, and a failed one ends its process. What a stopped process
  had in memory is not looked at again.
- Ring buffer counters are unbounded and steps sequentially consistent; a weak compare-exchange may
  fail without cause. Candle prices, quantities and the statistics are exact reals.

## Where the code surprises

- A cancel for an unknown client id is meant to carry no order id, but an id supplied in the message
  is kept (services/order_manager/src/order_manager.cpp:321-341). It can name another user's order
  (`ForeignCancelIff`, `ForeignOrderIsCancelled`) or an order that does not exist, which stops the order
  manager (`OrderManagerStopsIff`, `UnknownIdStopsManager`).
- The outcome of a cancel is reported to the sender of the order, not of the cancel (`CancelIsTold`); for
  another user's order the two differ.
- A trade copies its names into fixed buffers and asserts that they fit (libs/core/trade.h:23-47). The
  first trade with a longer one stops the engine (`EngineStopsIff`, `LongTickerStopsEngine`).
- A market bid is asked about before it is validated. One for an unknown symbol or for no quantity stops
  the engine and leaves the order manager waiting for good (`BadMarketBidHalts`).
- A limit bid at the largest 32-bit price is taken for a market bid and never rests, nor does an ask at
  that price. Like the unfilled rest of any market order, its remainder stays reserved for good
  (`DroppedIff`, `DroppedForGood`, `LargestBidIsDropped`, `MarketAskIsDropped`).
- The cost of a market bid is answered in 32 bits. Past that a bid is accepted for a fraction of its
  cost (`AnswerExactIff`, `WrappedCostIsAccepted`), or the wrapped cost is not positive, which stops
  the engine and leaves the order manager waiting, whatever the bidder owns (`QueryFatalIff`,
  `NegativeCostStopsEngine`). Level sums wrap too, so a query or a snapshot of a crowded level can stop
  the engine (`LevelSumWraps`, `ShortNamesAreSafe`).
- A limit bid is reserved in 64 bits (services/order_manager/src/order_manager.cpp:384-385) but
  refunds, improvements and proceeds are 32-bit products (:776-804). What does not fit is lost to its
  owner (`UsdIsConservedIff`, `RefundIsLost`), and a credit that wraps to less than the account
  can bear stops the order manager (`OrderManagerStopsIff`).
- Keys made of client and user ids are 32 bits, so client ids of one user that differ by a multiple of
  2^29 are duplicates, and users whose ids agree modulo eight can collide (`SameUserCollidesIff`,
  `UsersNeverCollideIff`). Truncating division also loses negative client ids (`ReportedIdIff`).
- The assertions of a balance update look at existing records only; `UpdateNonNegativeIff` and
  `AssertsMissNewRecord` say what they miss. In a run only a wrapped credit gets there, and persisting it
  then stops the order manager (`BalancesStayNonNegative`).
- A ring buffer of capacity one loses values; `FaithfulIff` is the exact condition.

## Model

| member | source | states |
|---|---|---|
| `BookSpec.MatchConsumesPrefix` | services/matching_engine/src/limit_order_book.cpp:37-86 | trades take a prefix of the far side in price-then-arrival order, each at the maker's own price and within the taker's limit; every maker but the last is filled whole, and only a taker that ends with nothing left leaves its last maker partly filled |
| `BookSpec.MatchMeetsReference` | services/matching_engine/src/limit_order_book.cpp:37-86 | traded quantity is the smaller of what was wanted and what stands at acceptable prices; the far side loses exactly that many units from its front; the remainder is the rest |
| `BookSpec.MatchStops` | services/matching_engine/src/limit_order_book.cpp:37-86 | a taker with quantity left has met an empty side or a price beyond its limit |
| `BookSpec.MatchConservesQty` | services/matching_engine/src/limit_order_book.cpp:37-86 | for every order id, quantity lost on the far side equals the quantity it made in the trades |
| `BookSpec.MatchAllTraded` | services/matching_engine/src/limit_order_book.cpp:37-86 | traded quantity plus remainder is the incoming quantity, for every input |
| `BookSpec.RestPosition` | services/matching_engine/src/limit_order_book.cpp:81-85 | a resting order stands behind everything of the same or a better price and before everything worse; nothing else moves |
| `BookSpec.AddKeepsInv` | services/matching_engine/src/limit_order_book.cpp:20-86 | adding keeps a book sorted by price, uncrossed, positive, and free of duplicate ids |
| `BookSpec.AddTradesOk` | services/matching_engine/src/limit_order_book.cpp:183-206 | every trade of an order that is taken meets the preconditions of making it: taker differs from maker, positive price and quantity, names present and short enough for their buffers |
| `BookSpec.HitIff` | services/matching_engine/src/limit_order_book.cpp:37-86 | a maker trades exactly when its price is acceptable and everything before it is not enough |
| `BookSpec.TakesIff` | libs/core/trade.h:23-47 | adding an order runs to its end exactly when no maker it hits makes a trade with a ticker, taker or maker name too long for its buffer |
| `BookSpec.AddConservesQty` | services/matching_engine/src/limit_order_book.cpp:20-86 | one add accounts for every unit of every order id: on the book, made in trades, or newly rested |
| `BookSpec.RemoveKeeps` | services/matching_engine/src/limit_order_book.cpp:88-105 | removing an id keeps exactly the other orders, unchanged in quantity |
| `BookSpec.CancelKeepsInv` | services/matching_engine/src/limit_order_book.cpp:88-105 | cancelling keeps the book invariant, removes the id, and changes no other order's quantity |
| `BookSpec.CostIsMatchNotional` | services/matching_engine/src/limit_order_book.cpp:210-243 | the cost of a quantity equals the total notional of the trades of a taker that accepts every price |
| `BookSpec.FillCostIsMarketNotional` | services/matching_engine/src/limit_order_book.cpp:210-243 | for a market order of either side the cost answer is the notional its trades would have on the same book, and no answer exactly when the side is empty |
| `OrderBook.LimitOrderBook.constructor` | services/matching_engine/src/limit_order_book.cpp:11-14 | a new book is valid and empty |
| `OrderBook.LimitOrderBook.AddOrder` | services/matching_engine/src/limit_order_book.cpp:20-35 | the price levels then hold the flat book with the order added; the queue receives exactly the flat match's trades, in order; levels, index and book invariant stay valid |
| `OrderBook.LimitOrderBook.MatchOrder` | services/matching_engine/src/limit_order_book.cpp:37-86 | the two nested loops over price levels end and refine the flat match of the far side followed by resting on the near side; the id index again lists exactly the resting orders |
| `OrderBook.LimitOrderBook.MatchLevel` | services/matching_engine/src/limit_order_book.cpp:48-77 | the inner loop eats one level from its front, keeps the progress relation to the flat match, and stops with an empty level or nothing left to match |
| `OrderBook.LimitOrderBook.CancelOrder` | services/matching_engine/src/limit_order_book.cpp:88-105 | erasing through the index is cancelling in the flat book; an emptied level disappears |
| `OrderBook.LimitOrderBook.OrderIdExistsIffResting` | services/matching_engine/src/limit_order_book.cpp:117-119 | the index knows an id exactly when the flat book holds it |
| `OrderBook.LimitOrderBook.GetBestOrder` | services/matching_engine/src/limit_order_book.cpp:107-115 | the head of the flat side, or none exactly when it is empty |
| `OrderBook.LimitOrderBook.GetLevelAggregate` | services/matching_engine/src/limit_order_book.cpp:136-161 | price of the level of that rank and the 32-bit sum of its orders, or a failed contract exactly when that sum is not positive |
| `OrderBook.LimitOrderBook.GetTopOrderBookLevelAggregate` | services/matching_engine/src/limit_order_book.cpp:163-181 | the best levels of each side, fifty or as many as there are; fails exactly for an overlong ticker or a level sum that is not positive |
| `OrderBook.TopOrdered` | services/matching_engine/src/limit_order_book.cpp:163-181 | a snapshot lists strictly worsening prices, each with everything resting there as far as 32 bits count, and skips none: an order it does not list is behind fifty listed prices |
| `OrderBook.LimitOrderBook.GetFillCost` | services/matching_engine/src/limit_order_book.cpp:210-243 | the loop over level aggregates in 32 bits computes the answer defined on the flat side; it fails a contract exactly where that answer does |
| `BookCost.AnswerIsCounted` | services/matching_engine/src/limit_order_book.cpp:210-243 | for every side and quantity the loop that wraps at each step gives the cost of what the levels count for in 32 bits, kept to 32 bits once, or a failed contract where a level counts for nothing or that is not positive |
| `BookCost.ServedIsCounted` | services/matching_engine/src/limit_order_book.cpp:210-243 | where the level at which the quantity runs out counts for enough, what the levels count for costs what the quantity costs, order by order; where they count at all, that level counts for enough or for too little |
| `BookCost.AnswerExactIff` | services/matching_engine/src/limit_order_book.cpp:210-243 | the 32-bit answer is right exactly when what the levels count for costs, kept to 32 bits, what the quantity costs; unless that level counts for too little, exactly when it counts for enough and the cost fits 32 bits |
| `BookCost.AnswerFailsIff` | services/matching_engine/src/limit_order_book.cpp:210-243 | the query fails its contracts exactly when a level counts for nothing or the cost kept to 32 bits is not positive |
| `BookCost.FittingLevelsServe` | services/matching_engine/src/limit_order_book.cpp:136-161 | where no price holds more than 32 bits can count, the level always counts for enough |
| `BookCost.UnderstatedIsWrong` | services/matching_engine/src/limit_order_book.cpp:151-156 | a price with 2^32 + 1 units counts for one: a query for two is answered with half its cost |
| `BookCost.UnderstatedByAccident` | services/matching_engine/src/limit_order_book.cpp:151-156 | with one dearer unit behind it a query for three is answered right by accident |
| `BookCost.AnswerWraps` | services/matching_engine/src/limit_order_book.cpp:235-239 | four shares at 2^30 + 1 cost 2^32 + 4 and are answered with 4 |
| `BookCost.LevelSumWraps` | services/matching_engine/src/limit_order_book.cpp:151-156 | two asks of 2^31 - 1 at one price: the level sum turns negative and a query for five fails |
| `OrderBook.EmplaceIsRest` | services/matching_engine/src/limit_order_book.cpp:81-85 | appending to the level of a price is queueing by price then arrival in the flat side |
| `OrderBook.UnlinkIsRemove` | services/matching_engine/src/limit_order_book.cpp:88-105 | unlinking a node and dropping an emptied level removes exactly that id from the flat side |
| `BalanceLedger.BalanceChecker.UpdateBalance` | services/order_manager/src/balance_checker.cpp:21-43 | under the assertions of the code one cell moves by the delta, created when missing |
| `BalanceLedger.BalanceChecker.GetBalance` | services/order_manager/src/balance_checker.cpp:45-56 | the recorded amount, non-negative |
| `BalanceLedger.BalanceChecker.HasSufficientBalance` | services/order_manager/src/balance_checker.cpp:58-66 | true exactly when the balance covers the delta |
| `BalanceLedger.UpdateTotal` | services/order_manager/src/balance_checker.cpp:21-43 | an update moves the total of one ticker by its delta and no other total |
| `BalanceLedger.UpdateNonNegativeIff` | services/order_manager/src/balance_checker.cpp:21-43 | an update keeps all balances non-negative exactly when the old balance, zero without a record, covers the delta |
| `BalanceLedger.AssertsMissNewRecord` | services/order_manager/src/balance_checker.cpp:21-43 | the assertions of the code alone let a debit on a missing record through: the concrete case |
| `BalanceLedger.BalanceWithinTotal` | services/order_manager/src/balance_checker.cpp:45-56 | with non-negative balances no single balance exceeds the total of its ticker |
| `OrderManagerProcess.OrderManager.PreprocessNew` | services/order_manager/src/order_manager.cpp:250-279 | every order gets a fresh id; unknown senders and 32-bit keys already taken are refused and only other orders are registered |
| `OrderManagerProcess.OrderManager.Reserve` | services/order_manager/src/order_manager.cpp:380-393 | the amount is taken exactly when the balance covers it; otherwise nothing moves |
| `OrderManagerProcess.OrderManager.ValidateNew` | services/order_manager/src/order_manager.cpp:353-432 | verdict and ledger of validation, in the order of the checks; only an accepted order is debited |
| `OrderManagerProcess.OrderManager.OnNewOrder` | services/order_manager/src/order_manager.cpp:187-217 | the object takes exactly the submit step of the pipeline, including the cost query of a market bid |
| `OrderManagerProcess.OrderManager.OnCostResponse` | services/order_manager/src/order_manager.cpp:282-316 | resuming with the oldest cost answer is the resume step of the pipeline |
| `OrderManagerProcess.OrderManager.OnCancelRequest` | services/order_manager/src/order_manager.cpp:321-341 | resolution, forwarding and reports of a cancel are the cancel step, down to the failed lookup that stops the process |
| `OrderManagerProcess.OrderManager.BookFill` | services/order_manager/src/order_manager.cpp:757-769 | one order's average, with its numerator in 32 bits, and its open and cumulative quantity after a fill; no other order changes |
| `OrderManagerProcess.OrderManager.SettleTradeInPlace` | services/order_manager/src/order_manager.cpp:751-794 | both orders' figures and the three credits of a trade, products in 32 bits, together are the settlement function |
| `OrderManagerProcess.OrderManager.OnTrade` | services/order_manager/src/order_manager.cpp:823-930 | a trade response is the delivery step of the pipeline in 32 bits: a guard of settling that fails stops the process before the reports to taker and maker, one of persisting after them |
| `OrderManagerProcess.OrderManager.RefundInPlace` | services/order_manager/src/order_manager.cpp:796-812 | the refund of a successful cancel, its product in 32 bits |
| `OrderManagerProcess.OrderManager.OnCancelResponse` | services/order_manager/src/order_manager.cpp:932-957 | a cancel response refunds a success and reports it, as the delivery step of the pipeline does in 32 bits; a guard that fails stops the process before or after the report |
| `Validation.ValidateIsFirstFailure` | services/order_manager/src/order_manager.cpp:353-432 | the verdict is Ok, or the reason of the first check that fails in a list of six: symbol, price, quantity, balance record of the user, record of what is drawn on, amount |
| `Validation.ValidateOkIff` | services/order_manager/src/order_manager.cpp:353-432 | an order is accepted exactly when its symbol is known, quantity and limit price are positive, its sender owns the record it draws on, a market bid has a cost, and the balance is at least the amount |
| `Validation.ValidateTakes` | services/order_manager/src/order_manager.cpp:386-429 | exactly the amount is taken off that one balance; a rejection changes none and no record appears or disappears |
| `PipelineReplies.SubmitIsAnswered` | services/order_manager/src/order_manager.cpp:243-279 | over every run a new order gets the next id; it is refused for the first intake check that fails, or waits for its cost as a market bid, or is decided by the checks: its sender is told the verdict, and exactly on Ok it is charged, recorded and forwarded |
| `PipelineReplies.ResumeIsAnswered` | services/order_manager/src/order_manager.cpp:282-316 | over every run the waiting market bid is decided so with the oldest cost answer |
| `PipelineReplies.CancelIsAnswered` | services/order_manager/src/order_manager.cpp:318-341 | over every run a cancel is refused for an unknown user or because it names no order, and otherwise forwarded with its own client id and symbol; its sender gets one report with both its client ids, the reason, and the order it names; one that names an unregistered order stops the process before it replies |
| `MatchingEngineProcess.MatchingEngine.constructor` | services/matching_engine/src/matching_engine.cpp:18-36 | one empty book per active symbol and nothing queued |
| `MatchingEngineProcess.MatchingEngine.DrainTrades` | services/matching_engine/src/matching_engine.cpp:106-137 | queued trades are sent oldest first until a send fails; that one and those behind it stay queued |
| `MatchingEngineProcess.MatchingEngine.AddToBook` | services/matching_engine/src/matching_engine.cpp:97-104 | only the book of the symbol changes, to the flat book with the order added, and its trades are queued |
| `MatchingEngineProcess.MatchingEngine.OnNewOrder` | services/matching_engine/src/matching_engine.cpp:91-138 | adding to the book of the symbol and draining the shared trade queue is the engine step of the pipeline, stops included; other books are untouched |
| `MatchingEngineProcess.MatchingEngine.RemoveFromBook` | services/matching_engine/src/matching_engine.cpp:139-160 | only the book of the symbol changes, to the flat book without the id |
| `MatchingEngineProcess.MatchingEngine.OnCancel` | services/matching_engine/src/matching_engine.cpp:139-170 | success exactly when the id rests in the book of the symbol; the book and the response are those of the pipeline step |
| `MatchingEngineProcess.MatchingEngine.OnCostQuery` | services/matching_engine/src/matching_engine.cpp:171-193 | the answer sent is the 32-bit one on the current book; an unknown symbol, no quantity or a failed contract stops the engine |
| `MatchingEngineProcess.MatchingEngine.ProcessContainer` | services/matching_engine/src/matching_engine.cpp:87-200 | each kind of container takes its step of the pipeline in 32 bits |
| `MatchingEngineProcess.MatchingEngine.FlushSnapshots` | services/matching_engine/src/matching_engine.cpp:72-84 | every book is snapshot, until one fails a contract and stops the engine |
| `Exchange.System.ServeRequest` | services/matching_engine/src/matching_engine.cpp:64-85 | the engine object serves the oldest request, and stops exactly where the pipeline in 32 bits does |
| `Exchange.System.TakeResponse` | services/order_manager/src/order_manager.cpp:225-238 | the order manager object takes the oldest response, and stops exactly where the pipeline in 32 bits does |
| `Exchange.System.Step` | services/order_manager/src/order_manager.cpp:178-240 | one event moves the two objects to the next state of the pipeline in 32 bits, or leaves them when the process cannot take it |
| `Exchange.System.Follow` | services/order_manager/src/order_manager.cpp:178-240 | through any sequence of events, with no condition on amounts, the objects stay at the state of that run of the pipeline in 32 bits |
| `PipelineRuns.StepKeeps` | services/order_manager/src/order_manager.cpp:178-240 | every event, in either width, keeps the invariant that ties ledger, channels, books, ids and reports together and every share, and moves the USD total by exactly what it fails to credit or undercharges |
| `PipelineRuns.RunKeeps` | services/order_manager/src/order_manager.cpp:178-240 | the same over every sequence of events, summed up |
| `PipelineUsd.UsdIsAccountedFor` | services/order_manager/src/order_manager.cpp:386-407 | over every run of either width: balances, open limit reservations, the market bid on its way and unsettled market trades add up to the initial USD plus what the events made or lost |
| `PipelineUsd.StepConservesIff` | services/order_manager/src/order_manager.cpp:748-812 | one event conserves USD exactly when every amount it credits (notional, improvement, refund) fits the width and the cost a taken market bid was charged is right |
| `PipelineUsd.UsdIsConservedIff` | services/order_manager/src/order_manager.cpp:748-812 | USD is conserved after every prefix of a run exactly when that holds at each of its events |
| `PipelineUsd.ExactUsdIsConserved` | services/order_manager/src/order_manager.cpp:386-407 | with exact amounts USD is conserved over every run |
| `PipelineUsd.CreditsAreReserved` | services/order_manager/src/order_manager.cpp:748-812 | every amount the next response credits is covered by the reservation behind it, hence by the USD there is |
| `PipelineUsd.SmallCirculationConserves` | services/order_manager/src/order_manager.cpp:748-812 | with no more USD than 32 bits count, charges that are right are enough for every run: each credit fits and USD is conserved |
| `PipelineTheorems.SharesAreConserved` | services/order_manager/src/order_manager.cpp:416-429 | over every run and per symbol: balances plus open quantity of unrefunded asks is the initial amount; the unfilled rest of a market ask stays in the second term |
| `PipelineTheorems.BalancesStayNonNegative` | services/order_manager/src/balance_checker.cpp:21-66 | over every run from non-negative balances no balance is negative while the order manager is up, and with exact amounts not after it either |
| `PipelineTheorems.OrderManagerStopsIff` | services/order_manager/src/order_manager.cpp:748-821 | the order manager stops exactly on a cancel that resolves to an unregistered id, or on a response whose credit, kept to the width, is negative and more than its account holds; no other assertion, contract or lookup ever fails |
| `PipelineTheorems.ExactSettlementNeverStops` | services/order_manager/src/order_manager.cpp:748-821 | with exact amounts no response ever stops it |
| `PipelineTheorems.EngineStopsIff` | services/matching_engine/src/matching_engine.cpp:87-200 | the engine stops exactly on a new order that hits a maker with names too long for the trade, a cancel for an unknown symbol, a query that cannot be answered in the width, or a snapshot with an overlong ticker or a level sum that is not positive |
| `PipelineTheorems.QueryFatalIff` | services/matching_engine/src/limit_order_book.cpp:210-243 | over every run: on an empty side or with exact amounts no query of a known symbol for some quantity stops the engine; in 32 bits one does exactly when a level counts for nothing or the cost kept to 32 bits is not positive |
| `PipelineTheorems.ShortNamesAreSafe` | libs/core/trade.h:23-47 | where every ticker and user name fits its buffer, no new order stops the engine, and a snapshot does exactly when a level sum it shows is lost to the width |
| `PipelineTheorems.BooksStayOrdered` | services/matching_engine/src/limit_order_book.cpp:20-105 | in every reachable state every book is sorted, uncrossed, positive, and without duplicate ids |
| `PipelineTheorems.ProcessesAgree` | services/order_manager/src/order_manager.cpp:748-812 | the order manager's open quantity is what is on its way, resting, traded or cancelled but unsettled, or dropped; only market orders and limits at the largest price are dropped |
| `PipelineTheorems.RefundIsExact` | services/order_manager/src/order_manager.cpp:796-812 | a settled cancel refunds exactly the quantity the book gave up, once, and no later message concerns the order |
| `PipelineTheorems.RefundedIsSilent` | services/order_manager/src/order_manager.cpp:796-812 | no response under way trades or refunds an order already refunded |
| `PipelineTheorems.MarketBidIsExact` | services/order_manager/src/order_manager.cpp:282-316 | over every run of either width a market bid on its way is first in line and was charged the answer on the current book; that is the notional of the trades it will make, however little liquidity there is, always with exact amounts and in 32 bits exactly under the condition of AnswerExactIff |
| `PipelineTheorems.LifecycleIsLegal` | services/order_manager/src/order_manager.cpp:823-957 | reports of an accepted order: New, strictly rising partial fills with quantities that add up, then Filled exactly when nothing is left or Canceled exactly when refunded, and nothing after |
| `PipelineTheorems.UnacceptedHasNoLife` | services/order_manager/src/order_manager.cpp:515-576 | an order never accepted has no New, fill or Canceled report |
| `PipelineIds.KeyTakenIff` | services/order_manager/src/order_manager.cpp:249-279 | a key is in the id map exactly when an order was registered under the same 32 bits, and it leads to that order |
| `PipelineIds.HeldByOwnerIff` | services/order_manager/src/order_manager.cpp:249-279 | without overflow the key of a user and client id is held exactly by that user's order of that id |
| `PipelineIds.RefusedIff` | services/order_manager/src/order_manager.cpp:249-279 | over every run a known user's order is refused exactly when its 32-bit key is taken; without overflow exactly for a client id that same user has used; ids are fresh, and both maps cover the same orders |
| `PipelineIds.CancelResolves` | services/order_manager/src/order_manager.cpp:321-341 | a cancel resolves to the order holding its 32-bit key, without overflow the sender's own order of that client id; without a holder the id in the message decides |
| `PipelineIds.ForeignCancelIff` | services/order_manager/src/order_manager.cpp:321-341 | a cancel resolves to another user's order exactly when such an order holds its key, or none does and the message supplies the id of such an order |
| `PipelineReports.FillsAreTold` | services/order_manager/src/order_manager.cpp:881-924 | over every run the fill reports are exactly two per settled trade, taker before maker, in order: to the sender of that order, with its symbol and side, the trade's price, the order's figures after that trade, the client id recovered from its key, and Filled exactly when nothing is left |
| `PipelineReports.CancelIsTold` | services/order_manager/src/order_manager.cpp:926-957 | over every run a cancel response is told once, to the sender of the order: with the cancel's client id, the order's recovered from its key, success or the reason, and the order as it is known |
| `PipelineReports.OutcomesAreAsked` | services/order_manager/src/order_manager.cpp:926-957 | over every run each report of a cancel's outcome follows a report that a cancel of that order with that client id is pending |
| `PipelineReports.ReportsNameClientIff` | services/order_manager/src/order_manager.cpp:881-957 | over every run each report that tells an order's life goes to its sender and shows its symbol and side; fills and cancels name the client's own id exactly when its key did not overflow and it is not negative, or the user is zero |
| `PipelineAccounts.TradeIsPaid` | services/order_manager/src/order_manager.cpp:770-794 | over every run, account by account: settling a trade gives the sender of its bid the shares and what was set aside beyond the price, the sender of its ask the proceeds, each product kept to the width, and moves nothing else; if it stops before its reports it moves nothing |
| `PipelineAccounts.RefundIsPaid` | services/order_manager/src/order_manager.cpp:796-812 | over every run, account by account: a successful cancel gives the sender of the order what was set aside for the units the book gave up, kept to the width, and moves nothing else; a refused one moves nothing |
| `PipelineTheorems.AveragePriceError` | services/order_manager/src/order_manager.cpp:757-769 | over every run of either width the figures of an order are those of its settled fills; in 32 bits they were the exact ones all along exactly when every numerator fits, as they do when the traded value does; then the average lies within the fill prices, is exact for one fill, and is never above the volume-weighted average and below it by less than one unit per further fill |
| `Agreement.CodeIsExactIff` | services/order_manager/src/order_manager.cpp:178-240 | for every configuration, ledger and sequence of events the code is in the state of the exact pipeline after every prefix exactly when, at each event, the amounts it handles fit: the cost of a query, both numerators, improvement and refund of a response, and the level sums of a snapshot |
| `Agreement.StepAgreesIff` | services/order_manager/src/order_manager.cpp:178-240 | one event has the same effect in 32 bits and exactly, from any state of the invariant, exactly under that condition |
| `AveragePrice.NumeratorWithinValue` | services/order_manager/src/order_manager.cpp:757-769 | the numerator of the next average is within the traded value of its order |
| `AveragePrice.NextAgreesIff` | services/order_manager/src/order_manager.cpp:757-769 | one fill is booked right in 32 bits exactly when its numerator fits |
| `AveragePrice.FiguresRightIff` | services/order_manager/src/order_manager.cpp:757-769 | the figures kept in 32 bits are the exact ones after every fill exactly when every numerator fits |
| `Agreement.QueryAgreesIff` | services/matching_engine/src/limit_order_book.cpp:210-243 | serving a query takes the exact step exactly when a query that has an exact answer is answered right |
| `Circulation.SideIsBacked` | services/matching_engine/src/limit_order_book.cpp:136-161 | all units resting on a side are backed by shares, or by USD, in circulation |
| `Circulation.BoundedFitsIff` | services/order_manager/src/order_manager.cpp:178-240 | with no more USD, and no more shares of a symbol, than 32 bits count, the condition of an event comes down to the cost of a query and the numerators of a trade |
| `Circulation.OrderIdsStaySmall` | services/order_manager/src/order_manager.cpp:248-252 | order ids stay below the number of events |
| `PipelineAccounts.OthersMoveNothing` | services/order_manager/src/order_manager.cpp:178-240 | a cancel request, an engine turn and a snapshot move no balance and change nothing the order manager keeps |
| `PipelineFates.EngineTrades` | services/matching_engine/src/limit_order_book.cpp:37-86 | over every run the trades of a new order take the far side from its front at the makers' prices, all at prices it accepts: its own or better for a limit, any for a market order. Together they are what it wants, or everything at such prices; no other book is concerned |
| `PipelineFates.DroppedIff` | services/matching_engine/src/limit_order_book.cpp:81-85 | what an order cannot trade at once rests under its own price, or is dropped: exactly for a market order, which leaves a rest exactly when the far side holds less than it wants, or a limit at the largest price |
| `PipelineFates.EngineCancels` | services/matching_engine/src/matching_engine.cpp:139-170 | over every run a cancel is answered once with the ids it came with; it succeeds exactly when the order rests in the book named, which then loses that order, with all that was left of it, and no other |
| `PipelineFates.DroppedForGood` | services/order_manager/src/order_manager.cpp:796-812 | whatever happens next, dropped quantity stays open: it is never cancelled, never refunded, and its order never ends |
| `PipelineFates.BadMarketBidHalts` | services/order_manager/src/order_manager.cpp:282-316 | a market bid for an unknown symbol or no quantity from a known user leaves the order manager waiting for good, and the engine down once it has had a turn for every request up to the query |
| `Witnesses.UnknownIdStopsManager` | services/order_manager/src/order_manager.cpp:321-341 | a cancel with a supplied id in the initial state stops the order manager |
| `Witnesses.LargestBidIsDropped` | services/matching_engine/src/limit_order_book.cpp:81-85 | a limit bid at 2^31 - 1 on an empty book is dropped and its price stays deducted |
| `Witnesses.MarketAskIsDropped` | services/matching_engine/src/limit_order_book.cpp:81-85 | a market ask on an empty book is dropped and its shares stay deducted |
| `Witnesses.LongTickerStopsEngine` | libs/core/trade.h:23-47 | with a ticker of five letters the first two orders that cross stop the engine |
| `Witnesses.ForeignOrderIsCancelled` | services/order_manager/src/order_manager.cpp:321-341 | a run in which one user's cancel removes another user's resting order |
| `Witnesses.WrappedCostIsAccepted` | services/matching_engine/src/limit_order_book.cpp:210-243 | a run in which a market bid is accepted for 4 USD against asks that cost 2^32 + 4 |
| `Witnesses.NegativeCostStopsEngine` | services/matching_engine/src/limit_order_book.cpp:210-243 | a run in which a market bid for two shares at 2^30, from a user without USD, stops the engine and leaves the order manager waiting |
| `Witnesses.RefundIsLost` | services/order_manager/src/order_manager.cpp:796-812 | a run in which a bid for four at 2^30 reserves 2^32 USD and, cancelled unfilled, is refunded nothing, with both processes up |
| `PipelineSettle.OnlyImprovement` | services/order_manager/src/order_manager.cpp:776-789 | a limit buyer never trades above its limit; the refund per unit is the difference; a market buyer has none |
| `PipelineSettle.TradeSettlesIff` | services/order_manager/src/order_manager.cpp:663-739 | every guard of settling and persisting a trade holds exactly when both USD credits, kept to the width, leave their accounts non-negative |
| `PipelineSettle.TradeNeverFails` | services/order_manager/src/order_manager.cpp:663-739 | with exact amounts every one of them holds |
| `PipelineSettle.CancelSettlesIff` | services/order_manager/src/order_manager.cpp:663-739 | every guard of settling and persisting a cancel response holds exactly when its refund, kept to the width, leaves the account non-negative |
| `PipelineSettle.CancelNeverFails` | services/order_manager/src/order_manager.cpp:663-739 | with exact amounts every one of them holds |
| `PipelineEngine.AddNeverFails` | services/matching_engine/src/matching_engine.cpp:91-104 | a forwarded order has a book and meets the contract of adding |
| `AveragePrice.AverageBetween` | services/order_manager/src/order_manager.cpp:757-769 | the truncated running average lies within any bounds of the fill prices |
| `AveragePrice.AverageError` | services/order_manager/src/order_manager.cpp:757-769 | its distance below the exact average after n fills, multiplied out by the volume |
| `ClientIds.KeysEqualIff` | services/order_manager/src/order_manager.cpp:260-261 | two keys are equal exactly when the exact ones differ by a multiple of 2^32 |
| `ClientIds.SameUserCollidesIff` | services/order_manager/src/order_manager.cpp:260-261 | two client ids of one user share a key exactly when they differ by a multiple of 2^29 |
| `ClientIds.UsersNeverCollideIff` | services/order_manager/src/order_manager.cpp:260-261 | two users' keys never collide, whatever their client ids, exactly when the user ids differ modulo eight |
| `ClientIds.FittingKeysInjective` | services/order_manager/src/order_manager.cpp:260-261 | for user ids in range, keys computed without overflow determine user and client id |
| `ClientIds.ReportedIdIff` | services/order_manager/src/order_manager.cpp:890-890 | truncating division recovers a client id exactly when its key did not overflow and it is not negative, or the user is zero |
| `ClientIds.LostIds` | services/order_manager/src/order_manager.cpp:890-890 | client ids -1 and 3000000 of user 5 come back as 0 and -1294967 |
| `ClientIds.CollidingIds` | services/order_manager/src/order_manager.cpp:260-261 | ids 0 and 2^29 of one user, and two ids of users 0 and 8, share a key |
| `RingBuffer.InitBuffer` | libs/inter_process/mpsc_shared_memory_ring_buffer.h:42-49 | the loop over the slots gives the initial state of the protocol, whatever the memory held |
| `RingBuffer.JudgeIsRight` | libs/inter_process/mpsc_shared_memory_ring_buffer.h:59-83 | the sequence number matches exactly for a position of the window that is the head or is won and not yet published; it is smaller exactly when the position is the head of a full buffer |
| `RingBuffer.PopTestIsRight` | libs/inter_process/mpsc_shared_memory_ring_buffer.h:91-107 | the sequence number has reached the next position exactly when the tail is published; the slot then holds the value pushed there |
| `RingBuffer.OwnershipIsExclusive` | libs/inter_process/mpsc_shared_memory_ring_buffer.h:59-107 | between winning a position and publishing it, a slot is touched by one producer and not by the consumer |
| `RingBuffer.CountersAreClose` | libs/inter_process/mpsc_shared_memory_ring_buffer.h:59-107 | head is at most a capacity ahead of tail, one more only between the consumer's two stores |
| `RingBuffer.SequencesGrow` | libs/inter_process/mpsc_shared_memory_ring_buffer.h:59-107 | no step takes a slot's sequence number back |
| `RingBuffer.StepKeepsInv` | libs/inter_process/mpsc_shared_memory_ring_buffer.h:59-107 | every atomic step of any producer or the consumer keeps the ring invariant |
| `RingBuffer.RunKeepsInv` | libs/inter_process/mpsc_shared_memory_ring_buffer.h:42-107 | the invariant holds after every interleaving of any number of producers, for capacities of two and more |
| `RingBuffer.PoppedIsPrefix` | libs/inter_process/mpsc_shared_memory_ring_buffer.h:59-107 | popped values are the first ones in the order producers won the head: nothing lost, doubled or reordered |
| `RingLaws.PushMoves` | libs/inter_process/mpsc_shared_memory_ring_buffer.h:59-83 | over every interleaving and step: a producer moves exactly in its turn, and where to is told from the counters and owners; after a lost compare-exchange it goes on at the current head; a value is added exactly when one wins |
| `RingLaws.PushEnds` | libs/inter_process/mpsc_shared_memory_ring_buffer.h:59-83 | a push ends with its value published in its place, or having found the head at its position and the buffer full at that very step, with nothing changed |
| `RingLaws.PopMoves` | libs/inter_process/mpsc_shared_memory_ring_buffer.h:91-107 | over every interleaving and step: the consumer gives up exactly when the tail is not published; otherwise it reads the value pushed there, releases the slot for the next round, and pops the value |
| `RingLaws.RefusalsAreRight` | libs/inter_process/mpsc_shared_memory_ring_buffer.h:59-107 | a step refuses a push exactly when it tests a full buffer at its head, and a pop exactly when it tests an unpublished tail; head is at most a capacity ahead, one more only between the consumer's two stores |
| `RingLaws.SoloPush` | libs/inter_process/mpsc_shared_memory_ring_buffer.h:59-83 | an undisturbed push from any reachable state changes nothing exactly when the buffer is full, and otherwise publishes its value at the head |
| `RingLaws.SoloPop` | libs/inter_process/mpsc_shared_memory_ring_buffer.h:91-107 | an undisturbed pop from any reachable state takes the oldest value if it is published, and otherwise changes nothing |
| `RingBuffer.OneSlotLosesValue` | libs/inter_process/mpsc_shared_memory_ring_buffer.h:59-107 | with one slot two pushes and a pop lose the first value |
| `RingBuffer.FaithfulIff` | libs/inter_process/mpsc_shared_memory_ring_buffer.h:59-107 | popped is always a prefix of pushed exactly for capacities of at least two |
| `Candles.Chart.constructor` | frontend-v2/src/App.js:174-226 | an empty chart describes the empty log |
| `Candles.Chart.UpdateCandle` | frontend-v2/src/App.js:194-212 | the branches that create or update a candle write the next candle and bounds that the fold lemmas speak about |
| `Candles.Chart.IngestInto` | frontend-v2/src/App.js:181-219 | one timeframe then holds the batch results of the longer log; other timeframes are untouched |
| `Candles.Chart.IngestTrade` | frontend-v2/src/App.js:177-226 | after one more trade, in any order of times, every bucket of every timeframe holds the batch result of all trades so far |
| `Candles.FoldSummarises` | frontend-v2/src/App.js:199-211 | one step of open, high, low, close, bounds and volume takes the batch result to the next, ties included |
| `Candles.FrameKeeps` | frontend-v2/src/App.js:181-219 | only the trade's own bucket changes; a bucket exists exactly when a trade fell into it |
| `Candles.SummaryUnique` | frontend-v2/src/App.js:174-226 | the batch definition determines the candle |
| `CandleLaws.FrameOf` | frontend-v2/src/App.js:174-226 | the updates of the chart, one trade at a time, give a frame that holds the batch results |
| `CandleLaws.FrameIsUnique` | frontend-v2/src/App.js:174-226 | a chart that holds a log shows exactly that frame |
| `CandleLaws.OrderIsIrrelevantIff` | frontend-v2/src/App.js:174-226 | every order of the same trades shows the same candles and volumes exactly when, in every bucket, the trades at its earliest time agree in price and so do those at its latest |
| `CandleLaws.DistinctTimesDecide` | frontend-v2/src/App.js:174-226 | distinct timestamps meet that condition |
| `CandleLaws.TiedTradesShowOrder` | frontend-v2/src/App.js:202-209 | two trades of one time and two prices show their order |
| `CandleLaws.CoarseIsMergedFine` | frontend-v2/src/App.js:11-18 | a bucket of an n times longer timeframe equals its n finer buckets merged left to right |
| `CandleLaws.TimeframesNest` | frontend-v2/src/App.js:11-18 | each timeframe divides the next |
| `TradeStats.Stats.AddTrade` | simulation/traders/market_maker.h:153-157 | sums and count are those of the prices with one appended |
| `TradeStats.Stats.RemoveTrade` | simulation/traders/market_maker.h:159-163 | sums and count are those of the prices without the oldest |
| `TradeStats.Stats.GetVariance` | simulation/traders/market_maker.h:165-169 | two-pass sample variance; the value before the clamp is already non-negative |
| `TradeStats.OnePassIsSampleVariance` | simulation/traders/market_maker.h:165-169 | the one-pass formula equals the two-pass sample variance and is never negative, over exact reals |
| `TradeStats.NumeratorIsDeviations` | simulation/traders/market_maker.h:165-169 | its numerator is the sum of squared distances from the mean |
| `TradeStats.SlideIsLatest` | simulation/traders/market_maker.h:114-122 | push and conditional drop keep the latest trades, at most the window size |
| `TradeStats.LatestIsSuffix` | simulation/traders/market_maker.h:114-122 | the window is the last thousand trades received, or all of them if there are fewer |
| `TradeStats.MarketDataHandler.ProcessTrade` | simulation/traders/market_maker.h:103-123 | after any trades each ticker's window is its latest thousand and its sums are recomputable from that window; other tickers are untouched |
| `TradeStats.MarketDataHandler.CalculateVariance` | simulation/traders/market_maker.h:88-91 | the variance of a ticker's latest trades, zero for one never traded |

## Left out

- OrderBook.LimitOrderBook.CancelOrder: the stored list iterator is modelled as side and price, with the node found in that level; constant-time access is not modelled.
- RingBuffer.PoppedIsPrefix: counters do not wrap and memory is sequentially consistent; the acquire and release orderings of the code are not modelled.
- Candles.Chart.IngestTrade: the live push of the active timeframe to the chart and merging of history with live trades are not modelled.
- TradeStats.Stats.GetVariance: floating-point rounding is not modelled.
- In the pipeline every send succeeds: gateway routing and the refusal of an order whose cost query could not be sent are not modelled.
- Persistence: database writes are left out, but the lookups and contracts on their way are guards of the settlement steps.
- Trade and snapshot publishing past the building of a snapshot, trade and execution ids, time in force, timestamps.
- FIX, JSON and protobuf conversion, websockets, shared-memory mapping, authentication, deployment and the user interface.
- Trader simulations other than the running variance: price processes and quoting are random or floating point.
- Liveness of blocking pushes and of the service loops, which would need fairness.
