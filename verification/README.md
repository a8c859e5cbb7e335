# Verified model of the trading engine's order and risk core

A Dafny 4.11 model of a two-sided market-making engine, with proofs. `dafny verify dfyconfig.toml`
checks everything.

The engine keeps at most one order per side at an exchange. A strategy thread emits quotes into a
lock-free ring; a quote thread cancels and replaces the two orders under a lock; fills come back
through another ring to a position tracker; a circuit breaker latches a halt, and a watcher then
cancels everything and flattens. A backtest wires the same objects to an in-process exchange.
Around that core stand small streaming structures (rate windows, breaker latches, the volatility
ring, the daily coalescing of the database reporter, one-pass drawdown) and two byte formats (the
market archive and the dashboard's WebSocket frames).

## How it is built

Each stateful component is a class whose methods are proved equal to a specification function of
its old state; the theorems are about those functions over whole runs, as lists of steps or
operations of any length. Two machines close the loop:

* `LiveLoop` interleaves the live engine one REST call or lock-held segment at a time. The breaker
  may trip at any moment, in particular between the last check and `place_order`. The exchange may
  fill, drop, accept or refuse as it likes, except that an order it did not accept never rests,
  that a confirmed cancel (or an "unknown order" code 51400 / -2011) means that the order no longer
  rests, that a market order takes effect when it is placed, and that each execution is reported
  once. A report takes the manager's lock, so it finds no placement under way.
* `BacktestLoop` composes the manager, the gate, the tracker and the simulator without any
  assumption on the exchange, since the exchange is the simulator; `BacktestRunner` holds the
  actual objects and is proved to do what `BacktestLoop` says.

Numbers are `real`; the tolerance 1e-12 of the source is kept. Where a result needs the tolerance
tests to be exact it asks for quantities on a lot grid of at least that size. Times are integers.

## Files

| file | module | models |
|---|---|---|
| Options.dfy | Options | an optional value |
| Bits.dfy | Bits | and, or, xor, masks and shifts on natural numbers |
| Bytes.dfy | Bytes | byte order, and a byte stream with a read position |
| SpscRing.dfy | SpscRing | the ring: the class, and its loads and stores one by one |
| Accounting.dfy | Fills, PositionTracking | fills, the lot grid, the position tracker |
| SimulatedRestClient.dfy | Simulator | the backtest exchange |
| TradeWalk.dfy | TradeWalk | the dashboard's per-trade walk; three accountings agree |
| RiskManager.dfy | Risk | the pre-trade gate and its windows |
| OrderManager.dfy | Orders | the slot state machine and the lock-held segments |
| LiveLoop.dfy | LiveLoop | the live engine as a concurrent state machine |
| BacktestLoop.dfy, BacktestRunner.dfy | BacktestLoop, BacktestRunner | the backtest as a closed loop |
| CircuitBreaker.dfy | Breaker | the halt, the latches, the trigger queue |
| PgReporter.dfy | Reporter | the database consumer |
| MarketMaker.dfy | MarketMaking | the requote gate, and quote tracking through the ring |
| Volatility.dfy | Volatility | the volatility ring |
| BacktestReporter.dfy | BacktestStats | the equity curve and its drawdown |
| Archive.dfy | Archive | the length-prefixed archive |
| WebSocket.dfy | WebSocket | the frame writer and the client reader |

## Model

| member | source | states |
|---|---|---|
| SpscRing.AdvanceIsMod | src/transport/spsc_ring_buffer.hpp:16-26 | masking with N-1 is reduction modulo N, for every size the static assertions admit |
| SpscRing.Ring.constructor | src/transport/spsc_ring_buffer.hpp:20-22 | a new ring is empty |
| SpscRing.Ring.Push | src/transport/spsc_ring_buffer.hpp:24-44 | appends to a FIFO bounded by N-1, or refuses exactly when it is full |
| SpscRing.Ring.Pop | src/transport/spsc_ring_buffer.hpp:46-54 | removes the oldest element, or refuses exactly when the ring is empty |
| SpscRing.Ring.Empty | src/transport/spsc_ring_buffer.hpp:56-58 | true exactly when nothing is held |
| SpscRing.FullTest | src/transport/spsc_ring_buffer.hpp:26-27 | the index tests decide full and empty correctly in every reachable state |
| SpscRing.StepKeepsInv | src/transport/spsc_ring_buffer.hpp:24-54 | every single load or store of either thread keeps the representation invariant, with the other index stale |
| SpscRing.SlotsApart | src/transport/spsc_ring_buffer.hpp:30-51 | the slot being written holds no live element and is never the slot being read |
| SpscRing.StepRefinesFifo | src/transport/spsc_ring_buffer.hpp:24-54 | each load or store is a step of the bounded FIFO or leaves it alone; push takes effect at the head store, pop at the tail store, and a refusal is right at the moment the other index is loaded |
| SpscRing.RingIsSafe | src/transport/spsc_ring_buffer.hpp:24-54 | under every interleaving popped is a prefix of pushed, at most N-1 are held, and writer and reader never share a slot |
| SpscRing.RunRefinesFifo | src/transport/spsc_ring_buffer.hpp:24-54 | after any run, any next load or store refines the bounded FIFO |
| PositionTracking.PositionTracker.ApplyFill | src/risk/position_tracker.cpp:20-72 | refuses exactly the malformed fills without changing anything; otherwise opens, adds, reduces, closes or flips |
| PositionTracking.PositionTracker.UpdateMid | src/risk/position_tracker.cpp:74-76 | takes positive mids only, and touches nothing else |
| PositionTracking.FillOutcome | src/risk/position_tracker.cpp:20-72 | a malformed fill changes nothing; any other moves the inventory by its signed quantity, the entry becomes the fill price when nothing was held or the position turned over, the weighted average when it grew, and stays while it shrinks, and only the closed quantity is realized |
| PositionTracking.FillConserves | src/risk/position_tracker.cpp:27-71 | realized less inventory at entry moves by exactly the fill's cash, plus the drift of a fill on a near-flat position |
| PositionTracking.DriftBound | src/risk/position_tracker.cpp:34-39 | that drift is at most 1e-12 times the price gap, and zero away from near-flat |
| PositionTracking.BooksFollowCash | src/risk/position_tracker.cpp:20-72 | for every list of fills, on the grid or off it, with malformed ones among them: inventory is the net of the accepted fills and the books differ from the cash ledger by no more than the summed drift |
| PositionTracking.BooksAreCash | src/risk/position_tracker.cpp:20-72 | on the lot grid realized - inv*avg_entry is exactly minus the signed cost of all fills |
| PositionTracking.EquityIsLedger | src/risk/position_tracker.hpp:48-56 | equity is the cash ledger marked to the mid, and the same for every permutation of the fills |
| Fills.LedgerPermutes | src/risk/position_tracker.cpp:27-30 | net quantity and cash do not depend on the order of the fills |
| Simulator.SimulatedRestClient.ApplyInvFill | src/execution/simulated_rest_client.cpp:163-185 | the simulator's own average-cost rule |
| Simulator.SimulatedRestClient.VisitOrder | src/execution/simulated_rest_client.cpp:199-236 | one resting order against the book: skip, erase, or fill up to the depth |
| Simulator.SimulatedRestClient.ScanFills | src/execution/simulated_rest_client.cpp:187-238 | visits every resting order once in the order of the walk and erases the filled ones afterwards |
| Simulator.SimulatedRestClient.PlaceOrder | src/execution/simulated_rest_client.cpp:18-42 | accepts every order, then scans, so that a marketable order fills at once |
| Simulator.SimulatedRestClient.PlaceMarketOrder | src/execution/simulated_rest_client.cpp:44-77 | fills at the opposite best, or refuses without a price or a quantity |
| Simulator.SimulatedRestClient.CancelOrder | src/execution/simulated_rest_client.cpp:79-97 | always succeeds, and afterwards the order does not rest |
| Simulator.SimulatedRestClient.UpdateMarket | src/execution/simulated_rest_client.cpp:152-161 | records the book, then scans |
| Simulator.WalkIsDistinct | src/execution/simulated_rest_client.cpp:190-197 | a walk of the resting orders, in whatever order the hash table yields them, meets each id exactly once |
| Simulator.ScanServes | src/execution/simulated_rest_client.cpp:187-238 | over a scan of a quoted book each resting order with something left gets exactly one fill, at its own price, of the smaller of what is left and the depth it meets, if a buy reaches the ask or a sell the bid and that depth is positive, and none otherwise; nothing else fills |
| Simulator.MarketFills | src/execution/simulated_rest_client.cpp:44-77 | a market buy fills whole at the ask and a market sell at the bid, exactly when there is a quantity and that price; resting orders do not notice |
| Simulator.ScanBooksItsFills | src/execution/simulated_rest_client.cpp:214-230 | a scan changes the account by exactly the fills it hands out, in that order |
| TradeWalk.PerTradeRealized | dashboard/src/pages/SessionHistory.tsx:25-58 | takes the trades in any order, sorts them stably by time, and pairs each with the result of the recursive walk over the sorted list |
| TradeWalk.WalkAll | dashboard/src/pages/SessionHistory.tsx:30-57 | the loop over the sorted trades |
| TradeWalk.AscendingSorts | dashboard/src/pages/SessionHistory.tsx:27 | the sort is ascending, a permutation, and keeps the order among equal timestamps |
| TradeWalk.WalkTrade | dashboard/src/pages/SessionHistory.tsx:30-56 | one trade of the walk: add, reduce, close or flip |
| TradeWalk.SortingRecovers | dashboard/src/pages/SessionHistory.tsx:27 | with distinct timestamps the sort recovers the order of events from any order of arrival |
| TradeWalk.FillKeepsAgreement | src/risk/position_tracker.cpp:27-71 | one grid fill keeps tracker, simulator and walk in step, and the walk reports for it what the tracker realized less the fee |
| TradeWalk.AccountingsAgree | dashboard/src/pages/SessionHistory.tsx:22-58 | over every grid fill list the three accountings have equal inventory, equal entry while open, and the per-trade results add up to realized less fees |
| Risk.PruneFront | src/risk/risk_manager.cpp:40-42 | the popping loop drops the stale prefix |
| Risk.RiskManager.RecordSubmission | src/risk/risk_manager.cpp:37-50 | prunes the window and appends the submission |
| Risk.RiskManager.RecordCancel | src/risk/risk_manager.cpp:52-56 | the same for the cancel window, and nothing else |
| Risk.RiskManager.RecordRejection | src/risk/risk_manager.cpp:58-64 | the same for the 30 s rejection window |
| Risk.RiskManager.RejectionsInWindow | src/risk/risk_manager.cpp:66-73 | the number of rejections left after pruning; approvals do not reset it |
| Risk.RiskManager.PreTradeCheck | src/risk/risk_manager.cpp:75-122 | the first violated limit in the order of the code, a rejection recorded for it, and the rate window pruned only once the earlier checks pass |
| Risk.ApprovedIff | src/risk/risk_manager.cpp:82-113 | approved exactly when none of the six limits is broken |
| Risk.VerdictIs | src/risk/risk_manager.cpp:82-113 | the verdict is the first violated limit, written out in plain arithmetic for every limit |
| Risk.ApprovedExactly | src/risk/risk_manager.cpp:82-113 | approved exactly when all six hold, the band as 100 mid - pct mid <= 100 price <= 100 mid + pct mid whenever the mid is known |
| Risk.BandIs | src/risk/risk_manager.cpp:91-94 | the price test refuses exactly prices outside that band, on either side of a known mid, and none without a mid |
| Risk.CheckLeaves | src/risk/risk_manager.cpp:75-122 | a check prunes the rate window exactly when position, size and price have passed, records exactly the refusals, and touches nothing else |
| Risk.SanePriceIsPositive | src/risk/risk_manager.cpp:91-94 | with a sanity band below 100 percent and a known mid, no price of zero or less passes |
| Risk.BucketIsRecentHistory | src/risk/risk_manager.cpp:37-44 | with nondecreasing times the pruned deque is the whole submission history filtered to the closed window ending now |
| Risk.RateBound | src/risk/risk_manager.cpp:95-106 | any 60 s window of gated submissions holds at most the threshold plus one |
| Orders.TransitionsClimb | src/execution/order_manager.cpp:39-62 | every permitted transition climbs a rank |
| Orders.PermittedMoves | src/execution/order_manager.cpp:39-62 | the permitted pairs are exactly these twelve |
| Orders.TerminalAbsorbs | src/execution/order_manager.cpp:56-59 | FILLED, CANCELED and REJECTED are exactly the states without a successor |
| Orders.CidsAreUnique | src/execution/order_manager.cpp:93-103 | different counter values give different client order ids |
| Orders.DecimalReadsBack | src/execution/order_manager.cpp:98-101 | both numbers of an id are written in digits alone that read back to them |
| Orders.OrderManager.Transition | src/execution/order_manager.cpp:349-361 | makes a permitted move or leaves the slot alone, and logs which |
| Orders.OrderManager.SyncOpenOrders | src/execution/order_manager.cpp:370-379 | publishes the number of live slots |
| Orders.OrderManager.BeginSide | src/execution/order_manager.cpp:171-188 | keep within the threshold, cancel first, or place |
| Orders.OrderManager.PrepareOrder | src/execution/order_manager.cpp:192-212 | a fresh id, and the slot walked from NEW through PENDING to SUBMITTED |
| Orders.OrderManager.TurnDown | src/execution/order_manager.cpp:218-238 | REJECTED, with the count published |
| Orders.OrderManager.ReceiveAck | src/execution/order_manager.cpp:242-250 | ACKNOWLEDGED under the exchange's id, with the count published |
| Orders.OrderManager.ConfirmCancel | src/execution/order_manager.cpp:319-336 | CANCELED and inactive, with the count published |
| Orders.OrderManager.CancelSlot | src/execution/order_manager.cpp:308-347 | records each attempt with the risk manager, stops at the first answer of three that accepts or carries code 51400 or -2011, and otherwise gives the slot up after exactly three and escalates |
| Orders.OrderManager.NoteFill | src/execution/order_manager.cpp:411-432 | adds to the executed quantity, and finishes or part-fills the order |
| Orders.FullIs | src/execution/order_manager.cpp:411-432 | an order counts as full exactly when less than 1e-12 is missing |
| Orders.OrderManager.InjectFill | src/execution/order_manager.cpp:400-442 | the first active slot of that id takes the fill, then the ring takes it if it fits |
| Orders.InjectedIs | src/execution/order_manager.cpp:400-442 | the fill counts towards the first active slot under its id whether or not the ring takes it, and the ring takes it exactly when it fits the message and there is room |
| Orders.OrderManager.TimedOut | src/execution/order_manager.cpp:141-155 | the watchdog's condition |
| LiveLoop.StepKeepsInv | src/execution/order_manager.cpp:157-254 | every step of every thread, of the exchange and of the breaker keeps the global invariant |
| LiveLoop.RunKeepsInv | src/execution/order_manager.cpp:117-190 | so does every run |
| LiveLoop.NoOrphanOrders | src/execution/order_manager.cpp:171-254 | whenever the lock is free, each resting order is that of an ACKNOWLEDGED or PARTIALLY_FILLED slot of its side, or its cancel failed persistently and the breaker is halted |
| LiveLoop.OneOrderPerSide | src/execution/order_manager.cpp:171-254 | at every moment, even inside a REST call, at most one order per side rests |
| LiveLoop.OrdersFollowQuotes | src/execution/order_manager.cpp:157-190 | whenever the lock is free, each resting order that is not lost is within the threshold of its own side of the last quote handled: a buy of the bid, a sell of the ask |
| LiveLoop.OrdersAreSentAsQuoted | src/execution/order_manager.cpp:192-250 | every order goes out under a fresh id, at exactly its side of the quote in hand and for the quoted quantity |
| LiveLoop.NoOrderAfterHalt | src/execution/order_manager.cpp:501-507 | a halt is never undone, and once `on_halt` has completed no later step of any run calls `place_order`, even if the halt fell between check and send |
| LiveLoop.NothingRestsAfterHalt | src/execution/order_manager.cpp:467-507 | when `on_halt` completes, and ever after, an order that still rests is one whose cancel had failed persistently by then; if none had, nothing rests |
| LiveLoop.SlotsWhenFree | src/execution/order_manager.cpp:141-155 | whenever the lock is free no slot is PENDING or SUBMITTED, the watchdog does not fire, the published count is the number of live slots, and the state tells exactly how far an order is filled |
| LiveLoop.AuditLogClimbs | src/execution/order_manager.cpp:349-361 | no transition is ever refused, and the states of one client order id strictly climb |
| LiveLoop.FillsExactlyOnce | src/execution/order_manager.cpp:381-465 | the fills the ring accepted are those applied, in order, then the one popped but not yet applied, then those queued, so tracker inventory plus what is to come is their net |
| LiveLoop.PositionWithinLag | src/execution/order_manager.cpp:224-240 | with lagging fills the true position, even with a whole side filled, is within max_position plus the lag at the last approval of that side plus what flattens have moved it that way since |
| BacktestLoop.BooksStayTheSame | src/backtest/backtest_runner.cpp:99-121 | in every run tracker and simulator have booked the same list of fills |
| BacktestLoop.AgreeOnGridFills | src/backtest/backtest_runner.cpp:99-121 | whenever a run's fills are valid and on the grid, the three accountings agree |
| BacktestLoop.RunKeepsOwned | src/execution/order_manager.cpp:171-254 | in every run, sweeps and unsafe prices included, each resting order is that of the acknowledged slot of its side, and the tracker's mid is the last positive one shown |
| BacktestLoop.QuoteReachesItsSides | src/execution/order_manager.cpp:157-190 | in every run an unhalted quote keeps a live order within the threshold, and otherwise puts a new one under the next id at exactly the bid on the first slot and the ask on the second, for the quoted quantity; so each live slot is near its own side |
| BacktestLoop.RestingOrdersAreSlots | src/execution/order_manager.cpp:192-250 | in every run each resting order has the id, side, price and quantity of the slot of its side |
| BacktestLoop.MarketIsSeen | src/backtest/backtest_runner.cpp:138-139 | a record replaces the book and sets the mid halfway between bid and ask when that is positive |
| BacktestLoop.AccountingsAgreeInRuns | src/backtest/backtest_runner.cpp:99-121 | in every run whose quotes are at positive prices, or held to them by a sane band, and whose depths and quoted quantities are whole lots, the three accountings agree; all conditions are on the inputs |
| BacktestLoop.PositionLimit | src/execution/order_manager.cpp:224-240 | in every run of market updates, quotes and trips, whatever the prices and quantities, inventory plus the remaining BUY and minus the remaining SELL stays within max_position |
| BacktestLoop.PositionLimitWithFlatten | src/execution/order_manager.cpp:585-604 | with halts that flatten too, for positive quotes or a sane band: inventory within the limit and equal to the exchange's, so reconciliation never escalates |
| BacktestLoop.OrderRateBound | src/execution/order_manager.cpp:229-240 | in every run whose quotes arrive in time order, the exchange is sent at most the threshold plus one limit orders in any 60 seconds |
| BacktestLoop.HaltLeavesNothing | src/execution/order_manager.cpp:467-507 | in every halted run, whatever its prices and even if local and exchange inventory differ: after `on_halt` nothing rests, and the position is within the flatten threshold exactly when it needs no flatten or the book has the price for one; then that stays so through every later operation |
| BacktestLoop.QuietForever | src/execution/order_manager.cpp:157-161 | once halted and quiet, no sequence of operations changes that |
| BacktestLoop.FlattenedAccount | src/execution/order_manager.cpp:480-498 | a market order for the whole of the exchange's position leaves none, exactly when it can be filled |
| BacktestRunner.BacktestRunner.constructor | src/backtest/backtest_runner.cpp:62-78 | the objects start in the loop's initial state |
| BacktestRunner.BacktestRunner.Feed | src/backtest/backtest_runner.cpp:101-102 | simulator fills reach the tracker synchronously, in order |
| BacktestRunner.BacktestRunner.PlaceNew | src/execution/order_manager.cpp:192-254 | the actual objects place an order exactly as the loop says: halt check, gate, record, place, fills, acknowledgement |
| BacktestRunner.BacktestRunner.SendOrder | src/execution/order_manager.cpp:241-250 | the order, its immediate fills into the tracker, then the acknowledgement |
| BacktestRunner.BacktestRunner.CancelSlot | src/execution/order_manager.cpp:308-324 | the simulator confirms the first attempt |
| BacktestRunner.BacktestRunner.MaybeRequoteSide | src/execution/order_manager.cpp:171-190 | keep, or cancel and place, on the actual objects |
| BacktestRunner.BacktestRunner.OnQuote | src/execution/order_manager.cpp:157-165 | the objects do what the loop's `OnQuote` does: dropped while halted, otherwise the bid to the first slot, then the ask to the second (`QuoteReachesItsSides`) |
| BacktestRunner.BacktestRunner.OnRecord | src/backtest/backtest_runner.cpp:136-142 | one archive record: a missing depth becomes 0.001, the simulator scans, then the mid is updated |
| BacktestRunner.BacktestRunner.Flatten | src/execution/order_manager.cpp:477-498 | sized from the exchange's position, above the threshold only |
| BacktestRunner.BacktestRunner.OnHalt | src/execution/order_manager.cpp:467-507 | cancels the live slots, then flattens |
| BacktestRunner.BacktestRunner.Reconcile | src/execution/order_manager.cpp:585-604 | escalates exactly when the inventories differ by more than the tolerance |
| Breaker.CircuitBreaker.SetHaltAndEnqueue | src/risk/circuit_breaker.cpp:154-184 | halts, keeps the first time, and queues up to 64 triggers |
| Breaker.CircuitBreaker.Notify | src/risk/circuit_breaker.cpp:142-152 | an outside cause halts and queues, and leaves the latches alone |
| Breaker.CircuitBreaker.PublishPending | src/risk/circuit_breaker.cpp:186-218 | empties the queue, offering each trigger to the outgoing ring in order, and counts what a full ring refuses |
| Breaker.CircuitBreaker.TickDrawdown | src/risk/circuit_breaker.cpp:64-81 | peak and drawdown latch; raises on the rising edge only |
| Breaker.CircuitBreaker.TickUnhedged | src/risk/circuit_breaker.cpp:88-108 | timer and unhedged latch; raises on the rising edge only |
| Breaker.CircuitBreaker.TickDailyLoss | src/risk/circuit_breaker.cpp:113-124 | daily-loss latch; raises on the rising edge only |
| Breaker.CircuitBreaker.TickRejections | src/risk/circuit_breaker.cpp:127-137 | rejection latch; raises on the rising edge only |
| Breaker.CircuitBreaker.CheckAll | src/risk/circuit_breaker.cpp:58-137 | the four checks in order raise exactly the latches that went up, in that order |
| Breaker.CircuitBreaker.DoTick | src/risk/circuit_breaker.cpp:58-140 | a tick is the four checks, then publication |
| Breaker.PeakIsMax | src/risk/circuit_breaker.cpp:64-65 | the peak is the maximum of zero and every sampled equity |
| Breaker.DrawdownIs | src/risk/circuit_breaker.cpp:66-68 | the percentage test is (peak - equity) * 100 > limit * peak for a positive peak |
| Breaker.OverdueIs | src/risk/circuit_breaker.cpp:94-96 | the test in whole milliseconds is a test in nanoseconds that rounds up |
| Breaker.LongestRun | src/risk/circuit_breaker.cpp:90-97 | timing the non-flat run from its first tick decides whether any unbroken run exceeds the limit |
| Breaker.LatchesFollowHistory | src/risk/circuit_breaker.cpp:58-140 | every latch holds exactly while its condition holds of the tick history (the drawdown one while (P - last) * 100 > limit * P for the highest equity P above the floor), and each tick fires exactly the conditions that have just become true, once each |
| Breaker.NegativeLimitLags | src/risk/circuit_breaker.cpp:90-97 | for a negative limit the unhedged latch lags its condition, so the limit must not be negative |
| Breaker.HaltedOnceFired | src/risk/circuit_breaker.cpp:154-218 | halted exactly when anything has fired, never undone, its time that of the operation that first fired; every trigger is handed to the ring in order, pending, or counted as dropped or refused; the ring's reader gets what was handed over, in order |
| Breaker.QueueKeepsEarliest | src/risk/circuit_breaker.cpp:154-184 | of any list of triggers the queue keeps the earliest up to 64 and counts exactly the rest as dropped |
| Breaker.RingTakesEarliest | src/risk/circuit_breaker.cpp:186-218 | publication hands over the earliest triggers that fit the ring and counts exactly the rest as refused |
| Reporter.PgReporter.Push | src/db/pg_reporter.cpp:101-108 | offers the event to the ring; false exactly when it is full |
| Reporter.PgReporter.Take | src/db/pg_reporter.cpp:199-220 | one event: current day replaced, old day's row added at a rollover, other rows batched |
| Reporter.PgReporter.Gather | src/db/pg_reporter.cpp:196-222 | takes a prefix of the ring and stops only at a full batch or an empty ring |
| Reporter.PgReporter.FlushSingly | src/db/pg_reporter.cpp:430-452 | the one-by-one fallback with its counts, cut short when the connection cannot be restored |
| Reporter.PgReporter.FlushBatch | src/db/pg_reporter.cpp:317-456 | two attempts at the whole batch with a reconnect between, then one by one after another; each lost connection is a failure that keeps the batch |
| Reporter.OutcomeIs | src/db/pg_reporter.cpp:333-430 | a flush commits exactly when one of the two attempts succeeds over a working connection, and falls back only after two refusals and a third connection |
| Reporter.PgReporter.MaybeFlush | src/db/pg_reporter.cpp:224-241 | flushes by size, or by the time since the last flush, and gives the batch up at the second failure in a row; the clock restarts on success and on giving up only |
| Reporter.PgReporter.Drain | src/db/pg_reporter.cpp:254-255 | takes the whole rest of the ring, uncoalesced |
| Reporter.PgReporter.Stop | src/db/pg_reporter.cpp:246-259 | current day's row, rest of the ring, one flush whose result is ignored |
| Reporter.SinglyIsCommit | src/db/pg_reporter.cpp:430-452 | a fallback that skips nothing and is not cut short does what a whole commit does |
| Reporter.BatchStaysBounded | src/db/pg_reporter.cpp:198 | before shutdown the batch never exceeds 2*batch_size, whatever the database does |
| Reporter.RowsAreCounted | src/db/pg_reporter.cpp:196-241 | flushed, dropped and waiting rows together are the plain events plus one for every day that ended; a fallback that is cut short is the one way to count too few, and nothing is counted twice |
| Reporter.SecondRefusalDrops | src/db/pg_reporter.cpp:227-241 | of batches that find the database out of reach, every second in a row is given up and counted, and the one before it is kept whole |
| Reporter.LoopKeepsEverything | src/db/pg_reporter.cpp:186-245 | while nothing is dropped, database and batch hold every plain event once in order, and the daily table except for overtaken rows dated zero |
| Reporter.CoalescingIsTransparent | src/db/pg_reporter.cpp:186-259 | after stop the plain events are there once in order; the daily table is that of upserting every daily event in ring order exactly when no row dated zero was overtaken in the loop, and always so for the other dates; failures and retries allowed as long as nothing was counted as dropped |
| Reporter.ZeroDateIsLost | src/db/pg_reporter.cpp:207-214 | a concrete pair of events for which the tables differ |
| MarketMaking.MarketMaker.DecideRequote | src/strategy/market_maker.cpp:41-62 | the requote gate with its force path |
| MarketMaking.MarketMaker.EmitQuote | src/strategy/market_maker.cpp:64-96 | offers the quote to the ring and remembers it even when the ring is full |
| MarketMaking.MarketMaker.PassGate | src/strategy/market_maker.cpp:133-140 | both sides go through the risk manager's check, buy first, and both must be approved |
| MarketMaking.BothCheckedIs | src/strategy/market_maker.cpp:133-140 | the gate passes exactly when a buy of the whole quantity at the bid and a sell of it at the ask keep every limit |
| MarketMaking.MarketMaker.OnSignals | src/strategy/market_maker.cpp:98-148 | emits exactly when signals are valid, the breaker is not halted, the gate passes both sides and the quote should move; the gate is consulted, with its effects, only for valid signals and an unhalted breaker; otherwise nothing changes |
| MarketMaking.DecliningIsNear | src/strategy/market_maker.cpp:41-62 | declining means that the fresh quote is within two thresholds of the last |
| MarketMaking.GateDeclines | src/strategy/market_maker.cpp:41-62 | declining, exactly: within two thresholds and too soon, or within one with tier and regime unchanged and the quote young enough |
| MarketMaking.PricedShape | src/strategy/market_maker.cpp:109-124 | the quote is delta wide about the reservation price less the skew, so bid is below ask exactly for a positive delta |
| MarketMaking.LongerQuotesLower | src/strategy/market_maker.cpp:109-124 | with positive risk aversion, variance and horizon, at the same spread and no smaller skew, a longer inventory quotes strictly lower on both sides |
| MarketMaking.TierIs | src/strategy/market_maker.cpp:24-31 | the tiers are the quarters of the largest inventory, long or short |
| MarketMaking.RegimeIs | src/strategy/market_maker.cpp:33-39 | the regimes are below the baseline, below its multiple, and the rest |
| MarketMaking.OrdersTrackQuotes | src/execution/order_manager.cpp:180-188 | with placements accepted, once all quotes have arrived and none was lost to a full ring: whenever the gate declines, each resting order is within three thresholds of the fresh quote, through any fills and any delay in the ring |
| MarketMaking.FastEmitsMoveFar | src/strategy/market_maker.cpp:53-55 | two consecutive emits closer than min_requote_ms are more than two thresholds apart |
| Volatility.TickVolatility.PushMid | src/market_data/volatility.hpp:24-34 | ignores mids of zero or less; otherwise shifts the window and publishes the deviation of it |
| Volatility.TickVolatility.ComputeStdev | src/market_data/volatility.hpp:43-70 | the deviation of the log returns of the prices in chronological order |
| Volatility.TickVolatility.LogReturns | src/market_data/volatility.hpp:47-60 | the walk from idx_ yields the returns of the chronological window |
| Volatility.TickVolatility.Spread | src/market_data/volatility.hpp:61-69 | mean, then mean squared distance, then root |
| Volatility.PushShifts | src/market_data/volatility.hpp:26-32 | overwriting at idx_ is dropping the oldest and appending |
| Volatility.WalkAt | src/market_data/volatility.hpp:48-55 | stepping modulo the size from idx_ visits the prices in order of arrival |
| Volatility.WalkIsSuffix | src/market_data/volatility.hpp:47-60 | the walk visits exactly the last min(n, window) positive mids in order of arrival |
| Volatility.PublishedIsOfSuffix | src/market_data/volatility.hpp:24-39 | the published value is a function of that suffix alone |
| Volatility.FeedIsForgotten | src/market_data/volatility.hpp:24-39 | a windowful of positive mids wipes out everything before it |
| Volatility.ReturnsAt | src/market_data/volatility.hpp:47-60 | one return for every pair of neighbours, the logarithm of the later price over the earlier |
| Volatility.ReturnsTelescope | src/market_data/volatility.hpp:47-60 | for a logarithm the returns add up to that of the whole move |
| Volatility.DeviationIsOfMoments | src/market_data/volatility.hpp:61-69 | the value is the root of the population variance, which times n is the sum of squares less n times the mean squared |
| BacktestStats.BacktestReporter.OnEquitySample | src/backtest/backtest_reporter.cpp:22-29 | appends the sample and updates peak and drawdown |
| BacktestStats.FallIs | src/backtest/backtest_reporter.cpp:24-27 | a fall in percent of the peak, times the peak, is a hundred times the difference |
| BacktestStats.BacktestReporter.Finalize | src/backtest/backtest_reporter.cpp:37-54 | final equity, profit over the initial capital, and the ratios, zero without fills |
| BacktestStats.OnePassIsDefinition | src/backtest/backtest_reporter.cpp:22-29 | with positive capital the one-pass drawdown is always some fall between points i <= j, the capital included, and it is the maximum of them exactly when no sample is negative, or the worst fall into a negative sample starts from the capital before the curve had any other positive value |
| BacktestStats.NonnegativeFallsBounded | src/backtest/backtest_reporter.cpp:22-29 | a fall into a point that is not negative never exceeds the one-pass value, whatever the rest of the curve |
| BacktestStats.OnePassIsPeakFall | src/backtest/backtest_reporter.cpp:22-29 | for any equities it is the largest fall from the running peak, or zero |
| BacktestStats.PeakIsWorstStart | src/backtest/backtest_reporter.cpp:24-27 | the running peak gives a sample's worst fall exactly when the sample is not negative or every earlier positive point is the peak |
| BacktestStats.NegativeEquityUnderstates | src/backtest/backtest_reporter.cpp:24-27 | a curve through negative equity for which the one-pass value is too small |
| Archive.WriteRecordLe | src/backtest/historical_data_loader.cpp:42-50 | appends a four-byte little-endian length and the record |
| Archive.FrameLayout | src/backtest/historical_data_loader.cpp:42-50 | four length bytes, the lowest first, and then the record |
| Archive.StreamArchive | src/backtest/historical_data_loader.cpp:119-143 | the reading loop hands out what the recursive reader yields, with its verdict |
| Archive.RoundTrip | src/backtest/historical_data_loader.cpp:42-143 | streaming back any list of records of 1 to 2^20 bytes yields that list and true |
| Archive.CutAnywhere | src/backtest/historical_data_loader.cpp:127-139 | any byte prefix yields the records wholly before the cut, and true exactly on a record boundary |
| Archive.StreamedIsFaithful | src/backtest/historical_data_loader.cpp:127-140 | for any bytes at all, what is handed out re-encodes to a prefix of the file, and the reader reports success exactly when that is all of it |
| WebSocket.WriteFrame | dashboard_backend/server.go:1547-1572 | appends one final, unmasked frame with the shortest length form |
| WebSocket.MakeHeader | dashboard_backend/server.go:1549-1563 | the three header forms |
| WebSocket.HeaderLayout | dashboard_backend/server.go:1549-1563 | first byte 128 plus the opcode; the length in 7 bits, or after 126 in two bytes, or after 127 in eight, in network byte order |
| WebSocket.FramesReadBack | dashboard_backend/server.go:1547-1572 | any concatenation of written frames decodes to the same opcodes and payloads (RFC 6455, section 5.2) |
| WebSocket.Unmask | dashboard_backend/server.go:1635-1637 | the in-place loop applies the mask byte by byte |
| WebSocket.UnmaskedBits | dashboard_backend/server.go:1635-1637 | bit k of byte i comes out as one exactly when bit k of the wire byte differs from bit k of key byte i mod 4 (RFC 6455, section 5.3) |
| WebSocket.UnmaskingRestores | dashboard_backend/server.go:1635-1637 | a wire body that differs from a payload in exactly the bits where the key has a one unmasks to that payload |
| WebSocket.ReadLength | dashboard_backend/server.go:1602-1616 | the three length forms, the longest as a signed number |
| WebSocket.ReadMasked | dashboard_backend/server.go:1626-1637 | mask, payload, unmasking |
| WebSocket.ReadOne | dashboard_backend/server.go:1597-1645 | one frame, with a close frame sent exactly when it is over the limits |
| WebSocket.ReadClient | dashboard_backend/server.go:1586-1658 | the loop offers and ends as the recursive reader says |
| WebSocket.MaskingUndoes | dashboard_backend/server.go:1635-1637 | masking twice with the same key gives the payload back (RFC 6455, section 5.3) |
| WebSocket.FrameReadsBack | dashboard_backend/server.go:1597-1645 | a frame in any length form is read back whole, without its payload if it is unmasked, or refused exactly when it is over the limits |
| WebSocket.FramesAreOffered | dashboard_backend/server.go:1586-1658 | any stream of frames within the limits, masked or not, offers one payload per ping before the first close, an unmasked one as empty |
| WebSocket.OffersArePings | dashboard_backend/server.go:1638-1655 | the offers are the pings' own payloads exactly when every unmasked ping before the first close is empty |
| WebSocket.PingsAreOffered | dashboard_backend/server.go:1586-1658 | any stream of masked frames within the limits, their wire bytes described bit by bit, offers exactly the ping payloads before the first close, in order (RFC 6455, section 5.5) |
| WebSocket.OverLimitStops | dashboard_backend/server.go:1620-1624 | the first frame over the limits ends the reading, whatever follows |
| WebSocket.NegativeLengthIs | dashboard_backend/server.go:1611-1631 | a negative length is read exactly from a masked frame in the longest form with the top length bit set; unmasked, such a frame passes for an empty one |
| WebSocket.NegativeLengthStops | dashboard_backend/server.go:1611-1631 | after frames within the limits such a header ends the reading with what has been offered so far |
| WebSocket.PongsEchoPings | dashboard_backend/server.go:1578-1580 | the pongs written for what was offered carry opcode 10 and decode to the offered payloads, which for masked frames are the pings' own |

## Where the code and its own words differ

* The "consecutive" rejection count is a count over 30 seconds; an approval does not reset it.
* The watchdog for missing acknowledgements cannot fire: no slot is SUBMITTED while the lock is free.
* The reporter loses a daily row dated zero that another date overtakes in the loop
  (`CoalescingIsTransparent`, `ZeroDateIsLost`).
* The one-pass drawdown can understate falls into negative equity (`OnePassIsDefinition`,
  `NegativeEquityUnderstates`).
* The reader does not reject unmasked client frames: it discards the payload, and an unmasked ping
  is offered with an empty one (`FramesAreOffered`, `OffersArePings`).
* A masked frame in the longest form with the top length bit set, which RFC 6455 forbids, reads as a
  negative length, for which the reader cannot make a buffer; it panics there
  (`NegativeLengthIs`, `NegativeLengthStops`).

## Left out

- LiveLoop.PositionWithinLag: a flatten's market order takes effect when it is placed; one that fills later is not modelled.
- LiveLoop.NothingRestsAfterHalt: does not bound the position of a live exchange, whose market orders may fill partly; for the simulator `HaltLeavesNothing` does.
- BacktestLoop.PositionLimitWithFlatten: asks for positive quotes or a sanity band below 100 percent with a known mid, because a simulator fill at a price of zero or less is refused by the tracker.
- Reporter.CoalescingIsTransparent: says nothing about flushes that dropped or were cut short; the source does not account for the events lost there.
- BacktestLoop.OrderRateBound: limit orders only; a flatten's market order passes no gate, in the source as here.
- MarketMaking.OrdersTrackQuotes: runs in which a cancel fails, a placement is refused or the breaker halts are outside it; then the last quote need not have reached the exchange.
- Floating-point rounding: numbers are exact reals, so "near-flat" residues arise only off the lot grid.
- Hardware memory ordering: loads and stores are sequentially consistent; the acquire and release pairs are what makes that adequate for one producer and one consumer.
- Reads of equity that fall between the tracker's stores: a tick or a check sees a whole tracker state.
- 64-bit wrap of the client order id counter, and the textual id itself outside `CidsAreUnique` and `DecimalReadsBack`: elsewhere the counter value stands for the id.
- In the live machine the risk gate is represented by its position check alone, the only one the live results use; the whole gate is in `Risk`, in the market maker and in the backtest machine.
- The shutdown path's five-second budget: it may skip either slot, and its flatten is the same step as that of a halt.
- A breaker notification that arrives in the middle of a tick counts as coming before or after it; a risk event too large for the ring's message, and a breaker without a ring, are not modelled.
- The reporter's dry mode, its pool of connections beyond one, and its schema text.
- The spread model, the logarithm and square root, and the signal aggregation enter as parameters.
- `amend_order`, latency percentiles, reconciliation of unknown orders (it only warns), FIX, order book getters, Sharpe ratio, CSV parsing and output, FlatBuffer encoding (an exact copy), SQL text, sockets, deadlines and thread scheduling.
- WebSocket write errors: the connection takes every byte.
