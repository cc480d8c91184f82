# Polymarket market-making bot: a Dafny model of its decision logic

This project models the deterministic core of an automated market maker
for Polymarket prediction markets. The model covers these parts:

- **Order-book mirror.** The bot keeps a per-asset book (`all_data`) up
  to date from websocket snapshots and deltas.
- **Market-feed dispatch.** Messages pass a subscription filter. Price
  changes that trigger trading are subject to a 30-second per-asset
  cooldown.
- **In-flight trade tracker.** The `performing` sets and their
  timestamps. User trade events update them, and a periodic sweep
  evicts entries older than 15 seconds.
- **Scheduler arithmetic.** The 1..30 periodic cycle counter and the
  5–60 second reconnect backoff.
- **Quote pricing and sizing.** The best-level scan, the YES/NO
  complement for the second token, and the reward-optimal price with
  tick rounding. Also the bid/ask blend with its clamps, decimal
  floor/ceil and the buy/sell amounts.
- **Maker-reward estimate.** The estimate itself and the 300-second
  gate in front of reward snapshots.
- **Market-selection rule.** How the selection script filters, orders,
  counts and sizes new markets.
- **Config cache and validation.** The 60-second config cache with
  fallback on error, the trade-significance predicate, the per-market
  parameters and the environment validator.
- **Dry-run simulation engine.** Virtual orders match as a taker at the
  touch. Fills update the order, the signed virtual position (with its
  weighted-average cost) and the virtual cash. The engine also covers
  cancellation, id counters, the drawdown scan and the report.

Prices and sizes are exact `real`s. The clock ("now") is a parameter.
Three environment flags become parameters: two-sided market making,
aggressive mode and dry run. So do the outcomes of calls into code outside the
model, such as whether a storage backend raised or what a fetch
returned.

Code that updates state in place is modelled as classes with methods:
`VirtualPosition`, `SimulationEngine`, the bot's `GlobalState`, the
storage object and the snapshot gate. Each method is proved against a
pure function of the old state. The properties the code promises are
proved about those functions as lemmas.

Modules, one per file:

| file | module | models |
|---|---|---|
| `util.dfy` | `Util` | `Option`, ASCII case mapping, substring search, Python truthiness of optional strings |
| `sorted_book.dfy` | `SortedBook` | a `SortedDict` from price to size, as a strictly ascending sequence of levels |
| `simulation_models.dfy` | `SimulationModels` | `poly_data/simulation_models.py` |
| `simulation_engine.dfy` | `SimulationEngine` | `poly_data/simulation_engine.py` |
| `data_processing.dfy` | `DataProcessing` | `poly_data/data_processing.py` and the global-state fields it uses |
| `scheduler.dfy` | `Scheduler` | the loops of `main.py` |
| `trading_utils.dfy` | `TradingUtils` | `poly_data/trading_utils.py` |
| `reward_tracker.dfy` | `RewardTracker` | `poly_data/reward_tracker.py` |
| `market_selection.dfy` | `MarketSelection` | the selection rule of `update_selected_markets.py` |
| `hybrid_storage.dfy` | `HybridStorage` | `poly_data/hybrid_storage.py` |
| `config.dfy` | `Config` | `poly_data/config.py` |

Where the repository's prose and its code disagree, the model follows
the code. Three cases:

- **Zero-size levels.** A book snapshot keeps levels of size 0:
  `process_book_data` copies every entry, so a zero-size level persists
  until a delta deletes it. See `SortedBook.SnapshotScenario`.
- **Second-best level.** The second-best level is the level right after
  the best one, whatever its size.
- **Key without a timestamp map.** `remove_from_pending` raises
  `KeyError` on an in-flight key that has no timestamp map. The
  per-trade `except` catches it, so those entries are never swept.
  `Scheduler.StampsOf` reads such a key as having no timestamps.

## Model

| member | source | states |
|---|---|---|
| SimulationModels.VirtualOrder.RemainingSize | poly_data/simulation_models.py:55-58 | the filled size plus the remaining size is the order's size |
| SimulationModels.VirtualOrder.IsFilled | poly_data/simulation_models.py:60-63 | an order is filled exactly when nothing remains to fill |
| SimulationModels.ApplyFill | poly_data/simulation_models.py:117-176 | in every branch the signed position moves by exactly +qty for a BUY and −qty for a SELL |
| SimulationModels.CloseShort | poly_data/simulation_models.py:130-145 | buying against a short grows the signed size by the fill's quantity |
| SimulationModels.AddLong | poly_data/simulation_models.py:146-150 | buying into a flat or long position grows the size by the fill's quantity |
| SimulationModels.CloseLong | poly_data/simulation_models.py:153-168 | selling against a long shrinks the size by the fill's quantity |
| SimulationModels.AddShort | poly_data/simulation_models.py:169-173 | selling into a flat or short position shrinks the size by the fill's quantity |
| SimulationModels.UnrealizedPnl | poly_data/simulation_models.py:178-182 | 0 when flat, otherwise (price − avg) × size |
| SimulationModels.AddingFillAveragesCost | poly_data/simulation_models.py:146-173 | a same-direction fill realizes nothing and grows \|size\| by the quantity; size × avg gains the fill's signed notional; the new average lies between the old average and the fill price, and equals the fill price from flat |
| SimulationModels.AddLongAverages | poly_data/simulation_models.py:146-150 | the long case: the new average is the size-weighted average of the old average and the fill price |
| SimulationModels.AddShortAverages | poly_data/simulation_models.py:169-173 | the short case: the same weighted average for shorts |
| SimulationModels.AverageBetween | poly_data/simulation_models.py:148-150 | a weighted average lies between its two inputs, and is the second when the first has no weight |
| SimulationModels.ClosingFillRealizes | poly_data/simulation_models.py:129-168 | a closing fill realizes (exit − entry) on the closed quantity, min(\|size\|, qty); a partial close keeps the average and the sign; an exact close gives (0, 0); an over-close flips the sign at the fill price |
| SimulationModels.FillConservesMarkToMarket | poly_data/simulation_models.py:117-176 | at any mark price, realized PnL plus the new unrealized PnL equals the old unrealized PnL plus the fill's own gain at that mark, so a fill creates no value |
| SimulationModels.BuyThenSellRoundTrip | poly_data/simulation_models.py:146-165 | from flat, buying x at p and selling x at p returns to (0, 0) with zero total realized PnL |
| SimulationModels.PartialCloseScenario | poly_data/simulation_models.py:152-168 | from 100 at 0.50, selling 50 at 0.60 leaves 50 at 0.50 and realizes 5.00 |
| SimulationModels.VirtualPosition.constructor | poly_data/simulation_models.py:97-103 | a new position is flat, with average 0 |
| SimulationModels.VirtualPosition.UpdateWithFill | poly_data/simulation_models.py:117-176 | the in-place update leaves exactly the state `ApplyFill` computes and returns the PnL it realizes |
| SimulationModels.VirtualPosition.CalculateUnrealizedPnl | poly_data/simulation_models.py:178-182 | 0 when flat, otherwise (price − avg) × size of the current fields |
| SimulationModels.SimulationBalance.TotalValue | poly_data/simulation_models.py:194-197 | the total minus the position value is the cash |
| SimulationEngine.ZeroPad6 | poly_data/simulation_engine.py:110 | `{n:06d}` has the digits of n, padded to at least six characters |
| SimulationEngine.ParsePadded | poly_data/simulation_engine.py:110 | the zero-padded counter reads back as the counter |
| SimulationEngine.OrderIdsDistinct | poly_data/simulation_engine.py:107-115 | two order ids (or two fill ids) are equal exactly when their counters are |
| SimulationEngine.IdScenario | poly_data/simulation_engine.py:107-115 | the first order id is `SIM-000001`; fill 42 is `FILL-000042` |
| SimulationEngine.MatchAtTouch | poly_data/simulation_engine.py:202-244 | a BUY executes iff its price ≥ ask, ask > 0 and min(remaining, ask size) > 0; it executes at the ask for that minimum; SELL mirrors this against the bid |
| SimulationEngine.MatchNeverOverfills | poly_data/simulation_engine.py:211-231 | an execution is positive and at most what remains of the order |
| SimulationEngine.EmptyMarketNeverFills | poly_data/simulation_engine.py:203-206 | with every market field missing, the defaults (bid 0, ask 1, sizes 0) give no fill |
| SimulationEngine.FillOrder | poly_data/simulation_engine.py:275-280 | a fill adds its size to the filled size and sets FILLED iff filled ≥ size, else PARTIALLY_FILLED; no other field changes |
| SimulationEngine.FillKeepsWellFormed | poly_data/simulation_engine.py:208-280 | filling an open, well-formed order with its own execution keeps filled ≤ size, with FILLED exactly at filled = size |
| SimulationEngine.ClosedOrdersStay | poly_data/simulation_engine.py:256-264 | FILLED and CANCELLED orders are never matched again |
| SimulationEngine.OpenBuyFillsAtTouch | poly_data/simulation_engine.py:208-223 | an OPEN BUY at 0.40 becomes FILLED once the ask is 0.40 with enough size |
| SimulationEngine.SettleFill | poly_data/simulation_engine.py:289-297 | cash falls by size × price for a BUY and rises by it for a SELL; realized PnL accumulates; the marks are untouched |
| SimulationEngine.BuyHundredAtHalf | poly_data/simulation_engine.py:289-294 | buying 100 at 0.50 from 10000 leaves 9950 |
| SimulationEngine.Peak | poly_data/simulation_engine.py:517-523 | the running peak is at least the initial balance and every value, and is one of them |
| SimulationEngine.ScanDrawdown | poly_data/simulation_engine.py:517-531 | the scan's peak is the running peak of the history |
| SimulationEngine.DrawdownStep | poly_data/simulation_engine.py:521-529 | one value raises the peak only when it is strictly above it |
| SimulationEngine.MaxDrawdownIsMax | poly_data/simulation_engine.py:507-531 | the result is ≥ 0 and at least every running-peak-minus-value; when positive it is attained at a step, with that step's percentage |
| SimulationEngine.MaxDrawdownBounds | poly_data/simulation_engine.py:517-531 | the maximum is never negative and bounds every step's drawdown |
| SimulationEngine.MaxDrawdownAttained | poly_data/simulation_engine.py:517-531 | a positive maximum is some step's drawdown, reported with that step's percentage |
| SimulationEngine.DrawdownScenario | poly_data/simulation_engine.py:517-531 | 100 → 120 → 90 → 110 has maximum drawdown 30, or 25% |
| SimulationEngine.Percent | poly_data/simulation_engine.py:545 | the win rate is in [0, 100]: 0 without winners, 100 when all trades win |
| SimulationEngine.PerTrade | poly_data/simulation_engine.py:546 | the average PnL times the trade count is the total; 0 without trades |
| SimulationEngine.PercentOf | poly_data/simulation_engine.py:553 | the PnL percentage times the initial balance is 100 × PnL; 0 for a non-positive base |
| SimulationEngine.CountWinning | poly_data/simulation_engine.py:541 | there are at most as many winners as fills |
| SimulationEngine.CountLosing | poly_data/simulation_engine.py:542 | there are at most as many losers as fills |
| SimulationEngine.WinnersAndLosers | poly_data/simulation_engine.py:541-543 | winners plus losers is at most the number of trades |
| SimulationEngine.CancelOpen | poly_data/simulation_engine.py:418-422 | every open order of the list becomes CANCELLED; the others are unchanged |
| SimulationEngine.CancelOpenIdempotent | poly_data/simulation_engine.py:418-422 | a second cancellation pass changes nothing |
| SimulationEngine.CancelOpenLeavesNoneOpen | poly_data/simulation_engine.py:418-422 | after cancelling, no order of the list is open |
| SimulationEngine.CancelOpenKeepsList | poly_data/simulation_engine.py:418-422 | cancelling keeps a token's list well formed |
| SimulationEngine.OpenOnlyMembers | poly_data/simulation_engine.py:450 | the open-order filter keeps exactly the open orders |
| SimulationEngine.FindOrder | poly_data/simulation_engine.py:398-407 | the search returns a token and index holding the id, or finds that no list holds it |
| SimulationEngine.FirstIndex | poly_data/simulation_engine.py:399-400 | the first index of the id in one list, or none |
| SimulationEngine.FindIndex | poly_data/simulation_engine.py:399-400 | the loop finds exactly `FirstIndex` |
| SimulationEngine.ConcatMembers | poly_data/simulation_engine.py:442-445 | the concatenated listing holds exactly the orders of the tokens' lists |
| SimulationEngine.MatchAll | poly_data/simulation_engine.py:256-264 | every order of the token gets its own matching attempt against the same market data |
| SimulationEngine.CountMatches | poly_data/simulation_engine.py:256-264 | an update fills at most as many orders as the token has |
| SimulationEngine.FilledBy | poly_data/simulation_engine.py:261-280 | an update appends to `filled_orders` no more orders than it fills |
| SimulationEngine.FilledByMembers | poly_data/simulation_engine.py:275-280 | every order an update appends to `filled_orders` is FILLED and is one of the token's orders after an attempt that filled it up |
| SimulationEngine.MatchAllStep | poly_data/simulation_engine.py:261-264 | one more index of the loop applies that order's attempt and counts it |
| SimulationEngine.ReplayStep | poly_data/simulation_engine.py:261-264 | booking one more fill is one step on top of the fills so far |
| SimulationEngine.SimulationEngine.constructor | poly_data/simulation_engine.py:28-67 | starts with the initial cash, no orders, positions or fills, zero counters and an empty history |
| SimulationEngine.SimulationEngine.GenerateOrderId | poly_data/simulation_engine.py:107-110 | bumps the order counter and returns `SIM-` and the new counter |
| SimulationEngine.SimulationEngine.GenerateFillId | poly_data/simulation_engine.py:112-115 | bumps the fill counter and returns `FILL-` and the new counter |
| SimulationEngine.SimulationEngine.TryMatchOrder | poly_data/simulation_engine.py:185-246 | at most one fill, exactly the execution of `Match`; a fill id is drawn only when it executes |
| SimulationEngine.SimulationEngine.GetOrCreatePosition | poly_data/simulation_engine.py:309-322 | returns the token's position, creating it flat (and appending its key) only when absent |
| SimulationEngine.SimulationEngine.ProcessFill | poly_data/simulation_engine.py:266-307 | the order takes the fill; the position moves as `ApplyFill`; cash settles with the realized PnL; the fill joins the history carrying its PnL; a FILLED order joins the filled list; other positions, counters and history are unchanged |
| SimulationEngine.SimulationEngine.RecordOrderFill | poly_data/simulation_engine.py:274-280 | the order part of fill processing |
| SimulationEngine.SimulationEngine.BookFill | poly_data/simulation_engine.py:282-300 | the position, cash and fill-history part of fill processing |
| SimulationEngine.SimulationEngine.StoreOrder | poly_data/simulation_engine.py:166-167 | appends the order to its token's list, creating the list (and its key) on first use |
| SimulationEngine.SimulationEngine.MatchOne | poly_data/simulation_engine.py:261-264 | one order's attempt: the stored order becomes `AfterMatch`, and at most one fill is booked |
| SimulationEngine.SimulationEngine.AdvanceUpdate | poly_data/simulation_engine.py:261-264 | one step of the update loop keeps its progress invariant, appends the order to `filled_orders` iff the attempt fills it up, and appends the token's key iff it created the position |
| SimulationEngine.SimulationEngine.MatchEach | poly_data/simulation_engine.py:261-264 | the loop ends with the book equal to replaying the new fills, `filled_orders` extended by `FilledBy` and the key list by at most the token |
| SimulationEngine.SimulationEngine.ProcessMarketUpdate | poly_data/simulation_engine.py:248-264 | the token's list becomes `MatchAll` of the old one; one fill per match, all of that token; position and cash equal replaying those fills; `filled_orders` gains exactly the orders filled up, in list order; the token's key is appended iff its position was created; other tokens' positions keep their state |
| SimulationEngine.SimulationEngine.PlaceOrder | poly_data/simulation_engine.py:144-167 | a fresh OPEN order with the next id takes one attempt when market data is given, and is appended to its token's list |
| SimulationEngine.SimulationEngine.CreateVirtualOrder | poly_data/simulation_engine.py:117-183 | result id is the next `SIM-` id; the stored order is the new order after its attempt; there is a fill iff market data was given and matched; the fill is booked into position and cash; `filled_orders` gains the order iff it is FILLED; the token's key is appended iff a fill created its position; every other position keeps its state, and without a fill every position does |
| SimulationEngine.SimulationEngine.CancelOrder | poly_data/simulation_engine.py:388-407 | the first order with the id is cancelled, returning true, iff it is OPEN or PARTIALLY_FILLED; a closed match or unknown id returns false with nothing changed |
| SimulationEngine.SimulationEngine.LocateOrder | poly_data/simulation_engine.py:398-400 | the nested search finds exactly `FindOrder` |
| SimulationEngine.SimulationEngine.CancelOpenOf | poly_data/simulation_engine.py:419-422 | the open orders of one token become CANCELLED |
| SimulationEngine.SimulationEngine.CancelAllOrders | poly_data/simulation_engine.py:409-424 | the open orders of the given token (or of every token when none is given) become CANCELLED; other lists and keys are unchanged |
| SimulationEngine.SimulationEngine.CancelEveryToken | poly_data/simulation_engine.py:416-422 | the loop over every key cancels each list's open orders |
| SimulationEngine.SimulationEngine.GetVirtualOrders | poly_data/simulation_engine.py:430-445 | the token's list, or every list in key order; every listed order is well formed |
| SimulationEngine.SimulationEngine.GetOpenOrders | poly_data/simulation_engine.py:447-450 | exactly the listed orders that are OPEN or PARTIALLY_FILLED, in order |
| SimulationEngine.SimulationEngine.GetBalanceSnapshot | poly_data/simulation_engine.py:464-481 | position value and unrealized PnL reset to 0; the snapshot's total (then the cash) joins the history |
| SimulationEngine.SimulationEngine.CalculateMaxDrawdown | poly_data/simulation_engine.py:507-531 | (0, 0) on an empty history; otherwise the scan's result, which is ≥ 0 and bounds every step's drawdown |
| SimulationEngine.SimulationEngine.OpenPositionCount | poly_data/simulation_engine.py:550 | at most one open position per key |
| SimulationEngine.SimulationEngine.CountOpenPositions | poly_data/simulation_engine.py:550 | the loop counts the positions of nonzero size |
| SimulationEngine.SimulationEngine.GenerateReport | poly_data/simulation_engine.py:533-573 | trades = fills; winners + losers ≤ trades; win rate in [0, 100]; average PnL per trade; the drawdown of the scan; the open-position count; total PnL and its percentage |
| SimulationEngine.SimulationEngine.GetPositionSummary | poly_data/simulation_engine.py:595-616 | one line per position of nonzero size with its size, average and market name, and every such position listed; plus cash and total value |
| SortedBook.Get | poly_data/data_processing.py:49 | a found size is a level at that price; none means no level has it |
| SortedBook.GetFinds | poly_data/data_processing.py:49 | in an ascending book a level is present iff `Get` finds its size |
| SortedBook.Set | poly_data/data_processing.py:52 | keeps the book ascending, holds (p, v) and drops exactly the old level at p |
| SortedBook.Delete | poly_data/data_processing.py:48-50 | keeps the book ascending and drops exactly the level at p; without one the book is unchanged |
| SortedBook.SetGet | poly_data/data_processing.py:52 | after setting, the book answers v at p and as before elsewhere |
| SortedBook.DeleteGet | poly_data/data_processing.py:48-50 | after deleting, the book has nothing at p and is unchanged elsewhere |
| SortedBook.FromEntries | poly_data/data_processing.py:37-42 | a snapshot's book is ascending |
| SortedBook.FromEntriesGet | poly_data/data_processing.py:37-42 | a snapshot holds, at each price, the size of the last entry quoting it |
| SortedBook.SnapshotScenario | poly_data/data_processing.py:39-42 | a repeated price keeps the later size, and a zero-size level is kept |
| DataProcessing.UpdateLevel | poly_data/data_processing.py:45-52 | a change keeps the side ascending |
| DataProcessing.ApplyChange | poly_data/data_processing.py:102-106 | a change keeps both sides ascending |
| DataProcessing.ApplyChanges | poly_data/data_processing.py:102-106 | a list of changes keeps both sides ascending |
| DataProcessing.ChangeTouchesOneLevel | poly_data/data_processing.py:45-52 | size 0 leaves nothing at the price, any other size exactly that size; other levels and the other side are unchanged; `BUY` maps to bids, anything else to asks |
| DataProcessing.DeleteAbsentIsNoOp | poly_data/data_processing.py:48-50 | deleting an absent level leaves the book unchanged |
| DataProcessing.AcceptedAsset | poly_data/data_processing.py:63-85 | a message is processed only when it is a dict with truthy `event_type` and `market`, in the subscription or in aggressive mode |
| DataProcessing.StepMessage | poly_data/data_processing.py:61-135 | every message keeps the books ascending |
| DataProcessing.RunMessages | poly_data/data_processing.py:55-135 | a whole batch keeps the books ascending |
| DataProcessing.DroppedMessageIsIgnored | poly_data/data_processing.py:63-85 | a non-dict, a missing `event_type` or `market`, or an unsubscribed market outside aggressive mode changes nothing and triggers nothing |
| DataProcessing.BookSnapshotReplaces | poly_data/data_processing.py:89-93 | a `book` event replaces both sides (creating the book), triggers exactly when trading is on, never touches the cooldown clock and leaves other assets alone |
| DataProcessing.PriceChangeCooldown | poly_data/data_processing.py:94-131 | a `price_change` triggers iff trading is on, DRY_RUN is off, it has changes, and now − last (default 0) ≥ 30; only a trigger records now |
| DataProcessing.DryRunPatchesWithoutTrigger | poly_data/data_processing.py:100-131 | with DRY_RUN on, a `price_change` patches the book as with it off, never triggers and leaves the clock alone |
| DataProcessing.TwoDeltasTriggerOnce | poly_data/data_processing.py:119-131 | two price changes of one asset 10 s apart trigger at most once |
| DataProcessing.AddId | poly_data/data_processing.py:138-146 | the key exists afterwards and holds the id |
| DataProcessing.AddStamp | poly_data/data_processing.py:143-147 | the key's timestamp map records now for the id |
| DataProcessing.RemoveId | poly_data/data_processing.py:150-153 | keeps every key; the id is gone from its key |
| DataProcessing.RemoveStamp | poly_data/data_processing.py:155-156 | keeps every key; the id's timestamp is gone and every other timestamp is kept |
| DataProcessing.ReAddRefreshes | poly_data/data_processing.py:138-147 | adding an id again keeps one copy and refreshes its timestamp |
| DataProcessing.RemoveIdempotent | poly_data/data_processing.py:150-156 | removing twice is removing once; removing an absent id or key changes nothing |
| DataProcessing.RemoveKeepsOthers | poly_data/data_processing.py:150-156 | removing one id keeps every other id of every key |
| DataProcessing.TradeStatusDispatch | poly_data/data_processing.py:207-273 | MATCHED adds the id (stamped now) under the row's own token and lowercased side; CONFIRMED and MINED remove it; FAILED and other statuses leave the tracker alone |
| DataProcessing.SkippedRowsChangeNothing | poly_data/data_processing.py:166-176 | a row without a market, or with a token missing from the reverse-token map, changes nothing and calls nothing |
| DataProcessing.MakerFlipKeepsKey | poly_data/data_processing.py:178-202 | when the user's maker order has the other outcome, the position is set on the complementary token, while the in-flight key keeps the row's token |
| DataProcessing.RunUserFirst | poly_data/data_processing.py:161-284 | a batch is its first row, then the rest, unless that row raised and ended the call |
| DataProcessing.GlobalState.InitializeMarketData | poly_data/data_processing.py:24-31 | an unknown asset gets an empty book; a known one is untouched |
| DataProcessing.GlobalState.ProcessBookData | poly_data/data_processing.py:34-42 | both sides become the snapshot's books |
| DataProcessing.GlobalState.ProcessPriceChange | poly_data/data_processing.py:45-52 | side `bids` changes the bids, any other side the asks, as `ApplyChange` |
| DataProcessing.GlobalState.ApplyPriceChanges | poly_data/data_processing.py:102-106 | the change loop leaves the book `ApplyChanges` computes |
| DataProcessing.GlobalState.ProcessMessage | poly_data/data_processing.py:61-135 | one message leaves the state and trigger `StepMessage` computes |
| DataProcessing.GlobalState.ProcessPriceEvent | poly_data/data_processing.py:94-131 | a price event with changes applies them to the (created) book and, with DRY_RUN off, triggers under the cooldown rule |
| DataProcessing.GlobalState.TryTrigger | poly_data/data_processing.py:120-131 | fires and records now iff the asset's last trigger is at least 30 s old |
| DataProcessing.GlobalState.ProcessData | poly_data/data_processing.py:55-135 | the batch of messages leaves the state and triggers that `RunMessages` computes |
| DataProcessing.GlobalState.AddToPerforming | poly_data/data_processing.py:138-147 | the effect of `add_to_performing` is `AddId` and `AddStamp` |
| DataProcessing.GlobalState.RemoveFromPerforming | poly_data/data_processing.py:150-156 | the effect of `remove_from_performing` is `RemoveId` and `RemoveStamp` |
| DataProcessing.GlobalState.ReadMakers | poly_data/data_processing.py:184-202 | the maker-order loop yields the view `MakerView` computes |
| DataProcessing.GlobalState.ProcessUserRow | poly_data/data_processing.py:166-280 | one row leaves the tracker and effects `StepUser` computes, and nothing changes when it raises |
| DataProcessing.GlobalState.ProcessUserData | poly_data/data_processing.py:159-284 | the rows in order, stopping at a raising row, as `RunUser` |
| Scheduler.SweepRemovesExactlyStale | main.py:44-49 | the sweep keeps every key and removes an id, together with its timestamp, iff it is stamped and now − stamp > 15; unstamped ids stay |
| Scheduler.SweepBoundary | main.py:47-49 | an entry stamped at t survives a sweep at t + 15 and is gone after one at t + 16 |
| Scheduler.SweepIdempotent | main.py:44-49 | a second sweep at the same time removes nothing more |
| Scheduler.SweepKey | main.py:45-51 | the inner loop sweeps one key as `KeptIds`/`KeptStamps` |
| Scheduler.RemoveFromPending | main.py:38-53 | the in-place sweep leaves exactly `SweptIds` and `SweptStamps` |
| Scheduler.CycleStep | main.py:66-78 | the counter stays in 1..30, and a cycle that raises does not advance it |
| Scheduler.Cycles | main.py:63-78 | from 1, the counter stays in 1..30 |
| Scheduler.CleanCycles | main.py:63-76 | over clean cycles the markets refresh at every sixth cycle and the snapshot runs at the thirtieth |
| Scheduler.FullPeriod | main.py:70-76 | 30 clean cycles give 5 market refreshes and 1 snapshot, with the counter back at 1 |
| Scheduler.UpdatePeriodically | main.py:63-78 | the loop computes `Cycles` and keeps the counter in 1..30 |
| Scheduler.Reconnects | main.py:125-139 | every sleep and the next backoff are in [5, 60]; a normal end resets the backoff to 5 |
| Scheduler.FailuresDouble | main.py:136-139 | the k-th consecutive failure sleeps min(5 × 2^k, 60) |
| Scheduler.BackoffScenario | main.py:136-139 | the first five failures sleep 5, 10, 20, 40 and 60 |
| Scheduler.ReconnectLoop | main.py:125-139 | the loop computes `Reconnects` and keeps the backoff in [5, 60] |
| TradingUtils.ScanOrder | poly_data/trading_utils.py:99-102 | the scan order holds every level, reversed for bids |
| TradingUtils.FirstAbove | poly_data/trading_utils.py:117-120 | the first level whose size is strictly above the threshold, or none above it |
| TradingUtils.FindBestPriceWithSize | poly_data/trading_utils.py:98-122 | the flagged loop with its `break` returns exactly `ScanBest` of the scan order |
| TradingUtils.TopIsTouch | poly_data/trading_utils.py:99-111 | the top is the highest bid (bids reversed) or the lowest ask; an empty side gives all `None` |
| TradingUtils.ScanBestFinds | poly_data/trading_utils.py:109-122 | best exists iff some level is above the threshold; second exists iff best is not the last level, with no size check |
| TradingUtils.SumWithin | poly_data/trading_utils.py:51-52 | the depth sum of non-negative sizes is non-negative |
| TradingUtils.FirstTokenSeesBook | poly_data/trading_utils.py:43-58 | a name other than `token2` gets the scans of the book as they are |
| TradingUtils.Token2FullSwap | poly_data/trading_utils.py:60-63 | with all six prices present, `token2`'s bids are 1 − the asks and vice versa; sizes and depth sums swap; the spread is kept |
| TradingUtils.ComplementInvolution | poly_data/trading_utils.py:60-63 | the full swap applied twice gives the first view back |
| TradingUtils.Token2PartialSwap | poly_data/trading_utils.py:64-77 | without all six prices, the best bid becomes 1 − best ask with its size, but second-level sizes stay on their side while their prices are complemented; depth sums swap |
| TradingUtils.NoMidNoDepth | poly_data/trading_utils.py:53-56 | without a best level on either side, both depth sums are 0 |
| TradingUtils.RoundHalfEven | poly_data/trading_utils.py:158 | `round` is within ½ of its argument, and even on a tie |
| TradingUtils.RewardPriceRounding | poly_data/trading_utils.py:145-161 | a positive target mid ∓ 0.15 × spread/100 is rounded to a tick multiple within half a tick; a non-positive one is returned as it is |
| TradingUtils.RewardPriceScenario | poly_data/trading_utils.py:145-161 | mid 0.50, spread 5, tick 0.01 give 0.49 to buy and 0.51 to sell |
| TradingUtils.GetOrderPrices | poly_data/trading_utils.py:164-215 | with a positive average cost the ask is at least it; with top bid < top ask the bid is below the top ask and the ask above the top bid |
| TradingUtils.Ceil | poly_data/trading_utils.py:226 | `math.ceil` is the least integer not below its argument |
| TradingUtils.RoundDownBounds | poly_data/trading_utils.py:220-222 | `round_down` gives the largest value with d decimals not above x |
| TradingUtils.RoundUpBounds | poly_data/trading_utils.py:224-226 | `round_up` gives the smallest value with d decimals not below x |
| TradingUtils.RoundExactIsIdentity | poly_data/trading_utils.py:220-226 | a value that already has d decimals is its own floor and ceiling |
| TradingUtils.BelowCap | poly_data/trading_utils.py:244-259 | below max size: buy min(trade size, max − position); sell trade size if two-sided, else trade size when position ≥ trade size, else 0 |
| TradingUtils.AtCap | poly_data/trading_utils.py:260-269 | at or above max size: sell min(position, trade size); buy trade size iff both tokens together stay under twice the cap |
| TradingUtils.SellsOnlyWhatIsHeld | poly_data/trading_utils.py:244-269 | outside two-sided mode the sell amount is 0 or at most the position |
| TradingUtils.MinSizeBump | poly_data/trading_utils.py:271-273 | a buy strictly between 70% of the minimum size and the minimum is raised to it; others are unchanged |
| TradingUtils.CheapAssetMultiplied | poly_data/trading_utils.py:275-283 | below a bid of 0.1, a positive buy is multiplied by a usable multiplier; the sell is untouched |
| TradingUtils.BuyNearCap | poly_data/trading_utils.py:244-283 | away from cheap assets, a buy below the cap is at most max(cap − position, min size) |
| RewardTracker.Score | poly_data/reward_tracker.py:23 | the distance score is never negative |
| RewardTracker.Saturation | poly_data/reward_tracker.py:26 | Q / (Q + 1000) is in [0, 1) for Q ≥ 0 |
| RewardTracker.EstimateOrderReward | poly_data/reward_tracker.py:16-31 | the estimate is never negative |
| RewardTracker.ZeroSpreadEarnsNothing | poly_data/reward_tracker.py:20-22 | a zero max spread gives 0 |
| RewardTracker.BelowHourlyRate | poly_data/reward_tracker.py:23-27 | with size ≥ 0 and daily rate ≥ 0 the estimate is at most the hourly rate, and below it when the rate is positive |
| RewardTracker.RewardAtMid | poly_data/reward_tracker.py:19-26 | at the mid the estimate is size / (size + 1000) × daily/24 |
| RewardTracker.RewardSymmetric | poly_data/reward_tracker.py:19-26 | prices mirrored about the mid earn the same |
| RewardTracker.BeyondSpreadScoresAsAtMid | poly_data/reward_tracker.py:19-27 | as written, an order 0.10 from mid with a 5% spread scores as at the mid |
| RewardTracker.BandedScore | poly_data/reward_tracker.py:23 | the banded score is never negative |
| RewardTracker.EstimateOrderRewardBanded | poly_data/reward_tracker.py:16-31 | the banded estimate is never negative |
| RewardTracker.BandedScoreFalls | poly_data/reward_tracker.py:19-23 | with the band, the score is 0 at or beyond the spread and never rises with the distance |
| RewardTracker.BandedBeyondSpreadEarnsNothing | poly_data/reward_tracker.py:19-27 | with the band, an order at or beyond the spread earns 0 |
| RewardTracker.BandedAgreesInside | poly_data/reward_tracker.py:19-27 | inside the spread the banded and unbanded estimates agree |
| RewardTracker.SnapshotGate.constructor | poly_data/reward_tracker.py:12 | no market has a snapshot time yet |
| RewardTracker.SnapshotGate.Enter | poly_data/reward_tracker.py:38-42 | returns at once when the market's last snapshot is under 300 s old; otherwise records now and proceeds |
| RewardTracker.GateSpacesSnapshots | poly_data/reward_tracker.py:38-42 | after a pass at t, the market is turned back before t + 300 and let through from then on; other markets are unaffected |
| MarketSelection.Keep | update_selected_markets.py:114-155 | a mask keeps exactly the rows that pass it |
| MarketSelection.InsertPerm | update_selected_markets.py:136 | an insertion adds exactly the one row |
| MarketSelection.InsertSorted | update_selected_markets.py:136 | an insertion keeps the order descending |
| MarketSelection.SortDescSorted | update_selected_markets.py:158 | the sort orders by descending key and is a permutation |
| MarketSelection.KeepDescending | update_selected_markets.py:164 | excluding configured markets keeps the order |
| MarketSelection.Needed | update_selected_markets.py:161-167 | when appending to existing configs, max(0, target − current); otherwise the target |
| MarketSelection.Head | update_selected_markets.py:174 | `head(n)` is the prefix of length min(n, rows), empty for n ≤ 0 |
| MarketSelection.BaseTier | update_selected_markets.py:188-208 | every tier has max = 2 × trade and a positive trade size |
| MarketSelection.TierTable | update_selected_markets.py:188-208 | 100/200 and 80/160 at daily rewards 200 and 150 (high-reward mode only), then 30/60 above volatility 15, 40/80 above 10, else 50/100, with their profiles |
| MarketSelection.AdjustedTier | update_selected_markets.py:210-213 | after adjustment trade ≥ min size (50 when absent) and max ≥ 2 × trade |
| MarketSelection.Trunc | update_selected_markets.py:246-247 | `int()` truncates toward zero |
| MarketSelection.TruncatedSizesKeepRatio | update_selected_markets.py:246-247 | the written max size is still at least twice the positive trade size |
| MarketSelection.TruncatedTradeAtLeastMinSize | update_selected_markets.py:246-247 | a whole minimum size survives the truncation |
| MarketSelection.ConfigsFor | update_selected_markets.py:181-253 | one config per selected market, in order |
| MarketSelection.SelectedAreChosen | update_selected_markets.py:173-253 | the configs written are exactly those of the chosen markets |
| MarketSelection.SelectionSound | update_selected_markets.py:109-174 | chosen markets pass their mode's filters, are not already configured when appending, number at most `needed` and come in descending key order |
| MarketSelection.PoolSorted | update_selected_markets.py:161-164 | the pool is in descending order of the mode's key |
| MarketSelection.PoolFilters | update_selected_markets.py:161-164 | a pool member passed its mode's filters and is not configured when appending |
| MarketSelection.CandidatesSorted | update_selected_markets.py:109-158 | the candidates are in descending order of the mode's key |
| MarketSelection.CandidateFilters | update_selected_markets.py:109-158 | in profitability mode, candidates have gm ≥ 1, volatility < 20, spread < 0.1 and 0.1 ≤ bid ≤ 0.9; in high-reward mode, reward ≥ the minimum plus the quality filter |
| MarketSelection.ProfitabilityDefaults | update_selected_markets.py:139-174 | with nothing configured and no count, the five most profitable candidates are selected in descending order |
| MarketSelection.EnoughAlready | update_selected_markets.py:165-171 | appending when the current configs reach the target selects nothing |
| MarketSelection.ZeroMinimumSkipsRewardTiers | update_selected_markets.py:189-193 | a minimum reward of 0 is falsy, so the reward tiers do not apply |
| HybridStorage.IsSignificantTrade | poly_data/hybrid_storage.py:101-123 | significant iff size > 500, or \|pnl\| > 50, or the lowercased notes contain `error` |
| HybridStorage.NotesMentionError | poly_data/hybrid_storage.py:119-121 | the scan finds `error` exactly when the lowercased notes contain it |
| HybridStorage.UpperCaseErrorIsSignificant | poly_data/hybrid_storage.py:119-121 | notes with `ERROR` make any trade significant |
| HybridStorage.PlainNotesAreNot | poly_data/hybrid_storage.py:101-123 | a small trade with plain notes is not significant |
| HybridStorage.LossesCountLikeGains | poly_data/hybrid_storage.py:114-117 | a loss counts like the same gain |
| HybridStorage.FreshCacheSkipsFetch | poly_data/hybrid_storage.py:220-223 | a populated cache under 60 s old answers without fetching |
| HybridStorage.FetchReplacesCache | poly_data/hybrid_storage.py:225-231 | a successful fetch is returned, replaces the cache and stamps it now |
| HybridStorage.FailedFetchFallsBack | poly_data/hybrid_storage.py:232-238 | a failed fetch returns the cached list when non-empty, else `[]`, and keeps the cache |
| HybridStorage.FetchThenHit | poly_data/hybrid_storage.py:217-231 | within 60 s of a fetch the same configs are served again |
| HybridStorage.BuildParams | poly_data/hybrid_storage.py:259-268 | every parameter key is the id of some config |
| HybridStorage.LastFor | poly_data/hybrid_storage.py:261-264 | the last config carrying an id, if any |
| HybridStorage.BuildParamsLast | poly_data/hybrid_storage.py:259-268 | a non-empty id has parameters iff some config carries it, and they come from the last such config with defaults 50/100/`default`; the empty id never has any |
| HybridStorage.NoConfigsNoParams | poly_data/hybrid_storage.py:251-254 | no configs give no parameters |
| HybridStorage.Storage.constructor | poly_data/hybrid_storage.py:28-56 | the Airtable client exists only when asked for, under `airtable` or `hybrid`, and when it could be created; the cache starts empty |
| HybridStorage.Storage.GetTradingConfigs | poly_data/hybrid_storage.py:208-238 | the result, cache and cache time are those of `ConfigsStep` |
| HybridStorage.Storage.LogTrade | poly_data/hybrid_storage.py:62-99 | false exactly when the SQLite write raised; an alert is attempted iff the write succeeded, Airtable is on, not `significant_only`, and the trade is significant |
| HybridStorage.Storage.SendAlert | poly_data/hybrid_storage.py:370-401 | true iff at least one backend took the alert |
| Config.Backend | poly_data/config.py:20 | `STORAGE_BACKEND` defaults to `hybrid` |
| Config.DryRun | poly_data/config.py:35 | `DRY_RUN` is off when unset; `process_data` reads the variable with the same test, and its value is the `dryRun` parameter of `DataProcessing.StepMessage` |
| Config.Validate | poly_data/config.py:41-63 | a variable is reported iff the backend requires it and it is unset or empty; at most four are reported |
| Config.ValidateKeepsOrder | poly_data/config.py:48-63 | the report lists the missing variables in the order airtable key, base id, sheet URL, PK |
| Config.ValidateEmptyIff | poly_data/config.py:48-63 | the report is empty iff everything the backend requires is set |
| Config.ValidatePerKey | poly_data/config.py:50-61 | PK under every backend, the sheet URL under `sheets` only, the Airtable pair under `airtable`/`hybrid` only |
| Config.EmptyEnvironment | poly_data/config.py:48-63 | with nothing set, the default backend reports the Airtable pair and PK |
| Config.IsAirtableEnabled | poly_data/config.py:66-68 | iff the backend is `airtable` or `hybrid` and the key is non-empty |
| Config.IsSheetsEnabled | poly_data/config.py:71-73 | iff the backend is `sheets` and the URL is non-empty |
| Config.IsSqliteEnabled | poly_data/config.py:76-78 | iff the backend is `hybrid` or `sqlite` |
| Config.ValidEnablesBackend | poly_data/config.py:48-78 | a configuration that validates has its backend's store enabled; the sheet and Airtable are never both enabled |
| Config.DefaultBackendIsHybrid | poly_data/config.py:76-78 | unset, the backend enables SQLite, never the sheet, and Airtable iff the key is set |

## Left out

- Persistence and logging. This covers the SQLite and Airtable writes,
  the `_log_*_to_db` calls, sheet logging, the `logger` calls and every
  `datetime` stamp. Storage calls appear only as whether they raised.
- Network and exchange. This covers the websocket sessions, the
  Polymarket client, `perform_trade`, `update_positions`,
  `update_orders`, `update_markets`, `set_position`, `set_order` and
  `log_position_snapshot`. The user feed reports the calls it would make
  as `Effect` values. The periodic loop and the websocket loop take each
  call's success or failure as input.
- Asyncio. `asyncio.sleep`, `gather` and `create_task` are not modelled.
  Each batch of messages or rows is processed at one `now`, and the
  two-second sleep on a FAILED trade is not modelled.
- The DRY_RUN hook inside `process_data`
  (poly_data/data_processing.py:108-117). Its test reads
  `global_state.simulation_engine`, which no module of the repository
  defines, so with DRY_RUN on the test raises `AttributeError`. The
  per-message `except` catches it after the changes are applied and
  before the cooldown test. The model keeps exactly that: with `dryRun`
  a `price_change` patches the book, never triggers and never stamps
  the clock. If code outside this repository did set the attribute, the
  hook would hand the engine the raw book maps, which never match, and
  then await a non-awaitable; that variant is not modelled.
- Malformed input. A price, size or amount that `float()` cannot parse
  is not modelled, nor is a missing `side` key in a change. The source
  applies such a message partially, up to the failing entry: a
  `price_change` keeps the changes before it, and a `book` snapshot
  keeps whatever side it had already rebuilt (both sides cleared on a
  bad bid, new bids and no asks on a bad ask). The model takes already
  converted values.
- SimulationEngine: `update_position_values` only stamps a time;
  `print_status` only prints; `get_virtual_positions` returns a copy of
  the dict. These have no model. `matching_mode` only changes a log
  line.
- SimulationEngine.SimulationEngine.CreateVirtualOrder: market data
  given as an empty dict attempts no match in the source. In the model
  it attempts one that cannot fill (see
  `SimulationEngine.EmptyMarketNeverFills`), so the outcome is the same.
- SimulationEngine.OrderIdsDistinct: proves that ids are distinct. It
  does not prove that ids increase as strings, which stops after
  999999 orders.
- TradingUtils.RewardOptimizedPrice: rounding a second time to the
  tick's decimal places is taken as the identity on exact reals. That
  holds when `str(tick_size)` has a '.'; a tick printed in exponent form,
  such as `1e-05`, is rounded to 0 decimals by the source, and that case
  is not modelled. The model
  requires a non-zero tick size, where the source would raise.
- TradingUtils.GetOrderPrices: requires a non-zero tick size, for the
  same reason.
- TradingUtils.RoundDown / TradingUtils.RoundUp: take a non-negative
  number of decimals.
- TradingUtils.GetBuySellAmount: `int(multiplier)` comes in already
  converted, with `None` for a missing, empty or unparsable value. The
  `TWO_SIDED_MARKET_MAKING` flag is a parameter.
- MarketSelection: the rules below are stated for rows without NaN
  sort keys, to which every filter in the source is false.
  - The model sorts with a stable insertion sort, which fixes one
    order among equal keys. pandas' default `sort_values` is not
    guaranteed stable, so ties at the `head(n)` cut-off may resolve
    differently in the source. No proved property depends on the order
    of ties.
  - The rationale and comment strings, the printing, the upload loop
    and the final listing are output only.
  - A failure to load the configs reads them as empty, as in the source.
- HybridStorage: the other methods of `HybridStorage` only forward to a
  backend and are persistence I/O. These are batch logs, recent trades,
  positions, order lifecycle, summaries, archives, cleanup, stats and
  health.
- `get_markets_df` builds its DataFrame from pandas; only the params
  dict is modelled.
- RewardTracker: past the gate, `log_market_snapshot` only reads the
  order book and writes to a sheet.
- Config: the SQLite path, the retention periods and the Discord URL are
  read but never decide anything here. The table-name constants are not
  modelled either. `Validate` reports `Key` values; `Config.Name` gives
  each one's variable name.
- Floating point. IEEE rounding is not modelled. Python's `round` is
  modelled as ties to even on exact reals.

## Findings

| source | as written | input that shows it | evidently intended | confidence | as-written member | corrected member |
|---|---|---|---|---|---|---|
| poly_data/reward_tracker.py:19-27 | the score `((v − s) / v) ** 2` is not clamped at the reward spread, so an order beyond the spread scores as if it were closer, and a distance of 2v scores as at the mid | price 0.6, mid 0.5, max spread 5, size 100, daily rate 24: v = 0.05, s = 0.1, S = 1, the same estimate as an order at the mid | an order at or beyond the max spread earns no reward, and the score falls with the distance | medium, not executed | RewardTracker.BeyondSpreadScoresAsAtMid | RewardTracker.BandedBeyondSpreadEarnsNothing |
