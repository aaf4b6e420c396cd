# Verification of the paper-trading core

A Dafny model of the in-memory paper exchange (`app/paper`) and of the layers that drive it: the candle
replay, the automatic trading cycle and its risk gate, and the option premium gate. Three separate cores
stand beside it: the token-refresh protocol of the broker adapters, the LRU cache with the indicator engine
that memoises through it, and the merging of strategy votes into one trade plan.

`dafny verify dfyconfig.toml` checks everything.

## How the model is laid out

Prices and cash are `real`, quantities `int`, timestamps `int`. Whatever raises in the original returns a
result value here, and the state it leaves behind is modelled too, since an operation can raise after it has
already changed something. Every `async` method of `app/paper` runs without a real suspension point, so one
call is one step.

- `Domain` has the records and validators. A stored order has the subset type `Order`, so that every place
  where the original rewrites an order without validation has to prove the validator still holds.
- `Fifo`, `Portfolios`, `Positions`, `Matching` and `OrderDesk` say what each operation does to a desk (ledger,
  book of lots, orders, reservations). The classes `PortfolioManager`, `PositionManager`, `OrderManager` and
  `PaperTradingEngine` have the original's mutable fields and are proved to do exactly that.
- `Moves` splits every call, also one that raises, into small moves (enter, look, trade, refuse, spawn,
  withdraw, amend, mark, and four broken ones that only a raise leaves behind). Invariants are proved move by
  move in `Lifecycle`, `Accounts`, `Clock`, `Conservation`, `Reservations`, `Oco`, `Solvency`, `PricePass` and `Trailing`, and
  lifted to whole runs in `Runs`.
- `Calls`, `Firing`, `Journals` and `OptionGate` say in plain terms, field by field and comparison by comparison, what a
  call does to its order, when an order fires, what a replay or a cycle enters and leaves, and what the option gate lets
  through.
- `Imprudence`, `BothLegs`, `Backwards`, `LeftoverLeg` and `ForgottenShort` are runs of literal calls that show what a
  theorem's hypothesis is for.
- `Replay` and `Metrics`, `AutoRisk`, `AutoTrading` and `SquareOff`, `Options`, `Commitments` and `OptionRuns`, `TokenRefresh`,
  `LruCaches` and `Indicators`, and `Confluence` are the layers and the separate cores. `Locality` and `MarketOrders` say
  what the engine does for the layers above it.

## What was found

Statements that the code or its comments suggest and that are false. In each case the code is modelled as it
is, an input is given, and the exact condition is proved.

1. **A failed modification can lose its reservation.** `modify_order` releases the old reservation before it
   asks for the new one, and asks for the old one again when that fails. When reserved cash exceeds cash by more
   than the slack (a MARKET, STOP or TRAILING_STOP BUY may spend reserved money), the second request fails as
   well. Cash then stays unreserved while the order still counts as reserved, and a later release raises halfway
   through a fill. A call is *prudent* unless it is a modification that cannot be funded while reserved cash
   exceeds cash plus the slack. `AccountedExactlyWhenPrudent` shows that this is exactly the condition under which
   reservations keep adding up, `ModificationIsAllOrNothing` shows when a modification leaves everything as before.
   `ImprudenceLosesATrade` gives a reachable account and two calls after which a loss of 25 is in no trade. Exactly what
   calls booked before they raised is missing from the history (`BooksOfTimelyRun`), and what one fill closes is returned
   exactly when its sibling's reservation can be released (`FillIsReturnedExactly`). `ImprudenceFillsBothLegs` gives six calls after which the stop and the target of one entry have both filled.
   `FillKeepsOcoExactlyWhenReleased` says, fill by fill and before the fill, when a group stays exclusive; that groups
   are pairs of legs of one completed entry holds without any hypothesis (`BracketGroups`). Runs whose BUY orders are
   all LIMIT or STOP_LIMIT are always prudent (`SolvencyOfLimitRuns`).
2. **A clock that goes back breaks the ledger.** The trade record refuses an exit before its entry, but only after
   cash, lots and the first pieces' profit have been booked, and before the order is stored as complete.
   `EarlierSaleBreaksTheLedger` gives three calls; `FillBalancesExactlyWhenBooked` says exactly which fills keep the
   ledger identity, `CallLeavesNoMarket` which calls leave a MARKET order at rest, and `LedgerOfAnyRun` by how much the
   identity is off after any calls. The other run theorems ask for clock readings that do not go back.
3. **The comparison slack does not carry over to snapshots.** The comment at `app/paper/portfolio.py:43-47` says that
   what the manager accepts never fails the portfolio's validators. The validator of available cash has no slack
   below zero: `AcceptedReservationCanBreakSnapshot` gives the amount, `SnapshotExactlyWhenUncommitted` and
   `ReservationKeepsSnapshot` the exact condition.
4. **Averaged plans can be incoherent.** Entry and stop are averaged over all agreeing signals, targets only
   over those that carry any. `RecommendationExactlyWhenTargetsClear`: the recommendation validator accepts exactly
   when the averaged first target lies beyond the averaged entry (or there is no vote or no target at all).
   `DisagreeingEntriesExist` gives two valid signals it refuses. The docstring of `_consolidate_trade_plan`
   (`app/instructor/recommendation.py:161-171`) relies on all strategies sharing one entry, which is enough, as is
   that all agreeing signals carry targets (`UsualSignalsAgree`).
5. **An option exit leaves bracket legs behind.** The exit of an option position does not cancel the entry's
   resting legs, and a leg that fires afterwards opens a short position: `BracketedExitGoesShort` gives the entry, the
   exit and the price. `FiredSellStaysLongExactly` and `ExitKeepsLegsCoveredExactly` are the exact conditions, before
   the price and before the exit. The exposure cap holds in every run, brackets included, whose exits leave
   open what the legs may still sell (`ExposureNeverExceedsLimit`); without brackets there is nothing to see to
   (`BracketlessRunsKeepCap`).
6. **A replay can forget a short, or raise.** When the cover of a short is rejected the loop drops the position and the
   engine keeps it. When it is paid out of the comparison slack cash is below zero and no snapshot can be taken.
   `ForgottenExactlyWhenRuined`: the first happens exactly when covering costs more than the short's proceeds, all the
   account is worth and the slack, the second exactly when only the slack makes up for it; `RunReplay` raises exactly when
   the second has happened, and `SoundExactlyWhenNeverShort` joins both. `ReplaySqueeze` runs one short into every last
   price: it covers up to 200, raises within the slack above it, and forgets the short beyond; `SqueezeRuns` writes out the
   moments of a replay that forgets.

Equity point `i` of a replay already contains an exit filled at the open of candle `i + 1`; `MarkedOk` states the curve
accordingly. The equity of a replay never contains charges, while the results of its trades do, so the total profit of a
summary exceeds what winners and losers add up to by the charges (`SummaryOfReplay`).

## Model

| member | source | states |
|---|---|---|
| `Fifo.CloseLotsFifo` | app/paper/position_manager.py:170-208 | the in-place loop with partial head replacement computes the recursive closing of the queue: what is left, how much could not be closed, and the closed lots |
| `Fifo.ClosesOldestFirst` | app/paper/position_manager.py:170-208 | read as a queue of single shares, closing q shares removes exactly the q oldest (or all), the closed lots expand to that prefix, the rest is the suffix, and the surplus is what exceeds the queue |
| `Fifo.PiecesAreSound` | app/paper/position_manager.py:180-206 | every closed piece comes from a lot of the queue with that lot's order, price and side, at the exit price and time and with its own profit, and what remains stems from the queue |
| `Fifo.ClosingConservesShares` | app/paper/position_manager.py:170-208 | closing moves the shares of each entry order from the queue to the closed pieces, none lost or invented |
| `Fifo.ClosingRealizes` | app/paper/position_manager.py:185-200 | the realized profit is exactly the exit value minus the basis given up, with its sign for shorts |
| `Positions.FillMovesUnits` | app/paper/position_manager.py:126-153 | a whole fill on the queue of single shares: the oldest leave, as the closed pieces, the rest stays, and the surplus joins on the side of the fill |
| `Portfolios.PortfolioManager.Debit` | app/paper/portfolio.py:93-107 | refuses negative amounts and amounts above cash (not available cash) plus the slack, otherwise takes them from cash and nothing else |
| `Portfolios.PortfolioManager.Credit` | app/paper/portfolio.py:109-113 | adds a non-negative amount to cash and nothing else |
| `Portfolios.PortfolioManager.ReserveCash` | app/paper/portfolio.py:115-133 | sets the amount aside unless it exceeds available cash plus the slack |
| `Portfolios.PortfolioManager.ReleaseCash` | app/paper/portfolio.py:135-150 | gives the amount back unless it exceeds what is reserved plus the slack |
| `Portfolios.PortfolioManager.TakeSnapshot` | app/paper/portfolio.py:159-184 | the snapshot, or a validation error, as a function of the ledger and the listed positions |
| `Portfolios.PortfolioManager.Reset` | app/paper/portfolio.py:186-201 | a fresh account with the given or the initial capital, or no change when the capital is not positive |
| `Portfolios.SnapshotExactlyWhenUncommitted` | app/paper/models.py:227-312 | of all portfolio validators only the one on available cash (and a reserved amount below minus the slack) can fire |
| `Portfolios.AcceptedReservationCanBreakSnapshot` | app/paper/portfolio.py:43-47 | a reservation that is accepted makes the next snapshot raise |
| `Portfolios.ReservationKeepsSnapshot` | app/paper/portfolio.py:115-133 | an accepted reservation leaves the account fit for a snapshot if and only if it is within available cash, without slack |
| `Portfolios.LedgerAccepts` | app/paper/portfolio.py:93-150 | each ledger call accepts exactly the amounts that are not negative and, up to the slack, are there |
| `Portfolios.LedgerUndoes` | app/paper/portfolio.py:93-150 | crediting undoes a debit and releasing undoes a reservation |
| `Accounts.SnapshotReports` | app/paper/portfolio.py:159-184 | a snapshot shows cash, what is available, the basis of all open lots as used capital, and total profit as equity less initial capital |
| `Accounts.UsedCapitalIsBasis` | app/paper/portfolio.py:159-184 | used capital is what the open lots cost |
| `Accounts.FillMarks` | app/paper/position_manager.py:126-242 | a fill marks its position at its price; profit realized since opening grows by what it closed while the position stays on its side and restarts when it opens or turns; the opening time is the oldest open lot's |
| `Runs.PositionsOfAnyRun` | app/paper/position_manager.py:97-263 | after any calls at all every position fits its lots and shows what was kept as realized since opening |
| `Positions.PositionManager.ApplyFill` | app/paper/position_manager.py:97-167 | a fill closes against the other side and opens the remainder, book and closed lots as specified; invalid arguments change nothing |
| `Positions.PositionManager.UpdateLastPrice` | app/paper/position_manager.py:244-263 | re-marks an open position and only that, and refuses a price that is not positive |
| `Positions.PositionManager.GetAllPositions` | app/paper/position_manager.py:268-269 | lists every position exactly once |
| `Matching.RatchetStaysPositive` | app/paper/order_manager.py:345-357 | the ratchet never drives a trailing trigger to zero or below, so the rewritten order keeps its validator |
| `Matching.RestedIsQuiet` | app/paper/order_manager.py:373-414 | an order that a price leaves at rest is not moved by the same price again, at any time |
| `OrderManagers.OrderManager.PlaceOrder` | app/paper/order_manager.py:89-181 | placement of all five order types: initial status and trigger, reservation or rejection, immediate evaluation, id and closed trades, also when it raises half-way |
| `OrderManagers.OrderManager.CancelOrder` | app/paper/order_manager.py:190-209 | cancels a resting order and gives its reservation back, or raises with the state as it then is |
| `OrderManagers.OrderManager.ModifyOrder` | app/paper/order_manager.py:211-267 | rewrites the set fields and swaps the reservation, including both ways in which that fails |
| `OrderManagers.OrderManager.ProcessPriceUpdate` | app/paper/order_manager.py:279-308 | evaluates the resting orders of the instrument in insertion order, skipping those settled meanwhile |
| `OrderManagers.OrderManager.SettleFill` | app/paper/order_manager.py:416-493 | release, payment or rejection, fill, booking, OCO cancellation and bracket, in that order, and where each can raise, the trade record included |
| `OrderManagers.OrderManager.BookClosedLots` | app/paper/order_manager.py:450-473 | books each piece's profit before its trade is recorded, and stops with an error at the first trade that would end before it began |
| `OrderManagers.OrderManager.CancelOcoSibling` | app/paper/order_manager.py:495-512 | cancels every other resting member of the group and releases its reservation, up to the first release that is refused |
| `OrderManagers.OrderManager.MaybeSpawnBracketChildren` | app/paper/order_manager.py:514-579 | the legs of a filled entry: which are spawned, in which group, with which reservation |
| `OrderManagers.OrderManager.SpawnBracketChild` | app/paper/order_manager.py:589-633 | stores a leg with its reservation, or as rejected when a BUY leg cannot be funded |
| `Calls.PlacementStores` | app/paper/order_manager.py:89-181 | the order stored by a placement of any type, filled, resting or rejected, also when the call raises, has the request's instrument, side, type, quantity, limit, trailing fields, stop and target, and its trigger unless it trails; a placement is refused outright exactly for a price or a first trailing trigger that is not positive |
| `Calls.PlacementReserves` | app/paper/order_manager.py:116-181 | a BUY that cannot set aside its quantity at its limit (or first trigger) is stored rejected and changes nothing else; one left at rest has set aside exactly that, waits for its trigger unless it has none or the price woke it, and moved nothing else |
| `Calls.PlacementSpawns` | app/paper/order_manager.py:514-633 | an entry of any type that fills during its placement leaves a stop leg exactly when the request's stop is on the losing side of the price, a target leg exactly when its target is on the winning side, at those levels, for the whole quantity, and nothing else |
| `Calls.CancellationWithdraws` | app/paper/order_manager.py:190-209 | a cancellation succeeds exactly for a known order at rest whose reservation can be released; then the order is cancelled and otherwise as it was, its reservation gone, reserved cash lower by it, all else equal; when it raises nothing changes, or only the refused reservation is lost |
| `Calls.RestingOrderCanBeCancelled` | app/paper/order_manager.py:190-209 | on an accounted desk exactly the resting orders can be cancelled |
| `Calls.ModificationWrites` | app/paper/order_manager.py:211-267 | a modification writes exactly the fields that are set, keeps the others and every other order, and sets aside the quantity at the new limit or, without one, the new trigger |
| `Calls.ModificationSucceedsExactly` | app/paper/order_manager.py:211-267 | from an accounted desk it goes through exactly when the order rests and what it newly needs is available, its old reservation included |
| `Firing.FiresExactlyWhenHit` | app/paper/order_manager.py:310-414 | for every order at rest and every price: LIMIT fires exactly within its limit, STOP exactly at its trigger, STOP_LIMIT exactly within its limit once its trigger was touched, TRAILING_STOP exactly at its trigger after following the price; an order that does not fire waits, woken or trailed as that says |
| `Firing.FiredFillsExactlyWhenPaid` | app/paper/order_manager.py:416-438 | an order that is hit fills exactly when it is a SELL or its cost is within cash plus the slack, else it is rejected |
| `Firing.UpdateSettlesExactlyTheHit` | app/paper/order_manager.py:279-308 | over a whole price update that does not raise, an order at rest in the instrument is filled at the price or, a BUY only, rejected exactly if the price hits it, unless its group was cancelled first; otherwise it waits; orders outside groups in other instruments are untouched |
| `Firing.ModifiedStopObeys` | app/paper/order_manager.py:211-267 | a STOP modified to a trigger is settled by the next price update if and only if the price has reached that trigger |
| `Firing.LimitFiresAtFirst` | app/paper/order_manager.py:359-371 | fed any prices, an open LIMIT or STOP_LIMIT fires at the first within its limit |
| `Firing.StopLimitFiresInTwoSteps` | app/paper/order_manager.py:391-400 | fed any prices, a waiting STOP_LIMIT fires at the first price within its limit at or after the first that touched its trigger, and until then is open exactly when the trigger was touched |
| `Engine.PaperTradingEngine.PlaceOrder` | app/paper/engine.py:48-66 | one placement of the facade; the history grows by exactly the trades returned |
| `Engine.PaperTradingEngine.ModifyOrder` | app/paper/engine.py:71-74 | one modification of the facade, as a step of a run |
| `Engine.PaperTradingEngine.CancelOrder` | app/paper/engine.py:68-69 | one cancellation of the facade, as a step of a run |
| `Engine.PaperTradingEngine.UpdatePrice` | app/paper/engine.py:84-97 | one price update: pass, then history, then mark; nothing is recorded or marked when the pass raises |
| `Engine.PaperTradingEngine.GetPortfolio` | app/paper/engine.py:107-109 | the snapshot of the ledger over all listed positions |
| `Engine.PaperTradingEngine.Reset` | app/paper/engine.py:116-124 | everything as newly created, or nothing changed when the capital is refused |
| `Moves.OperationIsMoves` | app/paper/order_manager.py:89-633 | every call, returning or raising, is a run of moves at its clock reading; what it booked reaches the history unless it raises, all of it when no move is broken, and a reservation is forgone only by a failed modification |
| `Lifecycle.MoveEvolves` | app/paper/order_manager.py:269-275 | no move loses an order, changes a settled one, reopens a trigger except of a stop-limit, or rewrites what was fixed at creation |
| `Runs.RunEvolves` | app/paper/models.py:46-102 | over every run ids are kept, COMPLETE, CANCELLED and REJECTED are final, and only STOP_LIMIT goes from TRIGGER_PENDING to OPEN |
| `Accounts.FillMovesQueue` | app/paper/position_manager.py:97-167 | a fill changes the value of its queue by the cash it moves plus the profit it realizes, and the net position by its signed quantity, also when it flips the position |
| `Accounts.MoveBalances` | app/paper/order_manager.py:416-493 | no move overdraws cash beyond the slack, and each moves the ledger identity by exactly the profit it closes without booking: nothing, but for a fill that cannot be recorded |
| `Accounts.FillBalancesExactlyWhenBooked` | app/paper/order_manager.py:440-483 | a paid fill keeps the ledger identity if and only if the pieces after the first late one carry no profit |
| `Clock.CurrentIsRecordable` | app/paper/models.py:205-208 | a fill at a clock reading behind no open lot's can always be recorded |
| `Clock.MoveKeepsCurrent` | app/paper/position_manager.py:126-163 | while clock readings do not go back no open lot is ahead of the clock, so every fill can be recorded |
| `Accounts.PositionWorth` | app/paper/models.py:127-173 | a position's market value is its lots at cost plus unrealized profit, its average price times size is their basis, and its validator holds |
| `Accounts.EquityIsCapitalPlusProfit` | app/paper/portfolio.py:159-184 | cash plus market value of the listed positions is initial capital plus realized plus unrealized profit |
| `Runs.LedgerOfAnyRun` | app/paper/engine.py:48-124 | after any calls at all, raising ones and clocks that go back included, cash plus open lots equals capital plus realized profit plus what fills closed but could not record, and cash is at least minus the slack |
| `Runs.LedgerIdentity` | app/paper/engine.py:48-124 | after any calls with a clock that does not go back, raising ones included, cash plus open lots at cost equals capital plus realized profit, and every snapshot's equity is capital plus both profits |
| `Backwards.EarlierSaleBreaksTheLedger` | app/paper/models.py:205-208 | three calls, the last with an earlier clock reading, after which the ledger is off by 20 and a MARKET order rests |
| `Conservation.TradesCarryPieces` | app/paper/order_manager.py:440-474 | the trades booked for a fill carry exactly the shares and the profit of the closed lots, and name the fill as exit |
| `Conservation.PlayConserves` | app/paper/order_manager.py:440-483 | double entry, the fit of every trade with its two orders and the net position survive every timely run of moves |
| `Runs.BooksOfTimelyRun` | app/paper/engine.py:48-97 | after any calls with a clock that does not go back, imprudent and raising ones included: each COMPLETE order's quantity is its exit plus entry quantity in the booked trades plus its open lots, realized profit is the sum of the booked trades, every one joins two completed orders at their fill prices and times and meets its validator, the net position is COMPLETE BUY minus SELL; the history lacks the profit of what raising calls booked, and accounts for every order's shares if and only if none of them booked anything |
| `Runs.DoubleEntry` | app/paper/engine.py:62-97 | in every prudent run the history lacks nothing: it accounts for each COMPLETE order's quantity, adds up to the realized profit, and every trade in it joins two completed orders at their fill prices and times and meets its validator |
| `Reservations.UnreserveSucceeds` | app/paper/order_manager.py:419-421 | where reservations add up, giving one back never raises and removes exactly that one |
| `Reservations.RereservingSwapsOrUndoes` | app/paper/order_manager.py:250-266 | swapping a reservation is granted in full, or undone, or lost exactly when reserved cash exceeds cash plus the slack |
| `Reservations.ModificationIsAllOrNothing` | app/paper/order_manager.py:211-267 | a modification that cannot be funded leaves orders, cash and reservations as before if and only if reserved cash was within cash plus the slack, and that is also exactly when the accounts still add up |
| `Reservations.MoveKeepsAccounts` | app/paper/order_manager.py:152-172 | every unbroken move keeps reserved cash equal to the sum of the reservations, which sit exactly on the resting BUY orders |
| `Runs.ReservationAccounting` | app/paper/order_manager.py:152-267 | over every prudent run reserved cash is the sum of the reservations, their keys are the resting non-MARKET BUY orders, no release can raise, and snapshots succeed exactly when reserved cash is within cash |
| `Runs.AccountedExactlyWhenPrudent` | app/paper/order_manager.py:250-267 | from an accounted desk, at a clock reading behind no open lot's, a call keeps the accounts if and only if it was prudent |
| `Imprudence.OvercommittedIsReachable` | app/paper/portfolio.py:93-107 | three ordinary calls lead to an account with more reserved than cash |
| `Imprudence.ImprudenceLosesATrade` | app/paper/order_manager.py:255-264 | from there a failed modification and a price update realize a loss that no trade of the history shows |
| `Oco.AtMostTwoLegs` | app/paper/order_manager.py:514-579 | no group has three members |
| `Oco.MoveKeepsGroups` | app/paper/order_manager.py:526-573 | every move, broken or not, keeps each leg an exit of a completed entry and each group a stop and a target of one entry |
| `Oco.SiblingsAreCleared` | app/paper/order_manager.py:495-512 | after a cancellation that did not raise no other member of the group rests |
| `Oco.SpawnKeepsOco` | app/paper/order_manager.py:526-573 | new legs form a group of their own, of one completed entry, in which nothing has filled, and a leg never gets legs |
| `Oco.FillKeepsOcoExactlyWhenReleased` | app/paper/order_manager.py:485-512 | a fill leaves the groups exclusive if and only if, before it, the cash reserved for other orders can take back what the resting sibling holds |
| `Oco.FillIsReturnedExactly` | app/paper/order_manager.py:440-493 | the trades of a fill are returned, to be recorded in the history, if and only if before the fill the resting sibling's reservation could be released, or the fill closed nothing |
| `Runs.BracketGroups` | app/paper/order_manager.py:514-579 | after any calls at all a group has at most two legs, a stop and a target of one completed parent, in its instrument, on the other side, and no leg has legs |
| `Runs.OcoExclusivity` | app/paper/order_manager.py:293-512 | over every prudent run at most one member of a group ever fills, and then no other rests |
| `BothLegs.ImprudenceFillsBothLegs` | app/paper/order_manager.py:250-267 | six calls, one of them an imprudent modification, after which both legs of a bracket are complete |
| `Solvency.LimitFillIsFunded` | app/paper/order_manager.py:359-438 | a LIMIT or STOP_LIMIT BUY that fires can always be paid and frees at least what it costs |
| `Solvency.MoveKeepsSolvent` | app/paper/order_manager.py:416-438 | with limit BUYs only no move over-commits cash and no fill is refused |
| `Runs.SolvencyOfLimitRuns` | app/paper/portfolio.py:93-133 | in every run whose BUY orders, legs included, are LIMIT or STOP_LIMIT, available cash stays at least minus the slack, every call is prudent, and no order stored before a call is rejected by it |
| `Runs.AcceptedOrdersAreNeverRefused` | app/paper/order_manager.py:152-181 | in such a run an order whose reservation is granted is not rejected by the call that placed it either |
| `PricePass.EvaluationSettles` | app/paper/order_manager.py:373-493 | evaluating an order settles it or leaves it unmoved by the price, may only withdraw others, and adds only legs the price does not move |
| `PricePass.PassInParts` | app/paper/order_manager.py:293-308 | a pass over two lists is the pass over the first and then, unless it raised, over the second from where that left off |
| `Trailing.CandidatesAscend` | app/paper/order_manager.py:293-308 | the orders a pass looks at come in insertion order |
| `PricePass.PassIsAFixpoint` | app/paper/order_manager.py:279-308 | after a pass nothing at rest in the instrument responds to the price, spawned legs included, and a second pass at that price trades nothing and changes nothing |
| `PricePass.SecondUpdateOnlyRemarks` | app/paper/engine.py:84-97 | a second update at the same price changes no trade, ledger, order, reservation or lot |
| `PricePass.LegsStraddleTheFill` | app/paper/order_manager.py:514-587 | a stop leg is spawned exactly when its level is on the losing side of the actual fill, a target leg exactly when on the winning side, stop first |
| `PricePass.MarketSettlesAtOnce` | app/paper/order_manager.py:373-438 | a MARKET order is settled by the call that places it, unless it is paid and its trade cannot be recorded |
| `PricePass.CallLeavesNoMarket` | app/paper/order_manager.py:373-493 | a call, also one that raises, leaves a MARKET order at rest exactly when it placed one that it paid and could not record |
| `PricePass.RunLeavesNoMarket` | app/paper/order_manager.py:89-181 | with a clock that does not go back no MARKET order rests after any call of any run, also after one that raised |
| `Trailing.OnePrice` | app/paper/order_manager.py:345-414 | one price moves the trigger to the level of the best price so far, never backwards, and fires the order exactly at that level |
| `Trailing.TrailingStopIsWatermark` | app/paper/order_manager.py:330-408 | fed any prices, a trailing stop fires at the first that reaches the level of the best so far, and until then its trigger is the level of the best of all |
| `Trailing.PlacedTrailingStopTracks` | app/paper/order_manager.py:330-342 | a trailing stop that rests after placement starts from the level of the placement price |
| `Trailing.RunKeepsWatermark` | app/paper/order_manager.py:279-408 | over every prudent run that does not modify it, a resting trailing stop's trigger is the level of the best price its instrument has seen |
| `MarketOrders.MarketSettlement` | app/paper/order_manager.py:89-493 | a MARKET order of any kind fills with its bracket, or is rejected, exactly as it can be afforded |
| `MarketOrders.MarketOrderOutcome` | app/paper/order_manager.py:89-493 | a plain MARKET order fills at the price exactly when it can be afforded, with the ledger and book of that fill, and is rejected without any other change otherwise |
| `MarketOrders.MarketOrderSpoils` | app/paper/order_manager.py:440-483 | a MARKET order that is paid and cannot be recorded moves cash and lots, books the pieces up to the first late one and goes on resting |
| `Replay.OpenPosition` | app/backtest/replay_engine.py:381-448 | a position is opened exactly when the fraction of available cash buys at least one share that can be paid, at the slipped open, with that size, its charges and its levels, by the one order sent; it fails only when slippage eats the price or cash is below zero |
| `Replay.ClosePosition` | app/backtest/replay_engine.py:451-523 | the exit is recorded exactly when its order can be paid, at the slipped price, with net profit, both charges and both slippages, and gross profit equal to what the position gained between its fills |
| `Replay.MarkEquity` | app/backtest/replay_engine.py:373-378 | marks at the price, and reports capital plus the gross profit so far plus what the tracked position would earn |
| `Replay.ManagePosition` | app/backtest/replay_engine.py:293-335 | a position is kept and ratcheted exactly when there is no reason to leave it, else left by one order at the next open (the close on the last candle); it is recorded exactly when that order can be paid and forgotten otherwise |
| `Replay.RunReplay` | app/backtest/replay_engine.py:167-370 | the journal of every candle, each starting from the engine the one before left: entry at the open exactly when the previous close asked for one while flat, management, record, mark; the trades are the journal's, the curve's drawdowns are those of the running peak, and when nothing was forgotten the replay ends flat with final equity minus capital equal to gross profit, net plus charges; with slippage below 100 percent and a capital fraction up to 1 it raises if and only if a recorded cover cost more than the cash before it |
| `Journals.EntryFollowsSignal` | app/backtest/replay_engine.py:226-254 | on any journal: an order is sent at an open exactly when the replay was flat and the close before gave a BUY or SELL, confident enough, with entry and stop, and the cash fraction pays for a share; a position that appears is long exactly for BUY and short exactly for SELL, with the signal's price, stop, targets and trailing distance |
| `Journals.EnteredPlanIsCoherent` | app/backtest/replay_engine.py:337-354 | for a valid recommendation the position's stop is on the losing side of its signal price and every target on the winning side |
| `Journals.SlippageIsAdverse` | app/backtest/costs.py:66-73 | a BUY pays the slippage percentage more and a SELL gets it less |
| `Journals.SizeIsLargest` | app/backtest/replay_engine.py:400-404 | the size leaves less than one share's price of the fraction unspent |
| `Journals.LeavesByGain` | app/backtest/replay_engine.py:123-164 | each reason to leave, in its rank, in terms of what the position gains, for both sides alike |
| `Journals.HeldRemembersItsBest` | app/backtest/replay_engine.py:334-335 | while a position is held only its best price changes, and it is the best of its fill and all closes since |
| `Journals.RecordsTellTheExit` | app/backtest/replay_engine.py:293-333 | a recorded position was left whole by one order at the slipped next open, or the slipped close of the last candle, and its record has those fills, both charges and both slippages |
| `Replay.CashIsKnown` | app/backtest/replay_engine.py:381-523 | while nothing has been forgotten cash is capital plus gross profit less what the tracked position ties up |
| `Replay.ForgottenExactlyWhenRuined` | app/backtest/replay_engine.py:293-335 | while nothing has been forgotten, a candle forgets its position exactly when it leaves a short whose cover costs more than its proceeds, all the account is worth and the slack, and spends slack exactly when the slack makes up the rest |
| `Replay.CoveredExactlyWhenNeverRuined` | app/backtest/replay_engine.py:293-335 | the hypothesis of the conservation law read off signals and candles: nothing is ever forgotten if and only if no position is ever left at such terms |
| `Replay.SoundExactlyWhenNeverShort` | app/backtest/replay_engine.py:293-378 | a replay forgets nothing and spends no slack, so that it neither raises nor breaks the conservation law, if and only if no short is ever left for more than its proceeds and all the account is worth |
| `ForgottenShort.ReplaySqueeze` | app/backtest/replay_engine.py:303-333 | a replay of three candles, run: with a last price up to 200 its short is covered, within the slack above 200 it raises, beyond that it returns without a trade and has forgotten the short |
| `ForgottenShort.SqueezeRuns` | app/backtest/replay_engine.py:303-333 | the three moments of each such replay that forgets, which meet the journal's conditions, the last leaving the engine with the short |
| `Replay.ReplayExitsLikeLiveTrading` | app/backtest/replay_engine.py:123-164 | the replay leaves a position for exactly the reason live trading does, the last candle standing for square-off |
| `Replay.AgreementShows` | app/backtest/replay_engine.py:381-448 | the tracked position is the engine's visible one in sign, quantity and average price |
| `Metrics.MaxDrawdownIsWorstFall` | app/backtest/metrics.py:10-57 | the reported maximum drawdown of the one-pass running peak is the largest fall between an earlier and a later point of capital and equities |
| `Metrics.MaxPercentIsReached` | app/backtest/metrics.py:38-39 | the maximum drawdown percentage is the largest fall as a share of the peak before it |
| `Metrics.WinsAreCounted` | app/backtest/metrics.py:21-24 | every positive result is counted as a win as often as it occurs, every negative one as a loss, and nothing else |
| `Metrics.PercentagesAreShares` | app/backtest/metrics.py:18-36 | win rate and total profit percentage are shares of all trades and of the capital |
| `Journals.SummaryOfReplay` | app/backtest/metrics.py:10-57 | the total profit is winners and losers times their averages plus the charges |
| `Metrics.WinsAndLossesAddUp` | app/backtest/metrics.py:21-22 | wins are exactly the positive and losses the negative results, and together they are the net result |
| `Metrics.SummaryReconciles` | app/backtest/metrics.py:18-36 | averages times counts give the net result of all trades, the win rate is a percentage, and the profit factor exists exactly when there are losses and is the quotient of the two sums |
| `Metrics.ExtremesAreReached` | app/backtest/metrics.py:31-32 | every result lies between the largest loss and the largest win, and both are some trade's when not zero |
| `AutoRisk.AutoRiskManager.CheckEntryAllowed` | app/auto/risk.py:71-100 | rolls the day and allows an entry exactly when cooldown, open positions, daily trades and daily loss allow it |
| `AutoRisk.AutoRiskManager.RecordTradeClosed` | app/auto/risk.py:107-129 | books the result, counts the loss streak across days, and starts a cooldown when the streak reaches its limit |
| `Calendar.DayAndTime` | app/auto/risk.py:142-154 | a reading is its day and its time of day, in Indian time |
| `AutoRisk.AllowedExactly` | app/auto/risk.py:71-100 | read off the log: an entry is allowed if and only if there is room, the day's entries and realized loss are below their limits, and no loss that completed a streak is closer than the cooldown |
| `AutoRisk.RollingTracks` | app/auto/risk.py:142-154 | rolling to the current day leaves counters equal to what the log of that day says |
| `AutoRisk.OpeningKeepsCaps` | app/auto/risk.py:71-105 | an allowed entry keeps the daily trade limit, the cooldown after every streak-ending loss, the loss limit at entry, and no re-entry in a cycle |
| `AutoRisk.ClosingKeepsCaps` | app/auto/risk.py:107-129 | booking a close keeps those promises and the counters equal to the log |
| `AutoTrading.AutoTradingOrchestrator.RunCycle` | app/auto/orchestrator.py:325-367 | a cycle is an exit pass and then an entry pass over the signals whose symbols were not left, traced step by step, also when one raises; over all cycles since a start tracked positions stay within their cap, daily entries within theirs, no entry falls within a cooldown or beyond the loss limit, and nothing is left and entered again in one cycle |
| `AutoTrading.EntryFollowsRecommendation` | app/auto/orchestrator.py:371-484 | a step of the entry pass sends an order if and only if signal, confirmation, free instrument, log, account and size allow it, on the signal's side at its entry price, and what is tracked lies right around that price |
| `Journals.ExitFollowsGain` | app/auto/orchestrator.py:495-632 | a step of the exit pass leaves a position, whole and by an opposite order, if and only if its gain, a signal or the square-off calls for it; otherwise it is kept with its best price following |
| `AutoTrading.AutoTradingOrchestrator.EnterAll` | app/auto/orchestrator.py:356-367 | the signals whose symbols were not left are asked for an entry, each once and in their order, up to the first that raises |
| `AutoTrading.AutoTradingOrchestrator.MaybeEnter` | app/auto/orchestrator.py:371-484 | an order of the planned side and size is sent exactly when all conditions hold, and only its completion is tracked, counted and logged, with the levels of the plan and the fill price |
| `AutoTrading.AutoTradingOrchestrator.PlanEntry` | app/auto/orchestrator.py:371-430 | the checks before an entry in their order, ending in the size the capital fraction affords |
| `AutoTrading.AutoTradingOrchestrator.MonitorExits` | app/auto/orchestrator.py:488-520 | the tracked positions are looked at, each once and in the dictionary's order, step by step as `CheckPosition` says, up to the first that raises, and exactly the symbols that were left are returned |
| `AutoTrading.AutoTradingOrchestrator.CheckPosition` | app/auto/orchestrator.py:495-518 | one tracked position: forgotten when the engine no longer has it, an error without a quote, ratcheted when there is no reason to leave, or left by an opposite order for its whole size |
| `AutoTrading.AutoTradingOrchestrator.ExitPosition` | app/auto/orchestrator.py:582-632 | a completed exit books the profit of exactly the trades it made with the gate and is logged, a rejected one leaves the position tracked |
| `SquareOff.SquareOffLeaves` | app/auto/orchestrator.py:488-545 | at square-off, with a price for every tracked position, the exit pass never raises and afterwards exactly those positions are tracked whose exit could not be paid: shorts, unchanged |
| `Options.GetOptionPremiumExposure` | app/options/paper_trading.py:74-87 | the sum of quantity times average price over the option positions |
| `Options.EnterOptionPosition` | app/options/paper_trading.py:90-189 | the checks of an entry in order, the gate on its premium, the order with its bracket, and that order returned |
| `Options.ExitOptionPosition` | app/options/paper_trading.py:192-250 | an exit of part or all of a position, its realized profit booked with the gate, and the order returned |
| `Options.OptionRiskManager.CheckOrderAllowed` | app/options/risk.py:71-112 | rolls the day and allows an order exactly when loss, lots, premium and exposure allow it |
| `Options.ExposureIsBasis` | app/options/paper_trading.py:82-87 | deployed premium is what the open option lots cost |
| `OptionGate.GateCountsTheDay` | app/options/risk.py:114-139 | over every timely run the gate's counter is what the day's exits realized |
| `OptionGate.EntryPassesExactly` | app/options/paper_trading.py:127-189 | after any timely run an entry passes if and only if that result is above minus the loss limit, lots and premium are within theirs, and the premium fits under the exposure limit; what passes is one bracketed MARKET BUY of lots times lot size at the quote |
| `OptionGate.ExitTakesItsQuantity` | app/options/paper_trading.py:213-250 | an exit that goes through takes its quantity, or everything, off what is open, unless it is a cover that cannot be paid |
| `OptionRuns.OptionFill` | app/paper/position_manager.py:126-153 | an option fill keeps deployed premium within the cap and the position long, when a BUY fits under the cap and a SELL closes no more than is open |
| `OptionRuns.BuyingKeepsCap` | app/options/paper_trading.py:151-189 | a bracketed BUY that fits under the cap keeps it, and its resting legs sell no more than it bought |
| `OptionRuns.FiringKeepsCap` | app/paper/order_manager.py:416-512 | a leg that fires is always settled, keeps the cap, and what its entry held is no longer committed |
| `OptionRuns.ExitKeepsLegsCoveredExactly` | app/options/paper_trading.py:213-243 | an exit that goes through leaves covered what the resting legs may still sell if and only if what was open covered both |
| `OptionRuns.FiredSellStaysLongExactly` | app/paper/order_manager.py:416-483 | a SELL that fires changes what is open by its quantity, so it leaves a long or flat position long or flat if and only if no more than that was open |
| `OptionRuns.ExposureNeverExceedsLimit` | app/options/risk.py:91-112 | over every run of entries with or without bracket, partial and full exits that leave the legs covered, and any trading elsewhere, no option position is short and deployed premium never exceeds the limit |
| `OptionRuns.BracketlessRunsKeepCap` | app/options/risk.py:91-112 | without bracket premiums the same holds for every run with a clock that does not go back |
| `LeftoverLeg.BracketedExitGoesShort` | app/options/paper_trading.py:192-250 | a bracketed entry, its full exit and a price update that end short one option |
| `TokenRefresh.RefreshesCoalesce` | app/brokers/base.py:248-266 | over every interleaving of any number of tasks refresh calls never overlap, the generation counts the successes, callers of one generation get at most one, and whoever retries has a newer token |
| `TokenRefresh.EachCallUsesTheLatestToken` | app/brokers/base.py:231-266 | as long as none fails each refresh presents the token the previous one stored, so no single-use token is presented twice |
| `TokenRefresh.FailureRepeatsTheToken` | app/brokers/base.py:248-266 | after a failed refresh a waiting task presents the same token again |
| `LruCaches.LRUCache.Get` | app/utils/cache.py:30-39 | a hit returns the value and makes the key the most recent, a miss changes nothing |
| `LruCaches.LRUCache.Set` | app/utils/cache.py:41-50 | stores the value as the most recent and evicts the least recent beyond the capacity |
| `LruCaches.HoldsTheMostRecent` | app/utils/cache.py:30-50 | under get-then-set-on-miss a cache of size n holds exactly the n most recently requested distinct keys, in order of recency |
| `LruCaches.SmallerIsContained` | app/utils/cache.py:41-50 | what a smaller cache holds a larger one holds |
| `LruCaches.CachedExactlyWhenRecent` | app/utils/cache.py:30-50 | a key is cached if and only if it was requested and fewer than n different keys were requested since |
| `Indicators.IndicatorEngine.Calculate` | app/indicators/engine.py:62-95 | for any requests before and any capacity the answer is that of direct computation, as long as the key determines the result |
| `Indicators.DirectAnswersEach` | app/indicators/engine.py:62-95 | the answer holds, under each requested key and no other, the result of the last request filed under it |
| `Indicators.EngineCachesTheRecent` | app/indicators/engine.py:76-95 | the engine's cache holds exactly the keys requested recently enough |
| `Confluence.MajorityDecides` | app/strategy/engine.py:157-191 | the direction with more votes wins, a tie is neutral, the count is the winner's and the confidence the mean of its voters' |
| `Confluence.VotersAreNamed` | app/strategy/engine.py:157-191 | the agreeing names are those of the winner's voters, the conflicting ones those of the votes against it |
| `Confluence.MergingIsSymmetric` | app/strategy/engine.py:157-191 | swapping BULLISH and BEARISH votes swaps the merged direction; agreeing strategies, count and confidence stay, and so do the conflicting ones unless the result is neutral |
| `Confluence.NamesFindTheVoters` | app/instructor/recommendation.py:103-155 | with distinct names looking the agreeing signals up by name finds exactly the voters |
| `Confluence.PlanIsAverage` | app/instructor/recommendation.py:158-193 | entry and stop are the means over all agreeing signals, targets those of the signals that carry any |
| `Confluence.TargetsAreMeans` | app/instructor/recommendation.py:158-193 | target i is the mean of the carriers' targets i, as many as the shortest list has |
| `Confluence.RewardOverRisk` | app/instructor/recommendation.py:158-193 | the ratio is the distance to the first target over the distance to the stop |
| `Confluence.RecommendationReportsTheVote` | app/instructor/recommendation.py:71-155 | counts, confidence and action of an accepted recommendation are those of the vote |
| `Confluence.AverageIsCoherent` | app/instructor/recommendation.py:158-193 | the averaged entry and stop are positive, and stop, entry and all targets are on the right sides and in order if and only if the first target clears the entry |
| `Confluence.RecommendationExactlyWhenTargetsClear` | app/instructor/recommendation.py:71-155 | for valid signals with distinct names the validator accepts if and only if the averaged first target lies beyond the averaged entry of the winning votes, or the vote is neutral or carries no targets; then it is HOLD exactly in those last cases |
| `Confluence.RecommendationIsValid` | app/instructor/recommendation.py:71-155 | where the winning entries agree the validator never fires |
| `Confluence.UsualSignalsAgree` | app/instructor/recommendation.py:158-193 | entries agree when every agreeing signal carries targets or all share one entry |
| `Confluence.DisagreeingEntriesCanFail` | app/instructor/recommendation.py:158-193 | when they do not, the same signals with nearer targets, each still valid, make the validator raise |
| `Confluence.DisagreeingEntriesExist` | app/instructor/recommendation.py:71-193 | two valid signals that make the validator fire |

## Left out

- Rounding: prices and cash are exact reals; the slack of the comparisons is kept as a constant.
- Identifiers: an order's id is its place in the insertion order, an OCO group's a counter; trade ids are left out.
- Fields without influence on any branch: validity, expiry, tag, metadata, status messages and other texts.
- `app/paper/broker.py`, which wraps the engine in the broker interface.
- HTTP, retries with back-off, logging, WebSockets and `login` beside a refresh; in `TokenRefresh` a task may send, fail, wait, refresh, falter or give up.
- The bodies of indicators and strategies: a candle's recommendation and a key's result are given functions.
- High, low and volume of a candle, the signal log and the warnings of a replay, and the fields of a trade record that only copy texts and times.
- The charges of a fill, a given function of price, quantity and side.
- Background loops of the orchestrators, emergency stop and the status calls: one cycle is one call.
- Option chains, lot-size lookup and expiry selection: their results, or that they raised, are inputs of an entry.
- Enriching trades with option details, and options replay.
- AutoTrading.AutoTradingOrchestrator.RunCycle: the signals and quotes of a cycle are given maps, so a quote that changes within one cycle is not modelled.
- The iteration order of the dictionary of positions: listing positions takes any order.
- A missing `now`: a clock reading is always given.
- Runs.DoubleEntry: stated for prudent runs; `Imprudence.ImprudenceLosesATrade` shows that the history can lose a trade otherwise, and `Runs.BooksOfTimelyRun` when it does.
- Runs.BooksOfTimelyRun: stated for a clock that does not go back, since a fill that cannot be recorded (`Backwards.EarlierSaleBreaksTheLedger`) books profit without a trade.
- Runs.OcoExclusivity: stated for prudent runs with a clock that does not go back; `BothLegs.ImprudenceFillsBothLegs` shows it fails otherwise.
- Runs.ReservationAccounting: stated for prudent runs with a clock that does not go back, the condition that `Runs.AccountedExactlyWhenPrudent` shows to be exact, call by call.
- Runs.SolvencyOfLimitRuns: stated for a clock that does not go back, since a fill that cannot be recorded loses its order's reservation.
- Trailing.RunKeepsWatermark: stated for prudent runs with a clock that does not go back that do not modify the order, because a price pass that raises may not reach it.
- Replay.RunReplay: the conservation law is for replays that forget no short, which `Replay.CoveredExactlyWhenNeverRuined` reads off the signals and candles; candles come in ascending order of time, as the original's callers promise. With slippage of 100 percent or more, where a SELL has no positive price, only one direction is stated for raising.
- OptionRuns.ExposureNeverExceedsLimit: exits that sell what resting legs may still sell, and modifications that enlarge a leg, are excluded; `LeftoverLeg.BracketedExitGoesShort` shows why.
