# OptionX: matching actors, durable orders and the candle pipeline

This project models the core of the trading server and proves what it promises:

- **one actor per instrument** that owns an order map, an average-cost position and a last price, and
  handles placements, bracket (one-cancels-other) placements, cancels, ticks and snapshots;
- **the orders and positions tables** the actors write through to, and what a restart or a crash recovers;
- **the candle path**: the numbered tick stream, the in-memory aggregator, the transactional store with
  its watermark, and the boot sequence that puts them back together.

Prices are exact reals and quantities unbounded integers.

## How the model is laid out

| files | part of the program |
|---|---|
| `Orders`, `Ledger` | orders, triggers, average-cost accounting |
| `Actor` | the imperative actor: the class `ActorState`, its handlers, the run loop |
| `Journal`, `Protocol` | the history of an actor as a sequence of events, and the steps its handlers may take |
| `Settlement`, `Moves`, `Runs` | brackets: the closed form of a tick, the proof steps of one fill, the invariant over runs |
| `Requests` | what clients are told, in terms of the request: refusals with their reasons, what becomes of an accepted order or bracket, cancels, snapshots |
| `Histories`, `Agreement` | whole histories with restarts and crashes; any two runs over the same messages compared |
| `Recovery`, `Survival` | crashes in the middle of messages and the replay after them; brackets that crashes did not touch |
| `Storage`, `Durability` | the two order tables and their loader; what the tables mean for each actor's history |
| `Candles`, `CandleStorage`, `Pipeline` | aggregator, candle tables, and the two in lockstep under crashes |
| `TickGen`, `Replay` | the generated stream, and the whole candle path over reconnections |
| `Registries`, `Server` | all actors over one pair of tables, boot, crash and reboot, the tick loop and the inboxes |
| `Handover` | the whole server over a stream: candles, inboxes, actors, clients' requests, connections and crashes |
| `Scenarios` | concrete inputs on which comments in the program are wrong |

The handlers are methods of a class that change `orders`, `position`, `lastLTP` and `hasLTP` in place. Ranging
over a Go map is "visit every key once, in an arbitrary order, reading the value at the visit", so each
theorem covers every order of iteration. Each handler is proved to take a step of `Protocol.Next`, a
relation on the actor's event log and price; runs, crashes and restarts are then studied on that relation. It
allows more orders of events than the handlers can produce, so what is said of runs is said of all of them, and
where two runs are compared, of every pair; such statements hold of the handlers' runs as well.
Every change to the order map is followed at once by one durable write, so one log is the history of the map,
of the position and of the writes, and lawful logs are closed under prefixes: a theorem about lawful logs holds
at every crash point.

## What is assumed

- Incoming orders have non-empty IDs, and standalone orders and entries carry no linkage
  (`internal/httpapi/orders.go:88-95`, `184-195`). Nothing is assumed of the legs' linkage fields, which the actor overwrites.
- A durable write commits whole or not at all, and a process whose write fails does not carry on.
- Where a restart must recover every instrument, no order ID was used for two instruments; that this is
  necessary too is `Durability.ReloadsAllIffIDsOwned`.

## Where the program departs from its own comments

The model follows the code.

- `internal/instrument/messages.go:63` says the legs of an accepted bracket are always pending or resting in the
  reply. They may be filled and cancelled already: `Histories.LegsAreQuietIff` gives the exact condition,
  `Scenarios.BracketMayCloseAtOnce` an input.
- `cmd/server/main.go:143-148` says that delivering a replayed tick to the actor is harmless, and
  `migrations/0001_init.sql:4-7` that every fill is guarded by the watermark. Orders are not: after a restart, a
  replayed price fills any marketable order that began to rest after that price was first handled, and only such
  orders, whatever crashes came in between. `Histories.ReplayFillsOnlyNewcomers`, `Histories.ReplayedTickIsHarmlessIff`; in
  `Scenarios.ReplayAfterRestart` the candles report the tick as a duplicate and the order fills.
- `internal/storage/order_store.go:76-80` and `migrations/0002_orders_positions.sql:13-16` say that after a crash
  the replayed tick makes up for what was lost. For orders outside brackets it does, over any history
  (`Recovery.PlainOrdersRecover`). In general a replay restores every rule of the book exactly if every bracket was
  stored whole, every filled leg's sibling is cancelled, and each leg left pending behind its filled entry has a sibling
  that one of the prices fills (`Recovery.ReplayRestoresIff`; `Recovery.CrashedTickRecoversIff` for the tick that
  crashed). A leg left behind is never activated again (`Histories.StrandedForEver`). `Scenarios.CrashMayStrandLegs` is a
  crash inside a tick, `Scenarios.CrashMayHalveBracket` one inside a placement, that no replay makes up for.
- `cmd/server/main.go:47-54` says that a restart followed by a replay resumes exactly where the process left off.
  A tick is committed and queued before its actor handles it, so a replay from the first uncommitted event can pass
  over a price that no order has seen. `Handover.NothingMissedIff`: no order ever misses an event, for any requests of
  clients and any crashes, exactly if each connection starts at or before the first event that no actor has handled.
  `Scenarios.CommittedThenDied` is an input on a server. `internal/feed/consumer.go:31-33` does not reconnect by itself,
  so replays come with restarts.
- `internal/order/order_test.go:34-38` lists type `stop` as invalid. `Validate` accepts that type; the
  order in that case is refused only for its missing price.

## Model

| member | source | states |
|---|---|---|
| Orders.Validate | internal/order/order.go:79-96 | an order is accepted exactly when it names an instrument, a known side and a known type, has a positive quantity and, unless it is a market order, a positive price |
| Protocol.ValidateBracket | internal/instrument/bracket.go:27-59 | a bracket is accepted exactly when its three orders are valid and distinct, the entry is no stop, and a limit target and a stop close the whole entry from the other side |
| Ledger.QtyAdds | internal/instrument/ledger.go:23-122 | in all five cases, flips included, a buy moves the position up by its quantity and a sell down by its quantity |
| Ledger.CostBasisAdds | internal/instrument/ledger.go:83-87 | averaging in neither makes nor loses money: quantity times average is additive |
| Ledger.EquityOfFill | internal/instrument/ledger.go:68-132 | at every price x, a fill changes realized plus unrealized profit by exactly its own signed quantity times (x - price) |
| Ledger.GainOfFill | internal/instrument/ledger.go:23-132 | realized profit plus quantity times (x - average) changes by quantity times (x - price) for a buy and by quantity times (price - x) for a sell, at every price x |
| Ledger.EquityAtFillPrice | internal/instrument/ledger.go:68-132 | at its own price a fill leaves total profit alone |
| Ledger.ApplyFillIsTheOnlyRule | internal/instrument/ledger.go:48-122 | no other rule books every fill at its own mark-to-market, realizes nothing on opening or adding, keeps the average on a partial close and starts afresh on a close or flip |
| Ledger.AccountingIdentity | internal/instrument/ledger.go:68-132 | from flat, after any adds, closes and flips, total profit at any price x is the sum of quantity times (x - price) over the buys and quantity times (price - x) over the sells, with no mention of averages |
| Ledger.BooksAreCash | internal/instrument/ledger.go:23-132 | the position is the volume bought less the volume sold, and total profit at x is what the sells brought in less what the buys cost plus the position at x |
| Ledger.QtyIsNet | internal/instrument/ledger.go:23-122 | the position's quantity is what the fills bought less what they sold |
| Ledger.AverageWithinTradedRange | internal/instrument/ledger.go:77-118 | the average price of an open position lies between the least and greatest price traded since it was opened or last flipped, through adds and partial closes |
| Ledger.OpeningExists | internal/instrument/ledger.go:77-118 | a position that is not flat was opened, from flat or by a flip, by one of its fills |
| Ledger.FlatIffNoAverage | internal/instrument/ledger.go:77-118 | with positive prices the average is zero exactly when the position is flat, and positive otherwise |
| Actor.ActorState.Restore | internal/instrument/actor_state.go:51-56 | a new actor that takes over the rows of a history has exactly the orders and position of that history, and no price |
| Actor.ActorState.FillOrder | internal/instrument/actor_state.go:237-255 | fills one order at the price in force, for any linkage whatever; when it returns nothing is left triggered, orphaned or rivalled that was not so before; it terminates because each recursive fill follows one order out of Pending |
| Actor.ActorState.ActivateChildrenOf | internal/instrument/bracket.go:126-139 | releases every pending leg of a filled entry, in any order of iteration and although fills rewrite the map being ranged over |
| Actor.ActorState.Activate | internal/instrument/bracket.go:131-137 | one leg is written as resting and, exactly if the known price reaches it, filled with all that follows |
| Actor.ActorState.CancelSiblingOf | internal/instrument/bracket.go:148-162 | cancels the sibling if it is still live, and otherwise changes nothing and writes nothing |
| Actor.ActorState.HandlePlaceOrder | internal/instrument/actor_state.go:107-142 | rejects, fills at once or rests, with the reply of the protocol, and in the reject case touches nothing |
| Actor.ActorState.HandlePlaceBracket | internal/instrument/bracket.go:61-117 | rejects, or stores two linked pending legs and then treats the entry like a standalone order; the reply shows the legs as they end up |
| Actor.ActorState.StoreLegs | internal/instrument/bracket.go:89-97 | the legs name the entry and each other, are pending, and are written before the entry is placed |
| Actor.ActorState.HandleCancelOrder | internal/instrument/actor_state.go:144-175 | only a live order is cancelled, its sibling is left alone, and the reply names the case |
| Actor.ActorState.HandleTick | internal/instrument/actor_state.go:177-205 | from a consistent book the order map after the loop is the closed form `Settled` of the map before and the price, whatever the order of iteration; nothing marketable is left resting |
| Actor.ActorState.HandleSnapshot | internal/instrument/actor_state.go:207-218 | lists every order exactly once, with the position and the last price |
| Actor.ActorState.Handle | internal/instrument/actor_state.go:92-105 | every message takes one step of the protocol, run to completion, and writes only for this instrument |
| Actor.Run | internal/instrument/actor.go:78-90 | restored once, then one message at a time: the replies and states form a run of the protocol from the restored history |
| Journal.StatusesOnlyAdvance | internal/instrument/actor_state.go:144-194 | between any two points of a history orders keep their terms, no status moves back, and filled and cancelled are final |
| Journal.LegsFollowEntries | internal/instrument/bracket.go:85-97 | at every write of every history, a leg rests or has filled only if its entry has filled |
| Journal.OneFillPerFilledOrder | internal/instrument/actor_state.go:237-248 | an order was executed once if it is filled and never otherwise |
| Journal.FillsMatchOrders | internal/instrument/actor_state.go:237-248 | every execution is of a filled order, in full, at a price that order was willing to take |
| Journal.LedgerIsFold | internal/instrument/actor_state.go:245-248 | the recorded position is the accounting rule folded over the executions, nothing else |
| Journal.QtyIsNetQty | internal/instrument/actor_state.go:245-248 | the position's quantity is the sum over the orders now filled, plus for a buy and minus for a sell |
| Journal.ExactlyOnceLedger | internal/storage/order_store.go:81-109 | after any prefix of the writes the position is the fold over one fill per filled order |
| Settlement.SettlementIsUnique | internal/instrument/actor_state.go:177-194 | two results of one tick agree on every uncontested order, and on a contested pair of legs up to which one won |
| Settlement.SettledQtyIsUnique | internal/instrument/actor_state.go:177-194 | the quantity after a tick does not depend on the order of iteration |
| Settlement.CascadeStaysWithin | internal/instrument/bracket.go:126-162 | a cascade of any length fills only orders that the closed form marks, activates a leg only after its entry's fill and cancels an order only for a filled sibling |
| Settlement.RestIsSettled | internal/instrument/actor_state.go:177-194 | a cascade with nothing left to do has reached the closed form, and no other book |
| Settlement.SettledIsConsistent | internal/instrument/actor_state.go:250-251 | the closed form keeps the linkage and the bracket rules, and leaves nothing triggered |
| Settlement.BracketExposure | internal/instrument/bracket.go:85-116 | a bracket contributes its entry's signed quantity while it is open and nothing before or after, and no third leg exists |
| Moves.FillSettles | internal/instrument/actor_state.go:237-255 | fill, activation and sibling cancellation together leave nothing new unfinished, although the first alone breaks one-cancels-other |
| Moves.SiblingIsNotBelow | internal/instrument/bracket.go:126-162 | what a leg's fill sets off, through legs of legs to any depth, cannot fill its own sibling before that is cancelled |
| Moves.PendingsDrop | internal/instrument/bracket.go:127-137 | the set of pending orders strictly shrinks before each recursive fill |
| Runs.TickSettles | internal/instrument/actor_state.go:177-194 | every cascade of a tick on a consistent book ends in the closed form |
| Runs.PlaceKeepsInv | internal/instrument/actor_state.go:107-142 | a placement keeps the invariant; one that fills settles the book in which it would have rested |
| Runs.BracketKeepsInv | internal/instrument/bracket.go:61-117 | so does a bracket, legs that fill inside the same request included |
| Runs.CancelKeepsInv | internal/instrument/actor_state.go:144-175 | cancelling a leg or an entry keeps the invariant |
| Runs.TickKeepsInv | internal/instrument/actor_state.go:177-205 | a tick keeps the invariant and settles the book |
| Runs.MessageKeepsInv | internal/instrument/actor_state.go:92-105 | linkage, bracket rules and no missed trigger are kept by every message |
| Histories.LogsStayLawful | internal/instrument/actor.go:78-90 | over messages, restarts and crashes inside messages, the durable history is lawful and never loses a write |
| Histories.LedgerSurvivesCrashes | internal/storage/order_store.go:81-109 | whenever and however often the process dies, the ledger is the fold over exactly one fill per filled order |
| Histories.PositionInPlainTerms | internal/instrument/ledger.go:23-132 | in every state of every history with crashes, the position is the quantity of the filled buys less that of the filled sells, and total profit at any price is sales less cost plus the position at that price |
| Histories.CancelIsTruthful | internal/instrument/messages.go:88-114 | an order reported cancelled never filled and never will, one reported filled did so once, and an unknown one never did, in every later state, crashes included |
| Requests.PlacementIsRefusedIff | internal/instrument/actor_state.go:107-124 | an order is refused exactly if one of its fields is bad, it is for another instrument or its ID was used; then nothing changes, and the reply echoes the order and gives the reason of the first defect in that order |
| Requests.PlacementIsCarriedOut | internal/instrument/actor_state.go:126-142 | any other order is stored on the terms of the request, alone: filled in full at the last traded price if that reaches it, else resting; the reply says which and shows the stored order and the fill |
| Requests.BracketIsRefusedIff | internal/instrument/bracket.go:27-83 | a bracket is refused exactly if one of its orders is bad, or their kinds, sides, quantities, IDs or instruments do not fit, or an ID was used; then nothing changes and the reply echoes the three and gives the reason of the first defect |
| Requests.BracketIsCarriedOut | internal/instrument/bracket.go:85-117 | any other bracket has its three orders stored on the terms of the request, the legs naming the entry and each other, and nothing else; the entry fills or rests like a standalone order, and the reply shows the three as they end up |
| Requests.CancelIsCarriedOut | internal/instrument/actor_state.go:144-175 | a resting or pending order is cancelled and nothing else changes, any other cancel changes nothing, and the reply names the case and shows the order as it then is |
| Requests.SnapshotTellsAll | internal/instrument/actor_state.go:207-218 | at any time in any history a snapshot lists every order once, its position is the filled buys less the filled sells with the profit of the fills, and its price is that of the last tick since boot, or zero |
| Histories.FillsAtLastPrice | internal/order/order.go:142-144 | on all four paths to a fill the price is the last traded price in force |
| Histories.PriceProtection | internal/order/order.go:116-144 | over every history, a limit fill is never worse than its limit and a stop fill is at or beyond its trigger |
| Histories.InvHolds | internal/instrument/actor_state.go:92-105 | the invariant holds between all messages of any run with restarts |
| Histories.NothingIsMissed | internal/instrument/actor_state.go:177-194 | in every state of every history, crashes inside messages included, no resting order could fill at the price in force |
| Histories.BracketsAreSafe | internal/instrument/bracket.go:10-23 | between messages a filled leg's sibling is cancelled, legs are resting or filled only after their entry, none is left pending after it, the bracket's net exposure is the entry's quantity or zero, and the known price is on the far side of every resting order's limit or trigger |
| Histories.CascadeKeepsEquity | internal/instrument/ledger.go:68-132 | any number of fills at one price, in any order, leaves total profit at that price alone |
| Histories.MessageKeepsEquity | internal/instrument/actor_state.go:186-194 | no message moves total profit at the price in force |
| Histories.TickIsConfluent | internal/instrument/actor_state.go:181-194 | two actors that handle one tick from one state in different iteration orders agree on all orders up to contested legs, on the quantity and on total profit |
| Histories.AverageOverHistories | internal/instrument/ledger.go:77-118 | over every history of positive ticks the average is zero exactly when the position is flat, and otherwise within the prices traded since the fill that opened it |
| Histories.TickIsIdleIff | internal/instrument/actor_state.go:186-194 | a tick changes no order and no position exactly when no resting order is marketable at it, also in a book that crashes left half done; from a consistent state the last tick again changes nothing at all |
| Histories.ReplayFillsOnlyNewcomers | cmd/server/main.go:143-149 | once a tick at some price has been handled, only orders that began to rest afterwards can ever be marketable at that price, through any messages, restarts and crashes |
| Histories.ReplayedTickIsHarmlessIff | cmd/server/main.go:143-149 | a tick handled before and handled again, with any messages, restarts and crashes in between, changes orders and ledger exactly when it reaches an order that began to rest since |
| Histories.StrandedForEver | internal/instrument/bracket.go:119-139 | a leg that is pending after its entry has filled is pending or cancelled in every later state, through any messages, restarts and crashes |
| Agreement.SettleAlike | internal/instrument/actor_state.go:177-194 | books that agree up to which leg of a decided bracket won settle into books that so agree |
| Agreement.WorthFromOnePrice | internal/instrument/ledger.go:124-132 | equal quantity and equal total profit at one price make equal total profit at every price |
| Agreement.MessageAgrees | internal/instrument/actor_state.go:92-105 | any two outcomes of one message, from states that agree, agree again and give like replies |
| Agreement.RunsAreConfluent | internal/instrument/actor_state.go:181-194 | any two runs over the same messages from one state agree on every order up to which leg of a bracket won, on the quantity, on total profit at every price, and on every placement reply |
| Agreement.RestartCannotBeSeen | internal/instrument/actor_state.go:43-56 | if placements and snapshots follow a tick, every run of the actor that never stopped and every run of the restored one agree in the same way throughout, give like replies to every message, and know the same price from the first tick on |
| Agreement.PlacementShowsRestartIff | internal/instrument/actor_state.go:132-141 | a placement before the first tick gets the same reply exactly when it is refused or was not marketable at the forgotten price |
| Agreement.BracketShowsRestartIff | internal/instrument/bracket.go:105-116 | so does a bracket, exactly when it is refused or its entry was not marketable |
| Agreement.SnapshotShowsRestartIff | internal/instrument/actor_state.go:207-218 | a snapshot before the first tick shows the same position and orders, and the same price exactly if the forgotten one was zero |
| Histories.LegsAreQuietIff | internal/instrument/messages.go:61-69 | the reply to an accepted bracket shows two live legs exactly when no leg is marketable at the price that fills the entry |
| Recovery.OrphanStaysOut | internal/instrument/bracket.go:126-139 | a leg whose entry filled in the past is never activated |
| Recovery.CancelledBy | internal/instrument/bracket.go:148-162 | whatever a tick cancels is the sibling of an order that the same tick filled |
| Recovery.CrashedTickRecoversIff | internal/storage/order_store.go:76-81 | however often one tick is cut short by crashes, at whatever writes: handled again it ends in the book it would have settled, with every rule restored, if and only if in the tables every filled leg's sibling is cancelled and the sibling of each leg left pending is about to fill |
| Recovery.ReplayRestoresIff | internal/storage/order_store.go:76-81 | over tables left by any crashes whatever, the ticks of any replay restore every rule of the book if and only if every bracket was stored whole, every filled leg's sibling is cancelled, and one of the prices fills the sibling of each leg left pending |
| Recovery.PlainOrdersRecover | migrations/0002_orders_positions.sql:13-16 | over any piece of any history, with any messages, restarts and crashes, an order outside brackets that nobody cancels or names as a sibling ends up filled exactly if one of the ticks handled reaches it, as if there had been no crash, provided that the ticks that crashed were replayed |
| Survival.MessagePreserves | internal/instrument/actor_state.go:92-105 | every message keeps each bracket that is linked and in order, however badly linked or half done the rest of the book is, and adds only such brackets; and it keeps the linkage of the whole book |
| Survival.SparedBracketIsSafe | internal/instrument/bracket.go:10-23 | over histories with any crashes inside messages, placements included, a bracket whose rows no crash changed keeps one-cancels-other, its lifecycle and its exposure |
| Storage.RowsComeFromWrites | internal/storage/order_store.go:64-74 | each row still carries the ID and the instrument of a write, whatever was upserted since |
| Storage.RowIsFirstWrite | internal/storage/order_store.go:64-74 | after any writes a row is as the first write with its ID made it, but for the status, which is that of the last |
| Storage.PositionIsLastFill | internal/storage/order_store.go:81-109 | a position row is that of the last fill written for its instrument |
| Storage.OrderStore.SaveOrder | internal/storage/order_store.go:64-74 | a new row is the order; an existing one changes its status column and nothing else |
| Storage.OrderStore.SaveFillTransition | internal/storage/order_store.go:81-109 | order and position change in one atomic step |
| Storage.OrderStore.LoadAllInstrumentState | internal/storage/order_store.go:150-190 | for every instrument exactly its position row, or flat, and each of its order rows once |
| Storage.ListOrders | internal/instrument/actor_state.go:208-211 | a map copied in arbitrary order is listed completely and without repetition |
| Durability.ReloadIsExact | internal/storage/order_store.go:64-109 | however the writes of the actors interleave, the rows of an instrument are the orders its actor had in memory, although an update writes one column |
| Durability.ReloadedSeeds | internal/storage/order_store.go:150-190 | what the loader gathers for an instrument is a seed for exactly its history |
| Durability.ReloadsAllIffIDsOwned | internal/storage/order_store.go:64-74 | a restart recovers every actor if and only if no order ID was used for two instruments |
| Durability.StoredLedgerIsExactlyOnce | internal/storage/order_store.go:81-109 | cut the interleaved writes anywhere: the stored position of each instrument is the fold over one fill per stored filled row, and its quantity their sum |
| Durability.CutHistories | internal/storage/order_store.go:64-109 | the shared journal cut at any write is made of a prefix of each instrument's history |
| Registries.Registry.constructor | cmd/server/main.go:57-63 | after boot every instrument stands where its durable history left it, before any actor exists |
| Registries.Registry.ActorFor | internal/instrument/registry.go:88-113 | creating an actor on first use is unobservable |
| Registries.Registry.Deliver | internal/instrument/registry.go:88-113 | one message takes one step of one instrument; no other instrument changes, although all share the tables |
| Registries.Registry.Pass | internal/instrument/actor.go:78-90 | the same for an actor that exists already, with the journal only growing |
| Registries.LogsAreHistories | internal/storage/order_store.go:64-109 | the shared journal is an interleaving of the instruments' histories and holds nothing else |
| Registries.Reboot | cmd/server/main.go:47-63 | a restart between messages brings back every instrument's orders, position and history exactly, and forgets only prices |
| Registries.RebootAfterCrash | cmd/server/main.go:47-63 | a boot over what a crash left on disk, with any number of actors in the middle of a message and their writes interleaved at will: each of them has lost the end of its message and nothing else, and every other one has only been restarted |
| Registries.NothingUnderway | cmd/server/main.go:47-63 | every valid registry is such a situation with nothing in flight |
| Registries.EachHasItsHistory | cmd/server/main.go:47-63 | over any deliveries and any crashes of the whole process, with any messages in flight, each instrument goes through a history of its own |
| Registries.TablesAreExactlyOnce | internal/storage/order_store.go:81-109 | the tables behind any registry hold for each instrument the fold over one fill per filled row |
| Candles.BucketFor | internal/candle/candle.go:23-27 | the start of the 60000 milliseconds, on a whole multiple, that contain the timestamp |
| Candles.Aggregator.Apply | internal/candle/aggregator.go:49-104 | a duplicate changes nothing; otherwise the instrument's state and the result are those of the specification, no other instrument changes |
| Candles.TickIsApplied | internal/candle/aggregator.go:49-104 | a seq not above the last one seen is a duplicate; any other tick closes the candle in progress and opens its own exactly if its minute is later, and else updates high, low, close and count |
| Candles.Aggregator.Seed | internal/candle/aggregator.go:130-137 | the instrument's state is replaced by the watermark and the given candle |
| Candles.Aggregator.Snapshot | internal/candle/aggregator.go:107-113 | the candle in progress, if there is one |
| Candles.BarIsOhlc | internal/candle/aggregator.go:62-101 | the candle built tick by tick is first, greatest, least, last and number of its ticks |
| Candles.SegmentsPartition | internal/candle/aggregator.go:76-101 | the ticks of an instrument split into consecutive segments with strictly increasing minutes |
| Candles.SegmentHasRow | internal/candle/aggregator.go:62-101 | each segment has its own row, and the row is its exact OHLC |
| Candles.CountsAddUp | internal/candle/aggregator.go:96-101 | the tick counts of the rows add up to the number of ticks |
| Candles.LastSegmentIsLatest | internal/storage/candle_store.go:92-111 | the row with the largest minute is the candle of the last segment, and no other |
| Candles.RowsAreMinutesIff | internal/candle/aggregator.go:76-101 | each row is the exact OHLC of all ticks of its own 60000 milliseconds, and each such minute with a tick has its row, if and only if no tick falls in an earlier minute than one before it |
| CandleStorage.LatestOf | internal/storage/candle_store.go:90-111 | finds the row with the largest minute in any order of rows |
| CandleStorage.CandleStore.GetWatermark | internal/storage/candle_store.go:39-50 | the last applied seq, or none |
| CandleStorage.CandleStore.UpsertCandle | internal/storage/candle_store.go:169-183 | an existing row keeps its open price, everything else is overwritten |
| CandleStorage.CandleStore.ApplyTick | internal/storage/candle_store.go:131-167 | either nothing, for a seq not above the watermark, or rows and watermark together |
| CandleStorage.CandleStore.AllWatermarks | internal/storage/candle_store.go:71-88 | the whole watermark table |
| CandleStorage.CandleStore.AllLatestCandles | internal/storage/candle_store.go:92-111 | one candle per instrument that has any, that of its largest minute |
| Pipeline.SeedAggregator | cmd/server/main.go:96-114 | after boot the aggregator holds one state per watermark, with the instrument's latest candle |
| Pipeline.VerdictsAgree | cmd/server/main.go:136-141 | aggregator and watermark check call the same ticks duplicates: those that are not above every committed seq of the instrument |
| Pipeline.NewMinuteRows | internal/storage/candle_store.go:147-154 | writing the closed candle again changes nothing; the tick's own candle becomes a new row |
| Pipeline.SameMinuteRows | internal/storage/candle_store.go:169-183 | an update that leaves out the open price still leaves the row equal to the candle in memory |
| Pipeline.ProcessTracks | cmd/server/main.go:136-141 | one turn of the tick loop keeps aggregator, rows and watermarks what the committed ticks determine |
| Pipeline.SeedRebuilds | internal/candle/aggregator.go:115-137 | seeding rebuilds exactly the aggregator that was lost |
| Pipeline.FeedTracks | cmd/server/main.go:96-141 | so do any deliveries, replays and crashes before or after commit |
| Pipeline.FeedRefinesFreshRun | internal/candle/aggregator.go:115-137 | memory and tables are those of a process that never crashed and saw only the committed ticks, once each |
| Pipeline.RowsAreTrueCandles | internal/storage/candle_store.go:169-183 | the stored rows are in one-to-one correspondence with the segments of the committed ticks and are their exact OHLC, and their counts add up |
| Pipeline.StoredRowsAreMinutesIff | internal/candle/candle.go:23-27 | so too for the stored rows, after any deliveries, replays and crashes |
| Pipeline.LatestRowIsInProgress | internal/storage/candle_store.go:92-111 | a watermark exists exactly where a candle exists, and the latest row is the candle in progress |
| Pipeline.DuplicateVerdictsAgree | internal/storage/candle_store.go:138-145 | in every reachable state the two duplicate checks agree on every tick |
| TickGen.RoundTickIsNearest | tickgen/main.go:33-68 | the result is the multiple of 0.05 nearest to the price, the upper one of two, and 0.05 for anything below 0.025 |
| TickGen.Stream | tickgen/main.go:80-101 | from any start index the stream is that suffix of one and the same sequence of events: the event at position k is event start + k |
| TickGen.StreamIsContiguous | tickgen/main.go:93-96 | each instrument's events are numbered 1, 2, 3 and so on without a gap |
| TickGen.StreamPricesOnGrid | tickgen/main.go:33-68 | every price in the stream is a positive multiple of 0.05 |
| TickGen.StreamWalks | tickgen/main.go:86-96 | each event is of the instrument drawn, at the multiple of 0.05 nearest to that instrument's previous price plus the move drawn |
| Replay.NewIffAtFrontier | internal/candle/aggregator.go:56-60 | a replayed event is never new, and the first unprocessed one always is |
| Replay.ReplayIsExactlyOnce | cmd/server/main.go:90-141 | over any reconnections at or before the first unprocessed event and any crashes, memory and tables are those of one pass over the events up to it |
| Replay.TicksAreConserved | internal/storage/candle_store.go:142-166 | an instrument's tick counts add up to its watermark, and both to the number of its events processed |
| Replay.WatermarkCountsTicksIffNoGap | internal/storage/candle_store.go:142-166 | with no promise about reconnections the counts never exceed the watermark, and equal it if and only if no seq was skipped |
| Handover.NothingMissedIff | cmd/server/main.go:47-54 | for each timing of connections, commits, inboxes and crashes: no run with that timing, whatever clients request, leaves an order resting that an event passed by the connection would have filled, unless the order began to rest after its actor handled that event, if and only if each connection starts at or before the first event that no actor has handled |
| Handover.LateConnectionMisses | cmd/server/main.go:136-151 | wherever a connection starts past an unhandled event, a run with just that timing in which an order rests before the connection and misses the event |
| Handover.InTimeIsEnoughForCandles | cmd/server/main.go:136-137 | a connection early enough for the orders starts at or before the first uncommitted event |
| Handover.InTimeKeepsCandles | cmd/server/main.go:136-141 | so in the same runs memory and candle tables are those of one pass over the events up to the first uncommitted one |
| Handover.CommittedAndLost | cmd/server/main.go:136-151 | not the other way round: over any stream, an event committed just before a crash is passed over by a connection that starts after it, and an order misses it |
| Server.Server.constructor | cmd/server/main.go:55-115 | boot puts both halves back from their tables |
| Server.Server.Record | cmd/server/main.go:136-137 | the candle half of a tick is one step of the pipeline and leaves all orders alone |
| Server.Server.Send | internal/instrument/actor.go:97-108 | a message joins the end of one inbox, and nothing is handled |
| Server.Server.OnTick | cmd/server/main.go:129-163 | a tick, duplicate or not, is one step of the pipeline and joins its actor's inbox; no order has seen it yet |
| Server.Server.Work | internal/instrument/actor.go:78-90 | an actor takes the oldest message of its inbox and handles it in one step of the protocol; no other inbox or instrument changes |
| Scenarios.BracketMayCloseAtOnce | internal/instrument/messages.go:61-69 | a bracket whose target fills in the request that placed it |
| Scenarios.ReplayedTickMayFill | cmd/server/main.go:143-149 | in every history of two ticks, an order that rests, a restart and the first tick again, the order fills |
| Scenarios.ReplayAfterRestart | cmd/server/main.go:136-155 | that history on a server: the candle tables report the last tick as a duplicate, and the order fills |
| Scenarios.CommittedThenDied | cmd/server/main.go:136-151 | a tick is committed and queued and the process dies before the actor takes it: the tick counts as seen, the replay goes on after it, and an order it would have filled still rests |
| Scenarios.CrashMayStrandLegs | internal/storage/order_store.go:76-81 | a crash after the entry's fill: however the replayed tick runs, it does not settle the book and leaves both legs pending |
| Scenarios.CrashMayHalveBracket | internal/instrument/bracket.go:89-97 | a crash after the first write of a bracket placement: no leg has filled or lost its entry, and yet no replay of any ticks restores the rules |

## Left out

- HTTP, TCP, JSON and WebSocket code (`internal/httpapi`, `internal/feed`, `internal/ws`): plumbing; the handlers only supply what is assumed of incoming orders.
- The registry's mutex, its index from order IDs to instruments, `Peek`, and the channels of `actor.go`: any sequence of messages covers every interleaving they can deliver, and at a crash any number of messages may be in hand.
- `publish`, logging, timeouts and contexts.
- The capacity of channels: an inbox takes any number of messages; a full one only makes the sender wait, which is a `Sent` move that comes later.
- IEEE-754 rounding and 64-bit overflow: accounting and OHLC are exact over the reals and unbounded integers.
- Store writes that fail while the process carries on (`actor_state.go:70-72`, `79-81`, `main.go:138-141`): a write commits, or the process is taken to have died.
- Bracket rules for the bracket that a crash cut short: the fill and the sibling's cancellation are separate writes, and so are the three orders of a new bracket, so between them the rules do not hold; `Recovery` says exactly when a replay restores them, `Survival` that all other brackets keep them.
- Order ID generation, the wall clock, pacing and the random generator: IDs and timestamps are inputs, and the draws of the stream are a parameter.
- `buildInstruments` in `tickgen/main.go`: the instruments and starting prices are a parameter, required only to be distinct.
- Side, type and status strings are datatypes, with an extra constructor for any other string a caller can send; the conversions to and from table columns are the identity.
- Error texts: a rejection carries a reason instead.
- `LatestCandle`, `LoadPosition` and `LoadOrdersForToken`: single-row variants of loaders that are modelled.
- The aggregator's states are values in a map instead of pointers to records; no two instruments share a record in the program.
- Candle rows are kept in a map per instrument, keyed by minute, which stands for the table's two-column primary key.
- `LoadAllInstrumentState` and `handlePlaceBracket` are split into smaller methods; `activateChildrenOf` has one leg's part as a method of its own; each leg is persisted right after it is stored, where the program stores both legs first and nothing can run in between.
- Actor.ActorState.HandleTick: the closed form is stated for consistent books, which every book between messages is; from any other book the method still promises that nothing triggered is left and nothing new is unfinished.
- Histories.BracketsAreSafe: for crashes between messages only; with crashes inside messages, `Survival.SparedBracketIsSafe` holds for the brackets they did not touch.
- Recovery.CrashedTickRecoversIff: the crashed tick is the first message after each restart; `Recovery.ReplayRestoresIff` covers replays that start further back, and crashes inside placements.
- Handover.NothingMissedIff: the stream has positive prices and named instruments, as `TickGen.StreamPricesOnGrid` shows of the prices; a failed transaction, after which the program skips the actor (`main.go:138-141`), is taken to end the process.
