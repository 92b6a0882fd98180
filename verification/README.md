# Warehouse inventory ledger

A Dafny model of the warehouse ledger of an order-handling back end, and proofs about it.

The same stock is kept in several forms: quantities cached on the order row, sums over invoice rows (the ledger),
quantities reserved on planned trip lines, a running balance stored with every invoice, and derived views. The model has
one state with four tables (orders, ledger, trip lines, trip stops) and one specification function per service call; a
call succeeds or leaves the state as it was. The main results are

* an invariant that every run of intake, batch intake, counted receipts, outbound drafts, dispatch, cancellation and
  outbound roll-back keeps: cached quantities are ledger sums, nothing is over-allocated, no code is both reserved and
  dispatched (`Invariant`, `Runs`), with the exact condition of each call that can break it (of a counted confirmation: of
  each of its rows);
* what each call writes, told by what it was sent: quantities, kinds, destinations, statuses, balances and stops of every row
  it touches, and exactly when outbound requests and edits are accepted (`IntakeEffects`, `ReceiptEffects`, `Requests`,
  `OutboundEffects`, `TripEffects`, `ConsolidationEffects`);
* roll-back undoes dispatch, and the re-opened trip can be dispatched again (`RoundTrip`);
* batch intake refines one-by-one intake (`BatchLaws`); on codes split over several rows every call is the call on the rows
  folded first (`SplitLaws`, `GatherLaws`);
* consolidating split rows conserves every ledger aggregate, moves quantities on merged lines by an exact drift, and shows
  to readers in exactly characterised cases (`ConsolidationLaws`, `LineLaws`, `FindOneLaws`);
* the closed form of the clamped running balance, and the administrator's edits over any sequence (`RunningBalance`,
  `AdminLaws`);
* reconciliation, and what announcing and cancelling an inbound draft leaves behind (`ReconcileLaws`);
* transfers conserve each order's goods up to the recorded overage, on whole runs (`Transfers`, `TransferRuns`);
* the outbound board offers exactly what re-saving a draft accepts (`Board`); the hub-scoped status agrees with the stored
  one (`HubStatus`); rounding errors of shares are bounded (`Shares`); codes never repeat (`Codes`).

## Layout

| files | content |
|---|---|
| `Basics`, `Sums`, `Model` | results and options, SUM and GROUP BY, the tables and their aggregate queries |
| `Consolidation`, `Intake`, `BatchIntake`, `Dispatch`, `Receiving`, `AdminLedger`, `Reconcile`, `FindOne` | specification functions of the service calls |
| `Tables`, `ConsolidateService`, `IntakeService`, `InboundService`, `OutboundService`, `LedgerService` | the imperative methods: tables updated in place, loops and in-memory maps as in the services, each proved to leave the specified state |
| `Invariant`, `*Laws`, `Requests`, `*Effects`, `RoundTrip`, `Runs`, `Gaps`, `Transfers`, `TransferRuns`, `Board`, `HubStatus`, `Shares`, `Codes` | the properties |

## Conventions

* A row's position in `ledger` and `lines` is its id; rows are appended or soft-deleted. Creation time follows the id, as it
  does when transactions are serial.
* A call reads `found`, the rows `find` returned, in whatever order the database chose. Sequence values (trip codes, order
  codes) are parameters; that they are unused is a condition of the lemma that needs it.
* Where code and comments differ the code is followed: saving an outbound draft does write the receiving hubs' stops
  (`src/orders/warehouse.service.ts:4001-4003` says they come on confirmation), cancelling an inbound draft does not remove
  orders in status WAITING, and a reconciliation counts every PENDING line, outbound ones included, as goods still to
  arrive.
* Laws that fail are shown with a concrete input (`Gaps`, `MixedLinesShow`, `MisspeltDraftShows`,
  `ShareAboveTotal`, `OutboundPlanInflates`) next to the exact condition under which they hold.

## Model

| member | source | states |
|---|---|---|
| `Model.Siblings` | src/orders/warehouse.service.ts:1428-1433 | The live rows of a code, all of them and only them, in id order |
| `Model.FindByCode` | src/orders/warehouse.service.ts:2618-2622 | A row found by code is live and carries the code; none is found only when no live row carries it |
| `Partition.HubStocksAddUp` | src/orders/operational-ledger.service.ts:149-165 | For any duplicate-free list of hubs that names every live row, the hub stocks of an order sum to receipts minus dispatches |
| `Partition.HubStockWithinOrder` | src/orders/operational-ledger.service.ts:149-165 | When no hub is in the red, no hub holds more than the whole order |
| `Invariant.ReservedNonNegative` | src/orders/operational-ledger.service.ts:193-217 | A reservation total is never negative, whichever trip is excluded |
| `Invariant.StockNonNegative` | src/orders/operational-ledger.service.ts:149-165 | On states satisfying the invariant every hub stock is at least zero, the bucket without a hub included |
| `Invariant.StockWithinRemaining` | src/orders/warehouse.service.ts:3714-3719 | One hub never holds more than the order's receipts minus dispatches |
| `InboundLaws.BookedAlone` | src/orders/warehouse.service.ts:1428-1539 | For a code with at most one live row, booking writes exactly one row: the row absorbed, or a new one under the next id |
| `InboundLaws.OrderSavedKeepsInv` | src/orders/warehouse.service.ts:1471-1513 | Saving one order row that still agrees with the ledger keeps the whole invariant |
| `InboundLaws.ReceiptKeepsInv` | src/orders/warehouse.service.ts:1587-1610 | One receipt that settles its order, on no outbound draft's trip, keeps the whole invariant |
| `InboundLaws.LinesChangedKeepInv` | src/orders/warehouse.service.ts:3017-3082 | Rewriting or adding lines of a trip without plans keeps the invariant and every plan |
| `InboundLaws.IntakeKeepsInv` | src/orders/warehouse.service.ts:1357-1650 | Intake keeps the invariant if and only if the vehicle's trip code is not an outbound draft |
| `IntakeService.BookOn` | src/orders/warehouse.service.ts:1471-1513 | The assignments to a booked row, step by step, are the absorbed row |
| `IntakeService.QuickCreateInbound` | src/orders/warehouse.service.ts:1357-1650 | The statements on the tables leave the state the specification of one intake describes |
| `IntakeEffects.FirstDelivery` | src/orders/warehouse.service.ts:1515-1536 | A first delivery opens a row whose total is the quantity sent (one when none positive is sent), all of it received and remaining unless it is only announced |
| `IntakeEffects.FurtherDelivery` | src/orders/warehouse.service.ts:1471-1499 | A further delivery: announced, it adds its pieces to the total only; real, to total, receipts and remaining; the first real one on an announced row replaces all three. Load is added to three decimals or replaced likewise, every other row stays |
| `IntakeEffects.DeliveryInvoiced` | src/orders/warehouse.service.ts:1580-1610 | A real delivery has exactly one receipt, with those pieces counted and expected, and raises the ledger sums by them; an announced one has none |
| `IntakeEffects.DeliveryLoaded` | src/orders/warehouse.service.ts:1541-1578 | On a vehicle exactly one line with those pieces joins the trip, and the hub's stop is pending only when they are announced and it was not done before |
| `IntakeEffects.DeliveryOnFoot` | src/orders/warehouse.service.ts:1541-1544 | Without a vehicle neither trip lines nor stops move |
| `SplitLaws.SplitDelivery` | src/orders/warehouse.service.ts:1436-1513 | A delivery under a split code is booked as under an unsplit one once the code is folded into its first stored row (else its first); the results are equal exactly when the oldest row has a destination, the folded row has none, or the parcel's is the same |
| `IntakeEffects.BatchBalances` | src/orders/warehouse.service.ts:1942-2040 | Every receipt of a batch stores the balance its order ends with |
| `BatchLaws.StopsJoin` | src/orders/operational-ledger.service.ts:119-143 | Upserting a stop twice is upserting it once with the further status, in either order |
| `BatchLaws.StopsOneByOne` | src/orders/warehouse.service.ts:2025-2040 | Item by item, the vehicle's stop ends PENDING exactly when every item is a draft, COMPLETED otherwise |
| `BatchLaws.QueueSaved` | src/orders/warehouse.service.ts:1942-1948 | Saving the working map stores each queued row under its own id, fresh ids for new rows, and leaves every other row alone |
| `BatchLaws.SaveAgain` | src/orders/warehouse.service.ts:1837-1906 | Booking again under a queued code changes that code's row of the saved table and nothing else |
| `BatchLaws.PreparedMirrors` | src/orders/warehouse.service.ts:1757-1940 | After any number of items, saving the in-memory batch would give the order rows, lines and receipts the one-by-one calls have written |
| `BatchLaws.BatchRefinesOneByOne` | src/orders/warehouse.service.ts:1657-2040 | A whole vehicle booked as a batch leaves the tables that booking its items one by one leaves (orders, ids, lines, stops, invoices), repeated codes and mixed drafts included; only the stored running balance may differ |
| `SplitLaws.SplitBatch` | src/orders/warehouse.service.ts:1816-1836 | A vehicle that names split codes leaves the tables of the same vehicle booked after every code the client named has been folded, and that folding leaves each of them one row |
| `SplitLaws.SplitBatchOneByOne` | src/orders/warehouse.service.ts:1657-2040 | So on split codes too a batch is booking its items one by one, on the folded tables |
| `BatchLaws.BatchKeepsInv` | src/orders/warehouse.service.ts:1657-2040 | An accepted batch keeps the invariant if and only if its trip code is not an outbound draft and every code the generator made is unused |
| `BatchLaws.CodeBookedTwice` | src/orders/warehouse.service.ts:1735-1760 | A generated code that is in use is saved as a second live row of that code, because only the codes the client named were fetched |
| `IntakeService.Prefetch` | src/orders/warehouse.service.ts:1735-1755 | The grouping loop yields, for every code, exactly the live rows of a code the client named |
| `IntakeService.PrepareBatch` | src/orders/warehouse.service.ts:1757-1940 | The loop with its working map computes the specified working map, queue and metadata |
| `IntakeService.SaveAll` | src/orders/warehouse.service.ts:1942-1948 | The saving loop gives new rows consecutive ids in queue order |
| `IntakeService.BatchCreateInbound` | src/orders/warehouse.service.ts:1657-2040 | The method commits the specified batch or refuses and changes nothing |
| `ReceiptLaws.AcceptedSafe` | src/orders/warehouse.service.ts:2650-2741 | A draft of the receiving hub that enters stock keeps the loop sound |
| `ReceiptLaws.CountedSafe` | src/orders/warehouse.service.ts:2742-2927 | A locked contract that is counted keeps the loop sound, on its own trip or the shared one |
| `ReceiptLaws.RecountKeepsInv` | src/orders/warehouse.service.ts:2756-2828 | A super administrator's re-count keeps the invariant if and only if the hub's corrected stock still covers its reservations |
| `ReceiptLaws.NewRowUnsafe` | src/orders/warehouse.service.ts:2942-3005 | A row nobody announced breaks the invariant when its total is negative or its code is taken |
| `ReceiptLaws.RowKeepsInv` | src/orders/warehouse.service.ts:2611-3112 | One row of a counted confirmation keeps the loop sound if and only if it is safe: no negative total, no code in use, no re-count below the reservations |
| `ReceiptLaws.SyncKeepsInv` | src/orders/warehouse.service.ts:3123-3184 | Taking lines off the vehicle, and removing drafts that came only with it, keeps the invariant |
| `ReceiptLaws.CloseStopKeepsInv` | src/orders/warehouse.service.ts:3213-3254 | Closing a stop and completing a fully unloaded trip keeps the invariant and every plan |
| `ReceiptLaws.ReceiveKeepsInv` | src/orders/warehouse.service.ts:2452-3254 | A whole counted confirmation keeps the invariant when it names no outbound draft and each row is safe when reached |
| `ReceiptEffects.RowFinds` | src/orders/warehouse.service.ts:2611-2622 | A row means the live order with its id, else the first live order with its code; the lookup finds exactly that order |
| `ReceiptEffects.DraftEnters` | src/orders/warehouse.service.ts:2650-2741 | A draft of the hub enters stock with the positive total sent, else the contract's total (one when zero): received, remaining, receipt counted and expected are all that quantity, outbound is zero, the hub is the receiving one |
| `ReceiptEffects.DraftRenamed` | src/orders/warehouse.service.ts:2654-2664 | Its code becomes the upper-case code sent exactly when nobody has that code |
| `ReceiptEffects.ContractCounted` | src/orders/warehouse.service.ts:2853-2927 | A locked contract: the count is the one sent, else the one expected, else the total; none is refused; it is added to what came in, raises the total and load only beyond the contract, and its receipt records it against what was expected |
| `ReceiptEffects.CountedLeavesTrip` | src/orders/warehouse.service.ts:2916-2922 | The order leaves its trip exactly when the count leaves nothing of it there or the trip was not loaded with it |
| `ReceiptEffects.CountedAlready` | src/orders/warehouse.service.ts:2742-2760 | A receipt that exists is not counted again: the tables stay |
| `ReceiptEffects.ReceiptCorrected` | src/orders/warehouse.service.ts:2756-2828 | A super administrator's count replaces the first receipt's quantity, moves the order by the difference and sets its first line on the trip; nothing else moves |
| `ReceiptEffects.NewRowEnters` | src/orders/warehouse.service.ts:2942-3005 | A row nobody announced opens an order with the total sent (one when absent or zero), all of it in stock, with its receipt |
| `ReceiptEffects.DraftConfirmed` | src/orders/warehouse.service.ts:2452-3254 | A whole confirmation of one draft with a positive total books, receives and invoices that total at that hub |
| `ReceiptEffects.VehicleEmptied` | src/orders/warehouse.service.ts:3123-3254 | After the rows: exactly the announced lines of the hub whose orders were not saved go, and a line of a handled trip is completed exactly when no stop of the trip is open |
| `ReceiptEffects.StopsHandled` | src/orders/warehouse.service.ts:3213-3235 | The hub's stop of every handled trip is live and done (or as before, when the trips stay pending); no other stop moves |
| `ReceiptEffects.OrdersLeftBehind` | src/orders/warehouse.service.ts:3123-3184 | An order not unloaded is removed exactly when it is a draft never received under its code and on no other line, and otherwise only leaves the vehicle; every other row stays |
| `InboundService.LinkRow` | src/orders/warehouse.service.ts:3017-3112 | Linking an order to its trip and writing its receipt, statement by statement, is the specified step |
| `InboundService.RecountRow` | src/orders/warehouse.service.ts:2748-2851 | The correction of an existing receipt touches the receipt, the order and one line as specified |
| `InboundService.CountOn` | src/orders/warehouse.service.ts:2896-2927 | The assignments of a counted receipt, in order, give the counted row, whose total covers what it received |
| `InboundService.CountRow` | src/orders/warehouse.service.ts:2853-2927 | A counted row is refused when nothing was counted, and otherwise booked and linked as specified |
| `InboundService.DropRemoved` | src/orders/warehouse.service.ts:3123-3184 | Visiting removed lines one after another equals deciding all of them on the state the loop started from |
| `InboundService.ConfirmInbound` | src/orders/warehouse.service.ts:2452-3254 | The loop over the rows commits the specified receipt, or the first refused row leaves the tables untouched |
| `RequestLaws.PlanIsFitting` | src/orders/warehouse.service.ts:3663-3712 | An accepted line asks for a positive quantity of a real (non-draft) order; it fits the unreserved stock it leaves from exactly when its hub has ledger rows for it or, with no acting hub, when the bucket without a hub has the goods |
| `Requests.MergedIs` | src/orders/warehouse.service.ts:3530-3556 | The merged item of an order asks for the sum of all the request names for it (everything on offer when its only mention names nothing) and travels as the first mention does |
| `Requests.RoutesAre` | src/orders/warehouse.service.ts:3727-3766 | A dispatched line is a transfer if and only if its first item is not direct to the customer and names a hub or the mode is TRANSFER; its destination is the hub meant unless that is the acting one. A draft line is one if and only if the mode is TRANSFER or the hub meant is another |
| `Requests.DraftForetells` | src/orders/warehouse.service.ts:4107-4125 | A draft line announces the kind its dispatch writes except exactly when a customer-mode item names the hub the goods are at |
| `OutboundEffects.DraftAcceptable` | src/orders/warehouse.service.ts:4005-4105 | A draft is accepted if and only if it finds an order, the old draft may be taken up, and every order asks for a positive quantity within its hub's stock less what other trips reserve |
| `OutboundEffects.DispatchAcceptable` | src/orders/warehouse.service.ts:3568-3712 | A dispatch is accepted if and only if that holds and no order is a draft |
| `OutboundEffects.DraftHolds` | src/orders/warehouse.service.ts:4058-4170 | An accepted draft appends exactly one pending line per order with the quantity requested, the kind, destination and hub the request says, in place of the old draft's lines |
| `OutboundEffects.DraftReserves` | src/orders/operational-ledger.service.ts:193-217 | The hub a draft line leaves from has reserved that line's quantity on top of what other trips hold |
| `OutboundEffects.DraftTravels` | src/orders/warehouse.service.ts:4172-4222 | A draft stops at its origin and at every hub the request names, each once, in order, and no processed stop is reopened |
| `OutboundEffects.DispatchLoads` | src/orders/warehouse.service.ts:3663-3816 | An accepted dispatch appends exactly one moving line per order with the quantity requested, a transfer exactly when the request sends the order to another hub |
| `OutboundEffects.DispatchInvoices` | src/orders/warehouse.service.ts:3818-3848 | And one invoice per order with the same quantity and kind, on that line, storing the hub's stock after it |
| `OutboundEffects.DispatchedOrders` | src/orders/warehouse.service.ts:3714-3768 | A dispatched order moves the quantity from remaining to outbound, is done exactly when nothing remains, takes the trip code exactly when it is transferred, and leaves its hub when that is emptied; other rows stay |
| `OutboundEffects.DispatchMoves` | src/orders/operational-ledger.service.ts:149-187 | The sending hub's stock falls by the quantity requested, and the trip is loaded with it exactly when it is a transfer |
| `OutboundEffects.DispatchTravels` | src/orders/warehouse.service.ts:3853-3896 | A dispatched trip has left its origin and, when some order is meant for another hub, stops at the hubs the request names and those its orders are contracted for |
| `OutboundLaws.DispatchOneKeepsInv` | src/orders/warehouse.service.ts:3714-3848 | Dispatching a line that fits the unreserved stock it leaves from keeps the invariant; the clamp on the remaining quantity does not fire |
| `OutboundLaws.DispatchAllKeepsInv` | src/orders/warehouse.service.ts:3663-3851 | Dispatching any number of fitting lines of distinct orders keeps the invariant and leaves other plans fitting |
| `OutboundLaws.ReserveAllKeepsInv` | src/orders/warehouse.service.ts:4058-4170 | Reserving any number of fitting lines keeps the invariant |
| `OutboundLaws.DiscardKeepsInv` | src/orders/warehouse.service.ts:3962-3996 | Dropping a draft keeps the invariant and frees exactly what its own lines held |
| `OutboundLaws.ExclusionFrees` | src/orders/operational-ledger.service.ts:193-217 | Leaving one trip out can only lower a reservation total |
| `OutboundLaws.ExclusionFreesOwn` | src/orders/operational-ledger.service.ts:193-217 | The exclusion of a trip leaves out exactly what the trip's own waiting lines hold, and those on no trip |
| `OutboundLaws.RouteReaches` | src/orders/warehouse.service.ts:3853-3896 | A route leaves a live stop at its origin and at every receiving hub, never reopens a processed stop and leaves other trips alone |
| `OutboundLaws.RouteHubs` | src/orders/warehouse.service.ts:3866-3880 | The receiving hubs are the named ones other than the origin, each once |
| `RequestLaws.SaveDraftKeepsInv` | src/orders/warehouse.service.ts:4005-4225 | An accepted draft keeps the invariant if and only if every line's acting hub has ledger rows for its order and, for a line without one, the first line's hub it is written for has the goods free |
| `RequestLaws.ConfirmKeepsInv` | src/orders/warehouse.service.ts:3568-3896 | An accepted dispatch keeps the invariant if and only if every dispatching hub has ledger rows for its order and goods leaving from no hub are in the bucket without a hub |
| `RequestLaws.CancelKeepsInv` | src/orders/warehouse.service.ts:4229-4290 | Cancelling an outbound draft keeps the invariant |
| `RequestLaws.GatherAlone` | src/orders/warehouse.service.ts:3601-3613 | On states with one live row per code the gathering loop consolidates nothing and keeps every order |
| `GatherLaws.GatheredOnce` | src/orders/warehouse.service.ts:3601-3613 | Targets are the first orders of each code, in request order, each standing for all rows its code had; every code found is left with that one row and every other code keeps its rows |
| `GatherLaws.MergedRenamed` | src/orders/warehouse.service.ts:3531-3561 | The item merged over all rows of a code is the one the single row left would get, were each item named after it |
| `GatherLaws.ConfirmGathers` | src/orders/warehouse.service.ts:3601-3940 | A dispatch naming several rows of split codes is the dispatch of the rows left by folding them, each standing for its group's items |
| `GatherLaws.SaveGathers` | src/orders/warehouse.service.ts:4037-4180 | A new draft naming several rows of split codes, likewise |
| `GatherLaws.DraftReplaced` | src/orders/warehouse.service.ts:4032-4053 | Saving a draft again is dropping its lines and saving a new draft under its code; refused exactly as the dropping is |
| `OutboundService.DiscardLines` | src/orders/warehouse.service.ts:3962-3996 | The checks on a draft, by loops over lines, decide and act as specified |
| `OutboundService.GatherOrders` | src/orders/warehouse.service.ts:3601-3613 | The loop with its set of seen codes gathers the specified targets and consolidates on the way |
| `OutboundService.PlanLine` | src/orders/warehouse.service.ts:3663-3712 | The checks of one line compute the specified plan, never above what is effectively available |
| `OutboundService.PlanLines` | src/orders/warehouse.service.ts:4058-4170 | Checking each order against tables that already hold the earlier lines plans what checking all of them first would |
| `OutboundService.SaveOutboundDraft` | src/orders/warehouse.service.ts:4005-4225 | The method commits the specified draft or leaves the tables untouched |
| `OutboundService.DispatchLines` | src/orders/warehouse.service.ts:3663-3848 | The interleaved loop dispatches exactly the plans made on the state before it; the first refusal decides |
| `OutboundService.ConfirmOutbound` | src/orders/warehouse.service.ts:3568-3896 | The method commits the specified dispatch or leaves the tables untouched |
| `OutboundService.CancelOutboundDraft` | src/orders/warehouse.service.ts:4229-4290 | The method drops the draft's lines and pending stops as specified, or leaves the tables untouched |
| `RollbackLaws.PutBackAmounts` | src/orders/warehouse.service.ts:7026-7046 | The loop over a trip's invoices gives each order back exactly the quantity its rows took; no clamp fires |
| `RollbackLaws.StockTakenBack` | src/orders/warehouse.service.ts:7067-7075 | Hub stock comes back by exactly what was dispatched under the code |
| `RollbackLaws.LinesReopened` | src/orders/warehouse.service.ts:7048-7064 | Reservations grow by exactly what the trip's lines carried |
| `RollbackLaws.OrderPutBack` | src/orders/warehouse.service.ts:7026-7064 | Each live order after a roll-back: outbound down and remaining up by what was taken, total and receipts unchanged |
| `RollbackLaws.RollbackCovered` | src/orders/warehouse.service.ts:7008-7087 | Stock minus reservations is the same before and after a roll-back, at every hub, and nothing is over-allocated |
| `RollbackLaws.RollbackKeepsInv` | src/orders/warehouse.service.ts:6990-7087 | Whatever trip it names, a roll-back in the outbound branch keeps the invariant if and only if a trip with an outbound line has received and announced nothing and was dispatched by the operating hub only |
| `TripEffects.TripReopened` | src/orders/warehouse.service.ts:7048-7087 | A roll-back removes exactly the trip's live dispatch invoices (of the operating hub), makes every live line of the trip pending and its live stops (of that hub) to be done again |
| `TripEffects.LineRestored` | src/orders/warehouse.service.ts:7048-7058 | A line without a quantity gets that of the first invoice of its order taken back, or one |
| `TripEffects.OrderReturned` | src/orders/warehouse.service.ts:7026-7064 | A live order gets back the sum of its invoices taken back, is stored again when that is positive, and is off the trip |
| `TripEffects.OrderBackAtHub` | src/orders/warehouse.service.ts:7038-7040 | It is back at the hub of the last invoice taken back that names one |
| `TripEffects.ReturnedClamped` | src/orders/warehouse.service.ts:7029-7036 | On any tables at all: a roll-back that takes back more than had left leaves zero as left, and still returns all of it to the remaining quantity |
| `TripEffects.DispatchIsOutbound` | src/orders/warehouse.service.ts:6996-7008 | A trip dispatched under a new code is rolled back as an outbound one; with all its lines taken off it still is for the hub it left, and for no other |
| `TripEffects.ArrivalOutbound` | src/orders/warehouse.service.ts:6996-7008 | Goods arriving on a vehicle make its roll-back an outbound one if and only if it was one, or the hub's stop on it is of origin kind: a cancelled draft's stop comes back with its kind |
| `TripEffects.DraftCancelled` | src/orders/warehouse.service.ts:4229-4290 | An outbound draft can be cancelled if and only if it may be taken up; its lines and pending stops go and nothing else moves |
| `RoundTrip.Travelled` | src/orders/warehouse.service.ts:3568-3848 | A draft just saved can always be confirmed, with the same goods |
| `RoundTrip.RollbackUndoesConfirm` | src/orders/warehouse.service.ts:7008-7087 | Save a draft, confirm it, roll back (unscoped or by the dispatching hub): every ledger sum, reservation and cached quantity is that of the saved draft |
| `RoundTrip.ReopenedTripConfirms` | src/orders/warehouse.service.ts:7008-7087 | The re-opened trip can be confirmed again, by the same request, under the same code |
| `OutboundService.PutBackOrders` | src/orders/warehouse.service.ts:7026-7046 | The loop over the taken-back invoices is the specified fold |
| `OutboundService.ReleaseLines` | src/orders/warehouse.service.ts:7048-7064 | The loop over the trip's lines fills missing quantities and lets every order leave the trip |
| `OutboundService.RollbackOutboundTrip` | src/orders/warehouse.service.ts:7008-7087 | The outbound branch on the tables leaves the specified state |
| `Runs.StepKeepsInv` | src/orders/warehouse.service.ts:1357-7087 | Every admissible call keeps the invariant, and every refused call is admissible |
| `Runs.RunKeepsInv` | src/orders/warehouse.service.ts:1357-7087 | Every state any run of admissible calls can reach satisfies the invariant |
| `Runs.CachesMatchLedger` | src/orders/warehouse.service.ts:3714-3725 | On every run the cached quantities of every order are its ledger sums, remaining is their difference, drafts have none, and the total covers what came in |
| `Runs.NeverOverAllocated` | src/orders/operational-ledger.service.ts:193-217 | On every run the quantity reserved at a hub lies between zero and the hub's stock |
| `Runs.HubsPartitionRemaining` | src/orders/operational-ledger.service.ts:149-165 | On every run the hub stocks of an order sum to its remaining quantity and each lies between zero and it |
| `Runs.ReservedOrDispatched` | src/orders/warehouse.service.ts:3962-3996 | On every run no code with a planned line has a live invoice |
| `Runs.ConsolidationIdle` | src/orders/warehouse.service.ts:3403-3414 | On every run consolidation finds nothing to merge |
| `Runs.DispatchUnclamped` | src/orders/warehouse.service.ts:3714-3719 | No accepted dispatch takes more than its hub or its order has, so neither clamp changes a value |
| `Runs.DraftsStayHome` | src/orders/warehouse.service.ts:3615-3624 | No draft order can be reserved or dispatched |
| `Gaps.OverAllocatedWithoutRows` | src/orders/warehouse.service.ts:4063-4077 | Concrete: a hub without rows of an order is offered its whole cached quantity, and the draft breaks the invariant |
| `Gaps.NegativeTotalAccepted` | src/orders/warehouse.service.ts:2964-2973 | Concrete: an unannounced row with total -3 is stored although no invoice carries it |
| `Gaps.CycleIsRun` | src/orders/warehouse.service.ts:1357-7087 | Concrete: receive, plan, send and re-open is an admissible run, each step accepted, and ends with the books of the plan |
| `Gaps.MovesIsRun` | src/orders/warehouse.service.ts:2853-3112 | Concrete: five received, three transferred, four counted where three were on the way; admissible, fair and accepted, with three units on the trip in between and one unit of overage at the end |
| `ConsolidationLaws.OneRowLeft` | src/orders/warehouse.service.ts:3403-3528 | After consolidation the code has one live row, and consolidating again changes nothing |
| `ConsolidationLaws.NothingDangles` | src/orders/warehouse.service.ts:3507-3524 | No live line or invoice is left on a removed order, no invoice on a merged-away line |
| `ConsolidationLaws.LedgerConserved` | src/orders/warehouse.service.ts:3518-3522 | Every ledger aggregate that looks at neither order nor line (any type, hub, trip) sums over the group to the primary row's; other orders keep theirs |
| `ConsolidationLaws.ActiveColumns` | src/orders/warehouse.service.ts:3416-3449 | The cached columns over the non-draft rows are the ledger sums over all rows of the group |
| `ConsolidationLaws.StaysSynced` | src/orders/warehouse.service.ts:3403-3528 | If every row agreed with the ledger, every row does afterwards |
| `ConsolidationEffects.RowsMerged` | src/orders/warehouse.service.ts:3416-3459 | The primary row gets the sums of the stored rows (of all when none is stored) and the first row's destination |
| `ConsolidationEffects.RowsLeft` | src/orders/warehouse.service.ts:3460-3534 | It takes the first stored row's status exactly when its own is a draft's and keeps the rest; the other rows of the code are removed, every other order stays |
| `ConsolidationEffects.RowsRepointed` | src/orders/warehouse.service.ts:3477-3524 | Every invoice and live line of the group is the primary row's; a line goes, and its invoices lose it, exactly when an earlier line of the group is on its trip |
| `LineLaws.MergeDrifts` | src/orders/warehouse.service.ts:3477-3506 | Merging lines row by row changes the allocated quantity of any choice of lines by exactly its drift: what merged-away lines gain by counting as their keeper instead of as themselves |
| `LineLaws.LinesDrift` | src/orders/warehouse.service.ts:3477-3517 | After consolidation the primary row holds the group's allocated quantity of any choice of lines, up to that drift |
| `LineLaws.TogetherStays` | src/orders/warehouse.service.ts:3477-3506 | A choice of lines that splits no merge does not drift |
| `LineLaws.TripAllocationConserved` | src/orders/warehouse.service.ts:3477-3517 | The allocated quantity per trip code is conserved, whatever the lines are |
| `LineLaws.ReservationsDrift` | src/orders/warehouse.service.ts:3477-3517 | Reservations of the group add up, hub by hub, plus exactly the drift of the lines planned there |
| `LineLaws.ReservationsConserved` | src/orders/warehouse.service.ts:3477-3517 | Hence they add up when merged lines share status, type and origin |
| `FindOneLaws.PendingDrifts` | src/orders/orders.service.ts:443-464 | Consolidation moves the pending quantity findOne shows by exactly the drift of the lines awaiting a receipt |
| `FindOneLaws.SamePendingTrips` | src/orders/orders.service.ts:443-464 | The pending trips findOne shows are unchanged if and only if, on each trip, the first line awaits a receipt whenever a line merged into it does |
| `FindOneLaws.ConsolidationSeen` | src/orders/orders.service.ts:384-467 | findOne(code) answers the same before and after consolidation if and only if the rows readers and writers count carry the same columns, the awaiting lines do not drift and the first lines stand in |
| `FindOneLaws.ConsolidationInvisible` | src/orders/orders.service.ts:384-467 | With no status that only readers take for a draft, it answers the same if and only if the awaiting lines do not drift and the first lines stand in |
| `FindOneLaws.MixedLinesShow` | src/orders/orders.service.ts:443-464 | Concrete: merging an inbound with an outbound line raises the pending quantity from 2 to 5 |
| `FindOneLaws.MisspeltDraftShows` | src/orders/orders.service.ts:404-430 | Concrete: a row with status "draft" in lower case is a draft to readers only, and consolidation raises the total they see from 5 to 10 |
| `FindOneLaws.FoundExactly` | src/orders/orders.service.ts:370-384 | findOne(code) answers if and only if the code is not empty and a live row carries it; otherwise it is not found |
| `FindOneLaws.ReadersTakeForDraft` | src/orders/orders.service.ts:404-430 | Readers take a status for a draft's exactly when it spells DRAFT, PENDING or WAITING in any case |
| `ConsolidateService.GatherLines` | src/orders/warehouse.service.ts:3477-3506 | The loop with its map from trip codes gathers quantities on the first line of each trip and notes exactly the duplicates |
| `ConsolidateService.ConsolidateSiblings` | src/orders/warehouse.service.ts:3403-3528 | The method on the tables leaves the specified state |
| `LedgerService.FindOrder` | src/orders/orders.service.ts:384-467 | The overwritten first row and the pending loop answer as specified |
| `RunningBalance.ClosedForm` | src/orders/warehouse.service.ts:7690-7702 | Every balance is its signed prefix sum minus the least prefix sum so far (zero included) |
| `RunningBalance.LastBalance` | src/orders/warehouse.service.ts:7690-7730 | The last balance is the remaining quantity if and only if the adjustments cancel the deepest deficit |
| `RunningBalance.LastBalanceUnadjusted` | src/orders/warehouse.service.ts:7690-7730 | With adjustments of zero: if and only if no prefix is negative |
| `RunningBalance.RewriteBalances` | src/orders/warehouse.service.ts:7690-7702 | The loop stores the closed form in every active row and leaves the others alone |
| `RunningBalance.RewrittenStores` | src/orders/warehouse.service.ts:7690-7702 | After the rewrite every active row stores its balance in the rewritten ledger, and rewriting again changes nothing |
| `RunningBalance.OrderTransactions` | src/orders/warehouse.service.ts:7848-7890 | The listing shows each row of the group once, in order, with the balance an edit would store, and none for deleted rows; it shows what is stored if and only if every active row stores its balance |
| `AdminLaws.EditReflects` | src/orders/warehouse.service.ts:7294-7338 | After an accepted edit receipts cover dispatches, and every row of the code has total and inbound equal to the live receipts, outbound to the live dispatches, remaining to their difference, and exactly the status those numbers mean |
| `AdminLaws.EditAcceptable` | src/orders/warehouse.service.ts:7217-7310 | An edit is accepted if and only if the invoice is there to be edited, its order is live, the quantity is positive and receipts still cover dispatches |
| `AdminLaws.EditTables` | src/orders/warehouse.service.ts:7659-7720 | Delete and restore flip one invoice; a quantity edit changes that invoice, gives exactly the code's live lines on its trip the new quantity, and moves only stored balances of the code besides |
| `AdminLaws.OtherCodesUntouched` | src/orders/warehouse.service.ts:7279-7338 | An edit leaves the sums and rows of every other code as they were |
| `AdminLaws.EditsKeep` | src/orders/warehouse.service.ts:7217-7808 | Over any sequence of edits a solvent code stays solvent and a reflecting one reflecting |
| `AdminLaws.EditedOnceReflects` | src/orders/warehouse.service.ts:7217-7808 | One accepted edit anywhere in the sequence makes the code reflect its ledger, whatever was cached before |
| `AdminLaws.EditStores` | src/orders/warehouse.service.ts:7690-7702 | After an accepted quantity edit every active row of the code stores its balance, so the listing shows what is stored |
| `AdminLaws.EditedBalance` | src/orders/warehouse.service.ts:7659-7740 | After a quantity edit the balance stored in the code's last active row is the cached remaining quantity if and only if no prefix is negative |
| `AdminLaws.RestoreUndoesDelete` | src/orders/warehouse.service.ts:7462-7519 | Restoring what was just deleted is the identity if and only if the code was in sync and solvent |
| `LedgerService.SyncSiblings` | src/orders/warehouse.service.ts:7328-7338 | The loop makes every row of the code say the live receipts, dispatches, their difference and the status they mean, and touches no other row |
| `LedgerService.EditTransaction` | src/orders/warehouse.service.ts:7217-7808 | Delete, restore and quantity edit commit the specified state or leave the tables untouched |
| `ReconcileLaws.ReconcileTwice` | src/orders/order-activity-log.service.ts:313-406 | Reconciling twice is reconciling once |
| `ReconcileLaws.ReconcileMatches` | src/orders/order-activity-log.service.ts:347-406 | For a code with one live row, from any cached values: the row matches the ledger afterwards if and only if an invoice exists and receipts cover dispatches |
| `TripEffects.CodeReconciled` | src/orders/order-activity-log.service.ts:335-406 | A reconciled row has the ledger's sums, a total of what came in plus everything pending, and the status they mean; without an invoice, or for another code, it stays |
| `TripEffects.InboundCancellable` | src/orders/warehouse.service.ts:4303-4320 | An inbound draft can be cancelled if and only if a stop of it (at the user's hub) or a line is pending |
| `TripEffects.AnnouncementGone` | src/orders/warehouse.service.ts:4331-4362 | Its pending lines and pending stops go, its invoices stay |
| `TripEffects.AnnouncedOrderGone` | src/orders/warehouse.service.ts:4350-4357 | An order in status DRAFT or PENDING that ever had a row on it is removed |
| `TripEffects.OtherOrdersStay` | src/orders/warehouse.service.ts:4318-4382 | An order that is not removed stays as it was when every cancelled line of its code belongs to an order that was only announced |
| `TripEffects.OtherOrdersLive` | src/orders/warehouse.service.ts:4318-4382 | An order that is more than planned, or never had a row on it, is not removed |
| `TripEffects.StoredOrderReconciled` | src/orders/warehouse.service.ts:4364-4382 | A stored order with a cancelled line is reconciled against the lines that are left |
| `ReconcileLaws.DraftsAnnounce` | src/orders/warehouse.service.ts:1357-1650 | Draft arrivals on one vehicle, one by one, change nothing but totals, weights, missing destinations, new draft rows and the vehicle's own pending lines |
| `ReconcileLaws.DraftBatch` | src/orders/warehouse.service.ts:1657-2040 | An all-draft vehicle booked as a batch leaves exactly the tables its items leave one by one, stored balances included |
| `ReconcileLaws.DraftBatchAnnounces` | src/orders/warehouse.service.ts:1867-1886 | Hence an all-draft batch only announces |
| `ReconcileLaws.CancelRestores` | src/orders/warehouse.service.ts:4318-4380 | Announcing an all-draft vehicle and cancelling it restores a stored order's quantities if and only if they were the ledger sums and the total was receipts plus everything PENDING |
| `ReconcileLaws.CancelledBatchRestores` | src/orders/warehouse.service.ts:4294-4382 | The same for an all-draft vehicle booked as a batch and cancelled |
| `ReconcileLaws.OutboundPlanInflates` | src/orders/order-activity-log.service.ts:380-404 | Hence an order all in stock with a planned outbound line comes back with a larger total |
| `LedgerService.ReconcileOrder` | src/orders/order-activity-log.service.ts:335-406 | The assignments to the first row leave the specified state |
| `LedgerService.CancelInboundDraft` | src/orders/warehouse.service.ts:4294-4382 | The method commits the specified cancellation or leaves the tables untouched |
| `Transfers.ReceiptMovesGoods` | src/orders/warehouse.service.ts:2853-2927 | A locked receipt off a loaded trip: the hub gains the counted quantity, the trip loses the smaller of counted and in transit, the difference is the positive part of the discrepancy |
| `Transfers.GoodsConserved` | src/orders/operational-ledger.service.ts:149-187 | For every honest history of an order, hub stock plus goods on trips plus deliveries equals intake plus recorded overage |
| `TransferRuns.DispatchHonest` | src/orders/warehouse.service.ts:3800-3848 | Dispatch loads a trip only before anything is received on it |
| `TransferRuns.ArrivalHonest` | src/orders/warehouse.service.ts:1587-1610 | An arrival keeps an order's history honest if and only if goods booked on the order off a vehicle loaded with it are exactly what is still on it |
| `TransferRuns.RecountHonest` | src/orders/warehouse.service.ts:2756-2828 | A corrected receipt keeps the history honest if and only if it came off no loaded trip or keeps its quantity, because its discrepancy is not corrected with it |
| `TransferRuns.RowHonest` | src/orders/warehouse.service.ts:2853-3112 | A counted row, by any user, keeps an order's history honest if and only if it is fair to it: no real correction off a loaded trip, and an expectation equal to what is on the way when a locked contract is counted off one |
| `TransferRuns.ReopenHonest` | src/orders/warehouse.service.ts:7067-7075 | Taking a trip's dispatch rows back leaves an order's history honest while nothing of that order was received on the trip |
| `TransferRuns.RunConservesGoods` | src/orders/warehouse.service.ts:2853-2927 | On every run that is fair to one order, whatever it does to others, that order's hub stock, goods on trips and deliveries add up to its intake plus the recorded overage |
| `Board.BatchAllocations` | src/orders/operational-ledger.service.ts:255-286 | The batched reservation map agrees with the single-order query, a missing entry meaning zero |
| `Board.DraftRows` | src/orders/warehouse.service.ts:4945-4994 | The loop over a draft's lines shows each order once, with its hub view plus all of its own lines |
| `Board.OfferIsEffective` | src/orders/warehouse.service.ts:4962-4971 | What the board offers is the hub's stock minus what other trips reserve |
| `Board.BoardIsExact` | src/orders/warehouse.service.ts:4071-4105 | Re-saving a draft is accepted if and only if every order asks, all its items added up, for a positive quantity the board offers |
| `HubStatus.ClassesAgree` | src/orders/operational-ledger.service.ts:319-329 | For an order handled at one hub the derived status is waiting, stored or dispatched exactly as the stored one is |
| `HubStatus.RowLocal` | src/orders/warehouse.service.ts:2611-3112 | A counted row leaves an order local when it finds another order, is counted at the order's hub, or corrects a receipt without taking the last unit away or bringing a first one back |
| `HubStatus.RunClassesAgree` | src/orders/operational-ledger.service.ts:319-329 | On every run that receives, counts and delivers an order at one hub, whatever it does to other orders, the derived status falls in the class of the stored one |
| `HubStatus.DraftSeen` | src/orders/operational-ledger.service.ts:319-329 | A draft is shown as one exactly at the hub that holds it, else the one it came from |
| `HubStatus.TransferSeen` | src/orders/operational-ledger.service.ts:319-329 | After a transfer the sending hub shows the order as stored while it has some left and as gone otherwise; the receiving hub, which had none, shows it as coming in exactly when the order is contracted for it or for no hub |
| `HubStatus.SenderSees` | src/orders/operational-ledger.service.ts:319-329 | A hub that sent an order out, has none left and awaits none is shown it as gone, whatever its status |
| `HubStatus.BystanderSees` | src/orders/operational-ledger.service.ts:319-329 | A hub that has none of an order, sent none and awaits none is shown it as gone exactly when nothing remains, all has left or it is stored elsewhere, and otherwise its own status |
| `HubStatus.NewOrderAgrees` | src/orders/warehouse.service.ts:1392-1393 | For new goods the classes agree if and only if the client's initial status is a draft or stored one |
| `Shares.ShareBounds` | src/orders/warehouse.service.ts:185-194 | A share lies between zero and the total plus half a thousandth |
| `Shares.ShareMonotone` | src/orders/warehouse.service.ts:185-194 | Below the full quantity a larger quantity never gets a smaller share |
| `Shares.ShareWithinTotal` | src/orders/warehouse.service.ts:185-194 | A partial share stays within the total if and only if rounding does not carry it past the total's last thousandth |
| `Shares.NoShareAbove` | src/orders/warehouse.service.ts:185-194 | No partial share of any quantity exceeds the total if and only if the total ends in at most half a thousandth |
| `Shares.ShareAboveTotal` | src/orders/warehouse.service.ts:185-194 | Concrete: a finer total is exceeded by a partial share |
| `Shares.SharesAddUp` | src/orders/warehouse.service.ts:185-194 | n partial quantities that make up the whole have shares summing to the total within n half-thousandths |
| `Codes.Initials` | src/orders/order-code.service.ts:29-46 | Initials are one to six characters of A-Z and 0-9, for every name |
| `Codes.InitialsAre` | src/orders/order-code.service.ts:42-45 | The k-th initial is the capital of the first letter of the k-th word, for the first six words; no word gives OP |
| `Codes.WordsCover` | src/orders/order-code.service.ts:42-42 | The words hold every character but the spaces, in order |
| `Codes.CleanedAdds` | src/orders/order-code.service.ts:33-39 | Cleaning keeps letters, digits and spaces, writes the barred d plainly and drops everything else |
| `Codes.PaddedReads` | src/orders/order-code.service.ts:140-144 | Padding to three digits is undone by reading the number |
| `Codes.OrderReads` | src/orders/order-code.service.ts:146-146 | An order code reads back to hub prefix, initials, period and number, even when the prefix contains dashes |
| `Codes.InvoiceReads` | src/orders/operational-ledger.service.ts:112-112 | An invoice code reads back to type, hub code, period and number, even when the hub code contains dashes |
| `Codes.InvoiceTells` | src/orders/operational-ledger.service.ts:31-36 | An invoice code tells its invoice's type, hub, period and number |
| `Codes.NumbersConsecutive` | src/orders/order-code.service.ts:128-140 | Over any interleaving, each number is one more than the counter's start and all numbers drawn from that counter before |
| `Codes.ReservedKeysApart` | src/orders/operational-ledger.service.ts:84-88 | Invoice counters never share a key with an operator |
| `Codes.CodesNeverRepeat` | src/orders/order-code.service.ts:125-146 | Over any interleaving of order and invoice allocations, from any counters, no two codes of one sort are equal |
| `Codes.CounterTable.Next` | src/orders/order-code.service.ts:128-140 | The upsert returns the next number of its key and moves no other counter |
| `Codes.CounterTable.GenerateOrderCode` | src/orders/order-code.service.ts:125-147 | The method formats the next number of the operator's key |
| `Codes.CounterTable.GenerateInvoiceCode` | src/orders/operational-ledger.service.ts:89-113 | The method formats the next number of the reserved key |
| `Tables.Database.UpsertTripStop` | src/orders/operational-ledger.service.ts:119-143 | A stop is created or revived; a completed one is never downgraded; type and position are kept |

## Left out

- BatchLaws.BatchRefinesOneByOne: the running balance stored with each invoice is compared nowhere, because the batch stores the order's final balance with all its receipts and the single intake the balance at that moment.
- ReceiptLaws.ReceiveKeepsInv: sufficient for the call as a whole; the exact condition is proved row by row (RowKeepsInv), and a later row of one request may re-count back what an earlier one took away, so no row-by-row condition is necessary for the whole.
- Codes.CodesNeverRepeat: the derivation of a hub's prefix from its code is a parameter, assumed to differ between hubs; names are taken in Unicode normal form D; the period comes from the clock.
- Shares.SharesAddUp: weights are real numbers; binary floating point is not modelled.
- The KEEP edit of an already stored order in `confirmInbound`, and the inbound branch of `rollbackTrip` (a run of the model contains no such step).
- Order codes that read as numbers, which `findOne` takes for ids first.
- `appendOrderToTrip`, `appendStoredOrdersToTrip` and `updateTripOrderDestination`, which write trip or ledger rows without the matching cached updates.
- `OrdersService.create`, which seeds quantities without a ledger row.
- Weights and volumes of trip lines and invoices, names, addresses, notes, plates, activity logs and notifications.
- Permission checks, sessions, caches and every query that only lists or filters.
- Concurrency between transactions (each call is atomic here) and the 32-bit range of the integer columns.
- The trip status WAITING, which no modelled call writes.
