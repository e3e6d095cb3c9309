# Warehouse billing and stock: a verified model

This project models the core of a warehouse back office and proves what its parts promise each other. It covers four components.

**Container billing.** A container's ledger events are swept day by day into pallet-days with a grace window after the first arrival, run-length coded into segments, and charged; rounded money is split over the segments, and pallets over containers, by largest remainder. `Sums`, `LargestRemainder` and `BillingMoney` hold the arithmetic, `Lifecycle` the simple definitions, `StorageSweep`, `StorageSegments`, `PalletRelease` and `ContainerStorage` the algorithms, `PalletMovement`, `TransferReleases`, `MovementCheck` and `RecordedLedgers` the check made at finalization, `OutboundPallets`, `OutboundConfirmation`, `InboundFee` and `ReceiptCharges` the other charges. `OutboundPlaces` and `PreviewAmounts` say place by place and lot by lot what is billed. `PreviewSources` puts the preview together from all its sources, and `PreviewPeriods` compares the preview of a period with those of its two parts.

**Stock ledger and deletion.** Every change appends a ledger row and moves a cached balance and a cached container status. A receipt is deleted by rolling back a computed set of documents, newest row first, and erasing both the rows and the reversals. `StockLedger` and `StockOperations` hold the ledger and the operations on it, `DeletionRollback`, `DeletionErase` and `InboundDeletion` the deletion with dependencies, `ReceiptDeletion`, `BatchStock` and `BatchDeletion` the deletion of receipts on their own, `StockRuns` and `SourceStability` whole runs. `PostedStock`, `AdjustedStock` and `DeletionScope` say row by row and field by field what is put into the ledger and what a deletion takes out of it.

**Invoices and the freeze.** `SourceFreeze` is the rule that keeps history before the end of a live invoice unchanged; `SourceStability` and `FeeStability` show that it makes recomputation stable. `InvoiceLifecycle` holds the invoices, `InvoicePoints` what they bill, day by day and place by place, `InvoiceLines` what becomes of their lines, `InvoiceRaces` sessions that work on them at the same time, `InvoiceTotals` the way from a preview to the stored total and its breakdown, `GeneratedInvoices` what follows for an invoice that nobody has edited.

**Bulk import.** `BulkImport` holds the batch, its lease and its records, `BulkImportRuns` the workers that commit it, with losses and takeovers, `BulkImportRetry` the result that interruptions leave no mark, `BulkImportClosing` what a closed batch still records, `BatchOutcomes` what its status says about them. `ContainerMetadata` holds the type and handling mode that all receipts of a container share.

Units: pallets and quantities of the billing engine are whole ten-thousandths, rates ten-thousandths of a cent, money whole cents; a daily rate is a weekly one over seven, as an exact fraction. Days are day numbers. Texts (container numbers, sections, document keys) are normalized and otherwise opaque. A transaction is one step; `now` and the results of other services are parameters.

## What the model found

- The calculation would drop the pallets of a shipped line with neither an allocation nor a quantity, and of no other (`OutboundPallets.PalletsAreConserved`); confirming a shipment never stores such a line, so every pallet and every piece of a confirmed line in range is billed (`OutboundConfirmation.ConfirmedAreBilledWhole`).
- Billing a period in two parts changes nothing but the rounding of storage, by a cent a container at most (`PreviewPeriods.PreviewsAddUp`). The rounding of gross and of discount never adds up to two cents, because grace days come first (`ContainerStorage.GraceComesFirst`).
- The clamp of pallets at zero is the only way a balance can leave the ledger (`StockLedger.AppendAgreesExactlyWhen`); no operation modelled here reaches it.
- The movement check at finalization can fail for an unedited invoice, exactly when some SKU is short at one place in scope and stocked at another when the period starts (`RecordedLedgers.CheckPassesExactlyWhen`): a transfer of a pallet between the two then counts as neither received nor released. No row has to take what is not there for that: it is enough that a shipment is dated back before the transfer that brought its stock (`RecordedLedgers.BackdatedShipmentFails`).
- The status of an invoice is checked before the transaction that writes it. A stale payment can revive a void invoice next to its replacement, and a stale line can change a finalized one (`InvoiceRaces`). When a write does this is stated exactly in `InvoiceLifecycle.DisjointExactlyWhen` and `InvoiceLifecycle.SettledExactlyWhen`, and for whole interleavings in `InvoiceRaces.PlaysAreDisjointExactlyWhen` and `InvoiceRaces.PlaysSettleExactlyWhen`.
- A closed batch can lack the record of a receipt that was created for it, or call it failed: after a takeover, or a failure and a new preview, with other documents (`BulkImportRuns.TakeoverHidesReceipt`), and even with the same documents when a worker whose insertion failed closes the batch after another one succeeded (`BulkImportClosing.StaleFailureHidesReceipt`). `BulkImportClosing.ClosingRecordsAllExactlyWhen` says exactly when closing does this.
- An adjustment or a transfer without a date is stored without one, and the lifecycle query never sees it; the freeze looks at today for it (`SourceStability.UndatedIsGuardedToday`, `SourceStability.UndatedIsInvisible`).
- Goods that come without a container have no known type when their rows are posted, so an invoice for any one type freezes them, although the receipt names its own (`PostedStock.ConfirmedExactlyWhen`).
- Confirming the first receipt of a container that already has a record may change the record's type (`ContainerMetadata.FirstReceiptRetypes`), and no billing check guards that change (`ContainerMetadata.OnlyFirstReceiptRetypes` says exactly when it happens). Reclassifying a draft that has the new type already changes the type of the confirmed receipts of its container, even when billing refuses such a change: billing is asked about the draft (`ContainerMetadata.RetypesUnaskedExactlyWhen`).

## Model

| member | source | states |
|---|---|---|
| LargestRemainder.SharesAreFair | backend/internal/service/billing_preview_store.go:1253-1301 | Shares under a fair target add up to it; each is the floor of its exact quota or one more, and a zero quota gets nothing, so the top-up ends within one pass |
| LargestRemainder.ShareAt | backend/internal/service/billing_preview_store.go:840-887 | A share is the floor, plus one exactly for the first leftover places in the ranking by remainder |
| LargestRemainder.LargerQuotaFirst | backend/internal/service/billing_preview_store.go:854-885 | A larger quota never gets a smaller share |
| LargestRemainder.RemaindersDecide | backend/internal/service/billing_preview_store.go:861-885 | A unit beyond the floors never goes to a quota before it goes to one with a larger remainder, or with the same remainder at an earlier place |
| LargestRemainder.RankedProperties | backend/internal/service/billing_preview_store.go:863-876 | The ranking is a permutation, remainders descending, ties in the original order |
| BillingMoney.SlackIsHarmless | backend/internal/service/billing_preview_store.go:1273 | Adding a billionth before the floor changes no share if and only if quotas are coarser than a billionth, as storage cents are |
| BillingMoney.RoundIsNearest | backend/internal/service/billing_invoice_store.go:1496-1498 | Rounding gives the one whole number of cents within half a cent, halves going up |
| BillingMoney.RoundedTotalIsFair | backend/internal/service/billing_preview_store.go:1229-1249 | A rounded total lies between the sum of the floors and the sum of the ceilings, so it can be shared out |
| BillingMoney.RoundedDifferenceIsFair | backend/internal/service/billing_preview_store.go:1233-1249 | So does the difference of the rounded gross and the rounded discount, for the net amounts |
| BillingMoney.RoundedPartsDrift | backend/internal/service/billing_preview_store.go:1077-1091 | Rounding two parts separately moves their total by at most one cent |
| StorageSegments.CodingIsUnique | backend/internal/service/billing_preview_store.go:1189-1226 | A daily series has only one coding into maximal runs |
| StorageSegments.BuildRuns | backend/internal/service/billing_preview_store.go:1189-1226 | The loop over the calendar codes exactly the days with pallets into maximal runs, and the runs hold all pallet-days and free pallet-days |
| StorageSegments.FloorShares | backend/internal/service/billing_preview_store.go:1262-1281 | The floors, remainders and cents already given, computed in place with the slack |
| StorageSegments.TopUpPasses | backend/internal/service/billing_preview_store.go:1289-1299 | The passes over the ranking hand out exactly what is missing, one cent at a time |
| StorageSegments.AllocateCurrency | backend/internal/service/billing_preview_store.go:1253-1301 | The in-place loops compute the largest-remainder shares of the target |
| StorageSegments.TargetsAreFair | backend/internal/service/billing_preview_store.go:1228-1249 | The rounded discount and the rounded net amount of a row are fair targets for its segments |
| StorageSegments.SegmentsReconcile | backend/internal/service/billing_preview_store.go:1228-1251 | Segment gross, discount and net add up to the row's rounded amounts; each discount and net is floor or floor plus one, and a zero raw amount gets nothing |
| StorageSegments.ChargeSegments | backend/internal/service/billing_preview_store.go:1228-1251 | Fills the money of measured segments so that it reconciles |
| StorageSegments.BuildStorageSegments | backend/internal/service/billing_preview_store.go:1189-1251 | The segments are the maximal runs of the series with money that adds up to the row |
| Lifecycle.FullPalletsAreBacked | backend/internal/service/billing_preview_store.go:1341-1351 | The number of full pallets is the largest one that the quantity really fills, slack notwithstanding |
| Lifecycle.BillableIsBacked | backend/internal/service/billing_preview_store.go:1341-1351 | Billed pallets never exceed the physical ones nor, under the fill rule, what the quantity backs |
| Lifecycle.BillableIsMost | backend/internal/service/billing_preview_store.go:1341-1351 | What is billed is the largest number that is there and, under the fill rule, that the quantity fills |
| Lifecycle.FirstPositiveIsEarliest | backend/internal/service/billing_preview_store.go:935-950 | The grace window starts with the earliest event that adds pallets |
| Lifecycle.BilledAfterArrival | backend/internal/service/billing_preview_store.go:935-955 | Nothing is billed before the first positive event |
| Lifecycle.FreeDaysFollowArrival | backend/internal/service/billing_preview_store.go:951-955 | Free pallets fall on the grace days that start with the first positive event, and on no others |
| Lifecycle.FreeExactlyWhen | backend/internal/service/billing_preview_store.go:1056-1059 | A day is free as a whole if an event has brought pallets and the day is within graceDays of the earliest such event, and otherwise not at all |
| Lifecycle.TotalsKnown | backend/internal/service/billing_preview_store.go:489-519 | Leaving later events out of the query does not change the totals of a day |
| Lifecycle.PeriodKnown | backend/internal/service/billing_preview_store.go:489-519 | Nor the pallet-days and free pallet-days of a period that ends before them |
| Lifecycle.PeriodsAddUp | backend/internal/service/billing_preview_store.go:1039-1063 | Splitting a period adds pallet-days and free pallet-days exactly, and the first closing balance is the second opening balance |
| PreviewAmounts.WarehouseTells | backend/internal/service/billing_preview_store.go:987-1029 | Billing one warehouse is billing what happened there, as if nothing else had happened |
| StorageSweep.RunningBalances.Apply | backend/internal/service/billing_preview_store.go:957-984 | Applying an event keeps the running balances equal to the sums of the events so far |
| StorageSweep.RunningBalances.ApplyUpTo | backend/internal/service/billing_preview_store.go:1030-1044 | The pointer stops at the first event after the day, with all earlier ones applied |
| StorageSweep.RunningBalances.BillableBalance | backend/internal/service/billing_preview_store.go:987-1012 | The loop over positions in any order totals the billable pallets |
| StorageSweep.RunningBalances.InventoryBalance | backend/internal/service/billing_preview_store.go:1013-1029 | The loop over positions totals the physical pallets |
| StorageSweep.TotalsShown | backend/internal/service/billing_preview_store.go:987-1029 | What the touched positions show is the simple definition of the container's day totals |
| StorageSweep.FindFirstPositive | backend/internal/service/billing_preview_store.go:935-950 | In a sorted list the first positive event is the earliest |
| StorageSweep.SweepPeriod | backend/internal/service/billing_preview_store.go:925-1063 | The one-pointer sweep equals the simple definition: opening, closing, every day's billable and free pallets, their sums and their maximum |
| PalletRelease.CollectReleases | backend/internal/service/billing_preview_store.go:1141-1166 | The collecting loop records shipments by date and transfers by document line |
| PalletRelease.NetTransfers | backend/internal/service/billing_preview_store.go:1168-1172 | Netting adds the outgoing surplus of every transfer line to its date |
| PalletRelease.ListByDate | backend/internal/service/billing_preview_store.go:1174-1187 | The list says what the map says, by ascending date |
| PalletRelease.BuildPalletReleases | backend/internal/service/billing_preview_store.go:1136-1187 | Releases by ascending date, positive, equal on each date to shipments plus net transfers out, none left out |
| PalletMovement.ReleasesCoverDecreases | backend/internal/service/billing_preview_store.go:1136-1187 | Everything released is at least what the period takes out |
| PalletMovement.ReleasedExactly | backend/internal/service/billing_preview_store.go:1136-1187 | The net change of a period is what was received less what was released, to the pallet |
| PalletMovement.ReleasedOnDay | backend/internal/service/billing_preview_store.go:1136-1187 | What is released on a day is what a period of that day alone releases |
| PalletMovement.BalancesMove | backend/internal/service/billing_preview_store.go:1030-1047 | Scoped balances move by the net change of the period |
| PalletMovement.MovementBound | backend/internal/service/billing_invoice_store.go:1227-1258 | Closing plus released minus opening is at least minus the opening shortage, whatever interleaves |
| PalletMovement.MovementIsReceived | backend/internal/service/billing_invoice_store.go:1227-1258 | Closing plus released minus opening is what was received, corrected by the shortages at both ends |
| TransferReleases.TransferReleasesItsLoss | backend/internal/service/billing_preview_store.go:1152-1172 | Wherever its two sides stand in the list, a transfer line with a key of its own adds to the releases of its day and of the period exactly what leaves the scope and does not arrive in it; inside the scope nothing when as much arrives as left |
| MovementCheck.PartsMovement | backend/internal/service/billing_preview_store.go:1136-1187 | Movements of positions that no transfer line connects add up |
| MovementCheck.SafeOpening | backend/internal/service/billing_invoice_store.go:1227-1258 | When transfers keep their SKU, and no SKU is short and stocked in scope at the start, the movement is never negative |
| RecordedLedgers.MixedOpeningFails | backend/internal/service/inventory_ledger_store.go:454-521 | Whatever proper rows are dated before a period, stock recorded in advance makes them part of a ledger in which no row ever takes what is not there; if they leave a SKU short at one place in scope and stocked at another, moving one pallet between the two then gives a movement of minus one pallet |
| RecordedLedgers.CheckPassesExactlyWhen | backend/internal/service/billing_invoice_store.go:1227-1258 | Given what is dated before a period, the check passes on every ledger that can be recorded with it, no row ever taking what is not there, if and only if no SKU is short at one place in scope and stocked at another at the start |
| RecordedLedgers.BackdatedShipmentFails | backend/internal/service/billing_invoice_store.go:1227-1258 | A pallet is received, moved and shipped from its new place, each row from stock that is there, with the shipment dated back before the move: the check fails for the period of the move |
| RecordedLedgers.MovementKnown | backend/internal/service/billing_preview_store.go:477-523 | Rows dated after a period do not show in its movement |
| ContainerStorage.SortedTotals | backend/internal/service/billing_preview_store.go:917-923 | Sorting by date and id changes no total |
| ContainerStorage.SortedReleaseTotals | backend/internal/service/billing_preview_store.go:917-923 | Sorting changes no release total |
| ContainerStorage.CalculateStorageRow | backend/internal/service/billing_preview_store.go:889-1122 | A row has the counts of the simple definition, money rounded once and again exact on the segments, and every release; there is no row exactly when nothing happened |
| ContainerStorage.RowPassesCheck | backend/internal/service/billing_invoice_store.go:1227-1258 | A calculated row passes the movement check unless a SKU is short and stocked in scope at the start |
| ContainerStorage.RowIsDetermined | backend/internal/service/billing_preview_store.go:889-1122 | Everything on a row, with its releases and segments, follows from the events and the terms: two rows of the same events are equal |
| ContainerStorage.CutMovesOneCent | backend/internal/service/billing_preview_store.go:1077-1091 | Cutting a period in two adds the days exactly and moves gross, discount and net amount by at most one cent each |
| ContainerStorage.GraceComesFirst | backend/internal/service/billing_preview_store.go:1040-1061 | If any free days follow the cut, everything before it is free; so the drifts of gross and discount never add up in the net |
| ContainerStorage.GraceDaysAreFree | backend/internal/service/billing_preview_store.go:1056-1059 | A row for days within the grace window of the earliest arrival has as many free pallet-days as pallet-days and nothing to pay; a row for later days has no free ones and no discount |
| BillingMoney.RoundedStep | backend/internal/service/billing_preview_store.go:1077-1091 | An amount added before rounding moves the rounded total by itself rounded down or up, whatever it is added to |
| ContainerStorage.CutCanMoveOneCent | backend/internal/service/billing_preview_store.go:1077-1091 | Three rows of one container, two days and each of them, between which the net does move by a cent |
| OutboundPallets.GroupAllocations | backend/internal/service/billing_preview_store.go:809-838 | One group a place, in order, holding all of its allocated quantity |
| OutboundPallets.GroupsAreUnique | backend/internal/service/billing_preview_store.go:809-838 | The grouping does not depend on how it is computed |
| OutboundPallets.PalletSharesAddUp | backend/internal/service/billing_preview_store.go:840-887 | Shares sum to the line's pallets when some quantity is positive, each the floor of its quota or one more |
| OutboundPallets.PalletSharesAreFair | backend/internal/service/billing_preview_store.go:840-887 | No quantity, no pallets; a larger quantity never gets fewer |
| OutboundPallets.AllocatePallets | backend/internal/service/billing_preview_store.go:840-887 | The in-place loops compute those shares |
| OutboundPallets.PoolOutboundLines | backend/internal/service/billing_preview_store.go:643-672 | Pooling over documents, SKUs and places keeps the pallets of every billed line, line by line from its own shares; the pools hold the pallets of all in-range lines if and only if no line loses its own |
| OutboundPlaces.GroupsTell | backend/internal/service/billing_preview_store.go:809-838 | A line is billed, at every place, for just the pieces that left it there |
| OutboundPlaces.SharesTell | backend/internal/service/billing_preview_store.go:840-887 | Of a line's pallets every place gets its exact quota, rounded down or up, and nothing where nothing left |
| OutboundPlaces.PoolsTell | backend/internal/service/billing_preview_store.go:643-695 | Every bucket holds the pieces that the in-range lines of its document and SKU shipped out of its own place, and of each line's pallets that place's quota, rounded |
| OutboundPallets.ChargePools | backend/internal/service/billing_preview_store.go:696-731 | Every pool in scope is charged the pallets its quantity fills; without a fill rule and a filter every pooled pallet is charged |
| OutboundPallets.PalletsAreConserved | backend/internal/service/billing_preview_store.go:643-672 | The pallets of all in-range lines are billed if and only if no in-range line has pallets but neither a shipped nor an allocated quantity |
| OutboundPallets.OneLineLoses | backend/internal/service/billing_preview_store.go:643-672 | An input of the calculation, which confirmation never stores, whose pallets would not be billed |
| OutboundConfirmation.Shipments.Confirm | backend/internal/service/outbound_document_store.go:1257-1353 | Lines that ship nothing lose their pallets and allocations, the others get allocations of just their quantity, or nothing is confirmed |
| OutboundConfirmation.TakenTotal | backend/internal/service/outbound_allocation_store.go:2029-2063 | The allocations kept are positive and their total is that of the ones offered |
| OutboundConfirmation.EveryStateIsSettled | backend/internal/service/outbound_document_store.go:1281-1302 | Whatever drafts hold, in every state of every run each line of a confirmed shipment has positive allocations that add up to its quantity, and without a quantity neither pallets nor allocations |
| OutboundConfirmation.ShownTells | backend/internal/service/billing_preview_store.go:425-475 | Billing reads of a confirmed line its own pieces, allocations and pallets, or no pallets where they are negative |
| OutboundConfirmation.GroupsHoldAll | backend/internal/service/billing_preview_store.go:809-838 | The groups of a line hold the quantity of all its allocations |
| OutboundConfirmation.ConfirmedAreBilledWhole | backend/internal/service/billing_preview_store.go:643-695 | The pools hold every pallet and every piece of the confirmed lines in range, without exception |
| OutboundConfirmation.PoolConfirmedLines | backend/internal/service/billing_preview_store.go:643-695 | And so do the pools that billing computes |
| InboundFee.InitialNormalReceipts | backend/internal/service/billing_preview_store.go:773-807 | The earliest NORMAL receipt of every container by date, then id |
| InboundFee.ChargeInboundContainers | backend/internal/service/billing_preview_store.go:613-624 | A period has one fee line for a container exactly when that receipt is dated in it |
| InboundFee.KnownFee | backend/internal/service/billing_preview_store.go:348-375 | Receipts dated after the period do not change its fee |
| InboundFee.ChargedOnce | backend/internal/service/billing_preview_store.go:773-807 | Over consecutive periods a container is charged once in all, in the period of its earliest NORMAL receipt |
| ReceiptCharges.BillableIsReceived | backend/internal/service/billing_preview_store.go:561-580 | A receipt is never billed for more pallets than its lines brought, and for all of them when lots need not be full |
| PreviewAmounts.LotTells | backend/internal/service/billing_preview_store.go:561-580 | A receipt's goods of one SKU and section are billed together, for the most pallets that are there and that all their pieces fill |
| ReceiptCharges.FillByDocument | backend/internal/service/billing_preview_store.go:561-580 | The pallets that a receipt's lots fill, lot by lot in any order |
| ReceiptCharges.ChargeReceipts | backend/internal/service/billing_preview_store.go:583-636 | The charges add up to what every receipt in range and in scope owes: the container fee once, wrapping or transfer fees by pallet |
| ReceiptCharges.ReceiptsAddUp | backend/internal/service/billing_preview_store.go:583-636 | Billing receipts in two parts, each from those known at its own end, charges exactly the same by kind |
| SourceFreeze.CheckMutationsAllowed | backend/internal/service/billing_invoice_store.go:495-598 | The loops allow a change exactly when no live invoice of the customer covers its day and scope |
| SourceFreeze.CoversAllBlocksPast | backend/internal/service/billing_invoice_store.go:541-577 | An invoice without warehouse and type blocks a located change exactly when it is dated on or before its end |
| SourceFreeze.GuardsBlocksPast | backend/internal/service/billing_invoice_store.go:541-577 | So does an invoice of one warehouse for that warehouse, and for any place of a container on its lines |
| InvoicePoints.BlocksExactlyWhen | backend/internal/service/billing_invoice_store.go:541-577 | A change at one place, in a container of known type, is blocked by an invoice exactly when that is live and bills the place or, on a line, the container, for that type, on the day of the change or a later one |
| InvoicePoints.AnyPlaceBlocks | backend/internal/service/billing_invoice_store.go:541-577 | A change at several places is blocked exactly when it would be at one of them |
| InvoicePoints.AnyTypeBlocks | backend/internal/service/billing_invoice_store.go:541-577 | A change in a container of unknown type is blocked exactly when it would be for some type |
| InvoicePoints.UnplacedBlocks | backend/internal/service/billing_invoice_store.go:541-577 | A change without a place is blocked by the lines alone if it names a container, and else as at any place |
| StockLedger.StoredOffGuard | backend/internal/service/inventory_ledger_store.go:187-206 | The stored day differs from the guarded day only for a shipment or reversal that has a delivery day other than its ship day |
| StockLedger.AppendEffect | backend/internal/service/inventory_ledger_store.go:181-304 | What one append leaves: one more row, the moved bucket, the recomputed container, nothing else |
| StockLedger.DeltaEffect | backend/internal/service/inventory_ledger_store.go:454-521 | A change moves its own bucket by its amounts and no other |
| StockLedger.AppendAgreesExactlyWhen | backend/internal/service/inventory_ledger_store.go:454-521 | An append keeps balances equal to ledger sums if and only if the clamp at zero does not act |
| StockLedger.AppendKeepsValid | backend/internal/service/inventory_ledger_store.go:181-304 | Without the clamp an append keeps balances, checks, ids and container projections right |
| StockOperations.Warehouse.CreateStockLedgerEntry | backend/internal/service/inventory_ledger_store.go:181-304 | The transaction step computes the append |
| StockLedger.DeltaExactlyWhen | backend/internal/service/inventory_ledger_store.go:454-521 | A change is accepted exactly when what is left covers what is reserved and a new bucket is not opened below zero; reservations and other buckets stay |
| StockLedger.ReprojectionSettles | backend/internal/service/inventory_ledger_store.go:360-448 | Recomputing leaves location and status as computed from scratch, keeps the type and everything else, and changes nothing when they were right already |
| StockLedger.ProjectionTells | backend/internal/service/inventory_ledger_store.go:360-448 | In stock, partly outbound, shipped or depleted exactly as stock is left or not and something net has been shipped or not |
| StockLedger.LocationTells | backend/internal/service/inventory_ledger_store.go:360-448 | A container is at a location exactly when its stock is there and nowhere else |
| StockOperations.KeptLinesAreThose | backend/internal/service/adjustment_store.go:591-610 | The lines with identifiers and something to do are kept, each as often as it was asked for, and no others |
| StockOperations.KeptInOrder | backend/internal/service/adjustment_store.go:591-610 | They are kept in their order |
| StockOperations.DroppedLinesMoveNothing | backend/internal/service/adjustment_store.go:591-610 | A dropped line about a real bucket would not have moved anything |
| StockOperations.Warehouse.PostAdjustmentLine | backend/internal/service/adjustment_store.go:283-388 | One line in delta or final-balance mode |
| StockOperations.Warehouse.CreateInventoryAdjustment | backend/internal/service/adjustment_store.go:234-398 | All lines in order, or no change at all; no posted row is an error |
| StockOperations.AdjustOneKeeps | backend/internal/service/adjustment_store.go:283-388 | A posted line keeps the invariant, and a final-balance line leaves exactly the asked balances |
| PostedStock.AdjustOneExactly | backend/internal/service/adjustment_store.go:283-388 | A line is accepted exactly when its bucket is known and may hold the final balances it names, or what is there and its delta; then it holds just that, by one dated row of the difference, and no other balance moves |
| AdjustedStock.AdjustedExactlyWhen | backend/internal/service/adjustment_store.go:234-398 | A request is carried out exactly when some line is about a real bucket and asks for something, all such lines name a change or both final balances alone and not below zero, each is accepted in turn, and something moves |
| AdjustedStock.AdjustedExactly | backend/internal/service/adjustment_store.go:234-398 | Afterwards every real bucket holds what the lines about it ask for, one after the other |
| AdjustedStock.IdleLinesDoNotMatter | backend/internal/service/adjustment_store.go:591-610 | Leaving out a line without identifiers or without anything to do changes nothing about a request |
| StockOperations.SanitizeCountLines | backend/internal/service/cycle_count_store.go:478-506 | Keeps the first line of every bucket |
| StockOperations.LinesAreDistinct | backend/internal/service/cycle_count_store.go:478-506 | No bucket is counted twice |
| StockOperations.Warehouse.CreateCycleCount | backend/internal/service/cycle_count_store.go:222-354 | Posts the variances of the distinct lines, or changes nothing |
| StockOperations.CountedBalancesHold | backend/internal/service/cycle_count_store.go:264-347 | After a count every counted bucket holds what was counted |
| PostedStock.CountOneExactly | backend/internal/service/cycle_count_store.go:264-347 | A counted line is accepted exactly when its bucket is known and may hold what was counted, and leaves a row of the variance |
| AdjustedStock.CountedExactlyWhen | backend/internal/service/cycle_count_store.go:222-354 | A count is taken exactly when some line is about a real bucket, no first line of one is negative, and each is accepted in turn |
| AdjustedStock.CountedExactly | backend/internal/service/cycle_count_store.go:264-347 | Afterwards every real bucket holds what its first line says |
| AdjustedStock.UncountedStay | backend/internal/service/cycle_count_store.go:264-347 | And a bucket without a line holds what it held |
| StockOperations.Warehouse.ConfirmInbound | backend/internal/service/inbound_document_store.go:1018-1158 | Posts one RECEIVE row a line and files the receipt, or changes nothing |
| StockOperations.ReceiveOneKeeps | backend/internal/service/inbound_document_store.go:1086-1143 | A received line keeps the invariant |
| PostedStock.ConfirmedExactlyWhen | backend/internal/service/inbound_document_store.go:1018-1143 | A receipt is confirmed exactly when it was not before, its lines are proper, it names a customer and a place, and no live invoice freezes its arrival: as that of its own type and, where goods come without a container, of any type |
| PostedStock.ConfirmedExactly | backend/internal/service/inbound_document_store.go:1086-1143 | A confirmed receipt has one row a line with that line's pieces and pallets at the receipt's place, dated with its arrival; every balance moves by the sum of the lines of its SKU and section there, and all others stay |
| PostedStock.ConfirmedTotals | backend/internal/service/inbound_document_store.go:1113-1143 | And so does every total of the ledger |
| StockOperations.ReserveKeeps | backend/internal/database/v1_schema.sql:416-447 | Reservations within the table's checks keep the invariant |
| StockOperations.PostKeeps | backend/internal/service/inventory_ledger_store.go:454-521 | Shipments and transfers that leave the reserved pallets keep the invariant |
| PostedStock.PostingExactlyWhen | backend/internal/service/inventory_ledger_store.go:181-304 | A shipment, transfer or opening row is posted exactly when it names a known SKU and a real place, is not frozen and leaves what is reserved |
| PostedStock.PostingAddsRow | backend/internal/service/inventory_ledger_store.go:181-304 | It goes last in the ledger, with its own amounts and with the ship day or the day it names |
| PostedStock.PostingMoves | backend/internal/service/inventory_ledger_store.go:454-521 | It moves its own bucket by just what it says, and no other |
| PostedStock.GuardedAsDated | backend/internal/service/inventory_ledger_store.go:187-206 | The freeze looks at the day a movement is dated with, and at today when it has none |
| DeletionRollback.MidwayIsPastAndKept | backend/internal/service/inbound_deletion_plan.go:689-725 | A balance during the rollback is the past balance plus the later rows that stay |
| DeletionRollback.MidwayIsReplay | backend/internal/service/inbound_deletion_plan.go:689-725 | At the end it is the replay of the rows that stay |
| DeletionRollback.ReverseOneExactly | backend/internal/service/inbound_deletion_plan.go:727-779 | One reversal succeeds exactly when the row can be taken back, judged from the ledger and today's reservations and freezes |
| DeletionRollback.RollbackExactly | backend/internal/service/inbound_deletion_plan.go:152-164 | The whole rollback succeeds if and only if every covered row can be taken back, and then every balance is right |
| DeletionRollback.RollbackRetracesHistory | backend/internal/service/inbound_deletion_plan.go:727-779 | When the covered rows end the history of their buckets, each intermediate balance is a past balance, and only today's reservations, freezes or an unknown SKU can refuse it |
| DeletionErase.WithoutTwice | backend/internal/service/inventory_ledger_store.go:528-540 | Deleting the rows of documents one after another deletes the rows of all |
| DeletionErase.ErasureIsValid | backend/internal/service/inbound_deletion_plan.go:165-211 | Erasing rows and reversals and recomputing the touched containers leaves the tables as if the documents had never been posted |
| DeletionErase.PurgeKeeps | backend/internal/service/inbound_document_store.go:1613-1669 | The purge drops nothing that holds stock or is referred to |
| DeletionScope.PurgedBuckets | backend/internal/service/inbound_document_store.go:1618-1634 | Exactly the empty buckets without reservations of a container go, once no receipt of it remains |
| DeletionScope.PurgedRecords | backend/internal/service/inbound_document_store.go:1637-1665 | Its record goes exactly if also no bucket and no row of it is left; no other record does |
| InboundDeletion.FindBoundary | backend/internal/service/inbound_deletion_plan.go:252-264 | The newest RECEIVE row of the receipt |
| InboundDeletion.GroupLaterRows | backend/internal/service/inbound_deletion_plan.go:266-318 | The documents with a later row in the receipt's container |
| InboundDeletion.CoveredTransfers | backend/internal/service/inbound_deletion_plan.go:320-342 | The transfers reached through shipments' allocations |
| InboundDeletion.ExpandDependency | backend/internal/service/inbound_deletion_plan.go:379-442 | The version of a document is its newest row anywhere |
| InboundDeletion.BuildImpact | backend/internal/service/inbound_deletion_plan.go:233-374 | Lists every later document but the transfers covered by a shipment, once, newest first, and says whether all can be reversed |
| InboundDeletion.ValidateSelections | backend/internal/service/inbound_deletion_plan.go:537-560 | Accepts exactly a version-matching one-to-one copy of the dependencies |
| InboundDeletion.LaterIsCovered | backend/internal/service/inbound_deletion_plan.go:562-590 | Nothing later is lost by leaving covered transfers out of the list |
| InboundDeletion.CheckRowsNotFrozen | backend/internal/service/inbound_deletion_plan.go:672-687 | Allows exactly when no covered row is in a frozen period |
| InboundDeletion.ReverseRow | backend/internal/service/inbound_deletion_plan.go:689-779 | One guarded reversal |
| InboundDeletion.EraseCovered | backend/internal/service/inbound_deletion_plan.go:165-188 | Deletes the covered documents and rows, then the reversals |
| InboundDeletion.RecomputeTouched | backend/internal/service/inbound_deletion_plan.go:189-213 | Recomputes every container of a covered row and no other |
| InboundDeletion.PurgeContainer | backend/internal/service/inbound_document_store.go:1613-1669 | Deletes empty buckets and an unreferenced container once no receipt remains |
| InboundDeletion.TakeBack | backend/internal/service/inbound_deletion_plan.go:152-218 | Succeeds exactly when every covered row can be taken back, judged before the first one is; then nothing is left of the covered documents |
| InboundDeletion.DeleteInboundWithDependencies | backend/internal/service/inbound_deletion_plan.go:103-231 | Succeeds exactly when selection, reversibility, freeze and balances allow; then it is as if the covered documents had never been posted; on failure nothing changes |
| InboundDeletion.NothingLaterRemains | backend/internal/service/inbound_deletion_plan.go:233-374 | Afterwards no row of the container is newer than the receipt's boundary, and no row is left of a transfer that a later shipment is linked to |
| DeletionScope.LaterExactly | backend/internal/service/inbound_deletion_plan.go:266-318 | The later documents are exactly those with a row in the receipt's container recorded after all of its RECEIVE rows |
| DeletionScope.PlannedExactly | backend/internal/service/inbound_deletion_plan.go:320-374 | The listed ones are those, but for transfers that a later shipment was picked from |
| DeletionScope.CoverageExactly | backend/internal/service/inbound_deletion_plan.go:562-590 | A deletion covers exactly the receipt, the documents that came later in its container, and the transfers that a later shipment was picked from |
| DeletionScope.DeletableExactly | backend/internal/service/inbound_deletion_plan.go:103-231 | A deletion goes through exactly when every listed document may be undone and has been named once at its newest row, no row that goes is frozen, and each can be undone today: what was there before it and what stays of the later rows covers what is reserved |
| DeletionScope.ErasedExactly | backend/internal/service/inbound_deletion_plan.go:103-231 | After a deletion exactly the rows and documents of those are gone: every row of a transfer that a later shipment was picked from, and no row of anything else |
| ReceiptDeletion.ReceivedIsErased | backend/internal/service/inbound_document_store.go:1278-1299 | What is given back by bucket is what erasing the receipt's rows takes off |
| ReceiptDeletion.LoadBalances | backend/internal/service/inbound_document_store.go:1278-1326 | The buckets to give back, unless the history does not add up |
| ReceiptDeletion.ReverseReceipt | backend/internal/service/inbound_document_store.go:1278-1381 | Gives all received stock back exactly when every bucket has it free and today is not frozen |
| ReceiptDeletion.FindLater | backend/internal/service/inbound_document_store.go:1476-1531 | The check for later activity |
| ReceiptDeletion.CancelInboundDocument | backend/internal/service/inbound_document_store.go:1383-1470 | Succeeds exactly when the receipt may be removed, and then it is as if it had never been posted; otherwise nothing changes |
| ReceiptDeletion.DeleteReceipt | backend/internal/service/inbound_document_store.go:1564-1611 | The same within a larger transaction |
| DeletionScope.RemovableExactly | backend/internal/service/inbound_document_store.go:1278-1531 | A receipt may be removed exactly when no live invoice freezes its arrival, no other document has a later row in its container, and every bucket it received into can give that back: free of reservations and not frozen today |
| BatchDeletion.LaterGoesFirst | backend/internal/service/inbound_document_store.go:875-907 | A later receipt of the batch is deleted earlier |
| BatchDeletion.BatchOrderIsRight | backend/internal/service/inbound_document_store.go:875-924 | In this order every check for later activity passes if and only if all later activity belongs to the batch |
| BatchStock.SameGiveBack | backend/internal/service/inbound_document_store.go:1278-1379 | What a receipt has to give back in its turn can be judged on the first state |
| BatchStock.OneByOneOrAtOnce | backend/internal/service/inbound_document_store.go:1336-1379 | Taking amounts one after another, each with what is needed left over, works exactly when all of them together leave it |
| BatchStock.FreeInAnyOrder | backend/internal/service/inbound_document_store.go:875-951 | Every receipt of a batch can give its stock back in its turn if and only if, once the whole batch is gone, what remains covers the reservations of today |
| BatchDeletion.TurnsPassTogether | backend/internal/service/inbound_document_store.go:875-951 | Every deletion passes in its turn if and only if the batch as a whole is thawed, clear and free |
| BatchDeletion.DeleteBatch | backend/internal/service/inbound_document_store.go:838-951 | Succeeds exactly when the batch is well-formed and as a whole thawed, clear and free; then it is as if none of it had been posted, otherwise nothing changes |
| StockRuns.ConfirmKeeps | backend/internal/service/inbound_document_store.go:1018-1158 | Confirming keeps the run invariant and adds only rows dated after covering invoices |
| StockRuns.AdjustmentKeeps | backend/internal/service/adjustment_store.go:234-398 | So do adjustments |
| StockRuns.CycleCountKeeps | backend/internal/service/cycle_count_store.go:222-354 | So do cycle counts |
| StockRuns.PostingKeeps | backend/internal/service/inventory_ledger_store.go:181-304 | So do shipments, transfers and opening balances |
| StockRuns.ErasureKeeps | backend/internal/service/inbound_deletion_plan.go:103-231 | Deletion keeps the run invariant |
| SourceStability.EveryStateIsSound | backend/internal/service/inventory_ledger_store.go:360-521 | In every state of every run balances equal ledger sums, reservations fit, and container status and location equal a computation from scratch |
| SourceStability.StepIsInvisible | backend/internal/service/billing_invoice_store.go:495-598 | No step changes the rows that billing reads, of any container at a place that a live invoice covers, and at any place when it is for all warehouses or has the container on a line |
| SourceStability.HistoryIsStable | backend/internal/service/billing_preview_store.go:489-519 | In every later state the lifecycle query of every such container reads the very same rows |
| SourceStability.ChargeIsStable | backend/internal/service/billing_preview_store.go:889-1122 | Charging a container again in any later state gives the very same storage row, releases and segments included, or again none |
| SourceStability.UndatedIsInvisible | backend/internal/service/inventory_ledger_store.go:187-206 | A row stored without a day moves the balance, and no lifecycle query sees it |
| FeeStability.ReceiptsAreStable | backend/internal/service/billing_preview_store.go:370-393 | In every later state the receipt query of a covered period shows the same receipts with the same data |
| FeeStability.FeesAreStable | backend/internal/service/billing_preview_store.go:773-807 | And so every container has the same inbound-container fee in it |
| FeeStability.DuesAreStable | backend/internal/service/billing_preview_store.go:583-636 | And so are its inbound and wrapping totals, fees by pallet included |
| InvoiceLifecycle.Store.CreateInvoice | backend/internal/service/billing_invoice_store.go:670-770 | Creates a draft unless a live invoice overlaps, with recalculated totals |
| InvoicePoints.OverlapsExactly | backend/internal/service/billing_invoice_store.go:676-700 | Two proper scopes overlap exactly when some customer, warehouse, container type and day is billed under both |
| InvoicePoints.CreationExactlyWhen | backend/internal/service/billing_invoice_store.go:676-700 | A well-formed creation is refused exactly when it would bill a warehouse, type and day that a live invoice of the customer bills already |
| InvoiceLines.CreatedLines | backend/internal/service/billing_invoice_store.go:702-770 | A new draft has one automatic line an input, in order and as asked for; nothing else is touched |
| InvoiceLifecycle.Store.RecalculateTotals | backend/internal/service/billing_invoice_store.go:1086-1125 | Subtotal, discount and grand total from the lines |
| InvoiceLifecycle.OperationsGoOneStep | backend/internal/service/billing_invoice_store.go:772-1082 | An accepted operation takes its invoice one step along draft, finalized, paid and void, or deletes it as a draft, and leaves every other invoice as it is |
| InvoiceLifecycle.WhatMayFollow | backend/internal/service/billing_invoice_store.go:998-1082 | A finalized invoice can be paid or voided, a paid one only voided, a void or deleted one nothing; notes change nothing about that |
| InvoiceLifecycle.Store.AddInvoiceLine | backend/internal/service/billing_invoice_store.go:821-880 | Draft only; the line goes last and totals follow |
| InvoiceLifecycle.Store.UpdateInvoiceLine | backend/internal/service/billing_invoice_store.go:882-956 | Draft only; the line becomes manual and totals follow |
| InvoiceLifecycle.Store.DeleteInvoiceLine | backend/internal/service/billing_invoice_store.go:958-996 | Draft only; totals follow |
| InvoiceLines.AddedLine | backend/internal/service/billing_invoice_store.go:821-880 | An added line sorts after all others, as asked for, manual and without details; the others stay |
| InvoiceLines.ChangedLine | backend/internal/service/billing_invoice_store.go:882-956 | A changed line keeps its number and place, becomes manual and loses its details; the others stay |
| InvoiceLines.DeletedLine | backend/internal/service/billing_invoice_store.go:958-996 | The line goes and every other stays |
| InvoiceLifecycle.UnreconciledContainers | backend/internal/service/billing_invoice_store.go:1227-1258 | The containers whose last storage line tells a negative movement |
| InvoiceLifecycle.Store.FinalizeInvoice | backend/internal/service/billing_invoice_store.go:998-1024 | Draft only, and only when every movement reconciles |
| InvoiceLines.LastMovementTells | backend/internal/service/billing_invoice_store.go:1227-1258 | The movement that counts for a container is that of its last storage line with details |
| InvoiceLines.FinalizedExactlyWhen | backend/internal/service/billing_invoice_store.go:998-1024 | A draft is finalized exactly when no container's last storage line with details tells a negative movement |
| InvoiceLifecycle.SettledIsReconciled | backend/internal/service/billing_invoice_store.go:998-1045 | In every state of a run the movements of every finalized or paid invoice reconcile |
| InvoiceLines.EverySettledReconciles | backend/internal/service/billing_invoice_store.go:998-1045 | Said with the lines alone: no container's last storage line on a finalized or paid invoice tells a negative movement, in any state of any run |
| InvoiceLifecycle.SettledExactlyWhen | backend/internal/service/billing_invoice_store.go:772-1082 | However stale its check, a write leaves settled invoices alone if and only if it does not change the lines or notes of one, delete it, or take its status back |
| InvoiceLifecycle.DisjointExactlyWhen | backend/internal/service/billing_invoice_store.go:1026-1066 | However stale its check, a write keeps live invoices disjoint if and only if it does not revive a void invoice that something live overlaps |
| InvoiceLifecycle.FreshWriteKeeps | backend/internal/service/billing_invoice_store.go:772-1082 | A write whose check is not stale keeps the invariant and leaves settled invoices alone |
| InvoiceLifecycle.EveryStateKeeps | backend/internal/service/billing_invoice_store.go:670-1082 | Without interference live invoices stay disjoint, totals match, and an invoice that left the draft keeps lines, totals and scope for good |
| InvoicePoints.EveryPointOnce | backend/internal/service/billing_invoice_store.go:670-770 | In every state of every run without interference, every customer, warehouse, container type and day is billed by one live invoice at most |
| InvoiceRaces.TotalsSurviveRaces | backend/internal/service/billing_invoice_store.go:1086-1125 | When whole transactions interleave, a line edit and its recalculation being one, each stored total is the sum of its lines |
| InvoiceRaces.PaymentRevivesVoidInvoice | backend/internal/service/billing_invoice_store.go:1026-1066 | A run in which a stale payment makes two live invoices overlap |
| InvoiceRaces.LineSlipsIntoFinalizedInvoice | backend/internal/service/billing_invoice_store.go:821-880 | A run in which a stale line changes a finalized invoice |
| InvoiceRaces.CalmPlaysKeep | backend/internal/service/billing_invoice_store.go:772-1082 | When every write finds the status its check saw, all interleavings keep everything |
| InvoiceRaces.PlaysSettleExactlyWhen | backend/internal/service/billing_invoice_store.go:772-1082 | In an interleaving settled invoices stay as they are throughout if and only if no write comes back that unsettles one |
| InvoiceRaces.PlaysAreDisjointExactlyWhen | backend/internal/service/billing_invoice_store.go:1026-1066 | In an interleaving live invoices stay disjoint throughout if and only if no write comes back that revives a replaced one |
| InvoiceTotals.Summarize | backend/internal/service/billing_preview_store.go:1372-1413 | The summary is the sums by kind of charge |
| InvoiceTotals.AssemblePreview | backend/internal/service/billing_preview_store.go:717-771 | The preview holds the fee lines and one line a storage row, in order, and their totals |
| InvoiceTotals.BuildInvoiceLines | backend/internal/service/billing_invoice_generation.go:175-271 | Builds the lines or finds the first reason to refuse |
| InvoiceTotals.OnlyUnassignedIsRefused | backend/internal/service/billing_invoice_generation.go:187-205 | A calculated preview is refused only for a line without a source container; missing detail and total mismatch cannot happen |
| InvoiceTotals.GenerateInvoice | backend/internal/service/billing_invoice_generation.go:61-155 | What is stored is the preview's grand total, or its storage amount for a storage settlement |
| PreviewSources.ChargeShipments | backend/internal/service/billing_preview_store.go:638-739 | The shipping charges add up to what the pools of the period owe, each bucket rounded on its own |
| PreviewAmounts.BucketTells | backend/internal/service/billing_preview_store.go:643-739 | A bucket in scope owes the fee for the most pallets that are there and that the pieces shipped in the period, and in no other, out of its place fill |
| PreviewSources.GroupByContainer | backend/internal/service/billing_preview_store.go:896-909 | Every container in scope with exactly its own events |
| PreviewSources.ChargeStorage | backend/internal/service/billing_preview_store.go:889-1113 | One row a container that has anything to tell, and the rows add up to what the containers owe |
| PreviewSources.RowTellsDue | backend/internal/service/billing_preview_store.go:1064-1091 | What a container owes for storage is decided by its days alone, and a container without a row owes nothing |
| PreviewSources.CalculatePreview | backend/internal/service/billing_preview_store.go:540-771 | From sources to totals: each of the four totals is what receipts, shipments and containers owe, and the grand total is their sum |
| PreviewSources.BillPeriod | backend/internal/service/billing_invoice_generation.go:61-155 | What is stored for a generated invoice is what the sources owe |
| PreviewPeriods.StoredDueKnown | backend/internal/service/billing_preview_store.go:477-523 | Containers without known events owe nothing, so the known ones decide |
| PreviewPeriods.PoolsSplit | backend/internal/service/billing_preview_store.go:643-695 | The pools of a period are those of its two parts side by side |
| PreviewPeriods.ShipmentsAddUp | backend/internal/service/billing_preview_store.go:638-739 | Shipments owe for a period exactly what they owe for its two parts |
| PreviewPeriods.PreviewsAddUp | backend/internal/service/billing_preview_store.go:540-771 | The previews of two parts of a period, each from what was known at its own end, add up to the preview of the whole: inbound, wrapping and outbound to the cent, storage and the grand total to a cent a container |
| GeneratedInvoices.UneditedFinalizesExactlyWhen | backend/internal/service/billing_invoice_store.go:998-1024 | The guard on finalization accepts an unedited generated invoice if and only if no storage row has a negative movement |
| GeneratedInvoices.GeneratedInvoiceFinalizes | backend/internal/service/billing_invoice_store.go:1003-1012 | From a ledger whose transfers keep their SKU, over openings in which no SKU is short and stocked, every invoice that is generated can be finalized, with the total of the preview |
| InvoiceTotals.BuildContainerDetails | backend/internal/service/billing_invoice_store.go:1260-1357 | The breakdown has every container of the lines with its sums |
| InvoiceTotals.DetailSplits | backend/internal/service/billing_invoice_store.go:1282-1322 | Every container total splits by kind of charge |
| InvoiceTotals.DetailTells | backend/internal/service/billing_invoice_store.go:1282-1345 | Every figure of a container's breakdown is the sum over that container's own lines of that kind |
| InvoiceTotals.GrossTells | backend/internal/service/billing_invoice_store.go:1300-1317 | Storage gross less discount is the storage amount, but for what lines that do tell a gross get wrong themselves |
| GeneratedInvoices.UneditedStorageNets | backend/internal/service/billing_invoice_store.go:1290-1311 | In the breakdown of an unedited generated invoice storage gross less discount is the storage amount of every container |
| InvoiceTotals.ContainersAddUp | backend/internal/service/billing_invoice_store.go:1260-1357 | The container totals add up to the stored grand total |
| BulkImport.PreviewOpensBatch | backend/internal/service/bulk_import_batch_store.go:181-233 | A batch is not previewed while it is being committed or once it is closed; afterwards it has no records, and can be committed exactly if the preview was sound; other batches and all receipts stay |
| BulkImport.LeaseIsExclusive | backend/internal/service/bulk_import_batch_store.go:235-267 | Once a batch is taken, or a document recorded, the next can take it exactly when the lease has run out |
| BulkImport.FailingStopsWork | backend/internal/service/bulk_import_batch_store.go:269-294 | After a failure nobody can record, create, complete or take over until a new preview, which is possible; receipts and records stay |
| BulkImport.Store.RecordBatchDocument | backend/internal/service/bulk_import_batch_store.go:377-442 | Keeps the first record, refuses a different one, renews the lease, and only while committing |
| BulkImport.Store.CreateInboundDocument | backend/internal/service/inbound_document_store.go:417-523 | The receipt and its record, or neither; the import key is unique |
| BulkImport.Store.CreateDocument | backend/internal/service/inbound_bulk_import.go:386-451 | One document is refused, found with its own data, or created |
| BulkImport.Store.CreateDocuments | backend/internal/service/inbound_bulk_import.go:315-455 | The loop imports the documents in order up to the first error, and counts every result once |
| BulkImport.ImportsAnswer | backend/internal/service/inbound_bulk_import.go:315-455 | Every document becomes one result, and a success names a receipt with the document's very data; receipts are only added, and only while the batch is being committed |
| BulkImport.CheckDistinct | backend/internal/service/bulk_import_batch_store.go:444-458 | Keys are present and distinct |
| BulkImport.Store.CompleteBatch | backend/internal/service/bulk_import_batch_store.go:337-375 | Replaces the records one by one and closes the batch, or changes nothing |
| BatchOutcomes.ClosingTells | backend/internal/service/bulk_import_batch_store.go:296-375 | A worker that closes its batch leaves exactly one record a document, the result it reported, and closes it as completed, partial or failed exactly as all, some or none of these are successes |
| BatchOutcomes.TakenUpExactlyWhen | backend/internal/service/inbound_bulk_import.go:262-300 | A worker takes up a batch exactly when it can be committed and the request has documents, all with keys and no key twice |
| BulkImport.FilingAddsUp | backend/internal/service/bulk_import_batch_store.go:347-351 | Filing distinct records one by one files all of them |
| BulkImportRuns.EveryStateIsTrue | backend/internal/api/inbound_bulk_import.go:111-160 | In every interleaving of workers, losses and takeovers an import key has one receipt at most, CREATED records point to it, and a closed batch counts exactly its records |
| BatchOutcomes.EveryOutcomeIsTrue | backend/internal/service/bulk_import_batch_store.go:296-375 | In every state of every interleaving a completed batch has records, all of them of successes, and a partial one has both successes and failures |
| BulkImportRuns.CountedMeansOwnData | backend/internal/service/inbound_bulk_import.go:399-426 | Other data under a used key never counts as created |
| BulkImportRuns.ReceiptsOnlyWhileCommitting | backend/internal/service/bulk_import_batch_store.go:377-442 | A receipt is created only while its batch is being committed |
| BulkImportRuns.ClosedForGood | backend/internal/service/bulk_import_batch_store.go:534-550 | A completed or partial batch is never left, and its records and receipts never change again |
| BulkImportRetry.AttemptSettles | backend/internal/service/inbound_bulk_import.go:386-451 | After any number of documents every result is one that another attempt will find again |
| BulkImportRetry.RetryIsInvisible | backend/internal/service/inbound_bulk_import.go:315-455 | A commit interrupted after any number of documents and run again ends with the same results, receipts and records as an uninterrupted one |
| BulkImportRetry.TakeoverIsInvisible | backend/internal/service/bulk_import_batch_store.go:235-267 | So does one that another worker takes over when the lease has run out |
| BulkImportRetry.RestartIsInvisible | backend/internal/service/bulk_import_batch_store.go:181-294 | A first commit that failed can always be previewed and committed again, and ends the same way |
| BulkImportRetry.CommittingIsCommittable | backend/internal/service/bulk_import_batch_store.go:377-442 | In every reachable state a batch that is being committed has records of created receipts only, so it can be resumed |
| BulkImportRuns.TakeoverHidesReceipt | backend/internal/service/bulk_import_batch_store.go:337-375 | A run in which a takeover with other documents ends in a completed batch that lacks a record of a created receipt |
| BulkImportClosing.ClosingRecordsAllExactlyWhen | backend/internal/service/bulk_import_batch_store.go:337-375 | Closing leaves a record of every receipt of the batch if and only if each of them is among the successful results it files |
| BulkImportClosing.UniformRunsHideNothing | backend/internal/api/inbound_bulk_import.go:111-160 | When all attempts at a batch have the same documents, and none gives up on a document whose insertion failed, a closed batch records every receipt |
| BulkImportClosing.StaleFailureHidesReceipt | backend/internal/service/inbound_bulk_import.go:416-446 | The same documents alone are not enough: a run in which a worker whose insertion failed closes the batch after another one has created the receipt |
| ContainerMetadata.Registry.CheckConsistency | backend/internal/service/inbound_document_store.go:1199-1248 | The loop over the other confirmed receipts |
| ContainerMetadata.Registry.ConfirmReceipt | backend/internal/service/inbound_document_store.go:1160-1276 | Confirms a draft that agrees, and writes its metadata to the container |
| ContainerMetadata.Registry.UpdateMode | backend/internal/service/container_operations_store.go:422-483 | Refuses when a confirmed receipt establishes the other mode |
| ContainerMetadata.Registry.UpdateMetadata | backend/internal/service/container_operations_store.go:333-395 | Changes type and mode of container and receipts together, or nothing |
| ContainerMetadata.ReclassifyingExactlyWhen | backend/internal/service/inbound_document_store.go:615-674 | A receipt that is not deleted takes its whole container to the new type unless billing refuses, and nothing else of any receipt or record changes |
| ContainerMetadata.CreatingOnce | backend/internal/service/container_operations_store.go:214-331 | A record is made at most once and then kept as it is; a new one is about a container without a confirmed receipt |
| ContainerMetadata.RemovingExactlyWhen | backend/internal/service/inbound_document_store.go:1613-1669 | The record goes exactly with the last receipt of its container, if nothing else refers to it; other records stay |
| ContainerMetadata.TouchingExactly | backend/internal/service/inventory_ledger_store.go:319-358 | A ledger row makes a record for a container that has none, palletized and of the normal type, and changes no other |
| ContainerMetadata.DraftingExactly | backend/internal/service/inbound_document_store.go:528-581 | A draft is written as it is, unless the receipt is no draft any more |
| ContainerMetadata.EveryStateIsConsistent | backend/internal/service/inbound_document_store.go:1160-1265 | In every reachable state the confirmed receipts of a container agree with each other and with its record |
| ContainerMetadata.ConfirmingExactlyWhen | backend/internal/service/inbound_document_store.go:1160-1265 | A draft is confirmed exactly when it is palletized and agrees with the record of a container already received |
| ContainerMetadata.UpdatingExactlyWhen | backend/internal/service/container_operations_store.go:333-483 | An update is accepted exactly when the record exists, the freeze allows the type and a received container keeps its mode |
| ContainerMetadata.RetypesUnaskedExactlyWhen | backend/internal/service/inbound_document_store.go:615-674 | An operation changes the type of a confirmed receipt although billing refuses the change if and only if it reclassifies a draft of the container that has the new type already |
| ContainerMetadata.DraftRetypesConfirmed | backend/internal/service/inbound_document_store.go:639-668 | A run in which that happens |
| ContainerMetadata.OnlyFirstReceiptRetypes | backend/internal/service/inbound_document_store.go:1250-1264 | Confirming changes an existing record if and only if a palletized draft brings other metadata as the first confirmed receipt |
| ContainerMetadata.FirstReceiptRetypes | backend/internal/service/inbound_document_store.go:1250-1264 | A record whose type does change that way |

## Left out

- SourceStability.ChargeIsStable: is about storage rows, with the container's type and the rates fixed, because a type may be changed by an operation that the freeze guards differently; what receipts owe is in FeeStability, and of the outbound store only the confirmation of shipments is part of this model.
- SourceStability.HistoryIsStable: cancelling a shipment, which changes which rows are shown, is an operation of the outbound store and not part of this model.
- StockOperations.PostKeeps: shipments, transfers and opening balances appear only as guarded ledger appends; the transfer store, and the outbound store but for what confirmation makes of lines, are not part of this model.
- BulkImportRetry.RetryIsInvisible: compares attempts of one worker with the same documents; several workers at once are in BulkImportRuns.
- BatchOutcomes.TakenUpExactlyWhen: takes the keys as they are after trimming and the defaults for missing ones; the limits on the numbers of documents and lines are left out.
- InvoiceRaces.TotalsSurviveRaces: a line edit and its recalculation are one step; the recalculation sums what its own transaction sees and edits take no customer lock, so transactions that overlap inside the database are outside the model.
- StockOperations.Warehouse.ConfirmInbound: the agreement of type and handling mode that confirmation checks is modelled on its own, in ContainerMetadata.
- OutboundPallets.PoolOutboundLines: a line without an allocation that is out of scope is dropped with its bucket by the scope in ChargePools, and not before; the warning about it is left out.
- OutboundConfirmation.Shipments.Confirm: takes for granted that the stock of the allocations is there and that the billing freeze allows the shipment, and gets the allocations after planning and staging as a parameter.
- FeeStability.DuesAreStable: a confirmed receipt's lines are a parameter; no operation on receipts modelled here changes them.
- PreviewPeriods.PreviewsAddUp: scope, rates and the type of every container are the same for all three previews.
- InvoiceTotals.GenerateInvoice: the fingerprint of the sources and its comparison are left out.
- ContainerMetadata.EveryStateIsConsistent: whether the billing freeze refuses a change of type is a parameter there.
- The adoption of a placeholder item without container and section renames move a balance without a ledger row; container numbers are taken as non-blank where balances are compared, and sections as fixed.
- Display fields of a storage row (warehouse names, average, received on), and the order in which pools are charged.
- Floating-point noise: amounts are exact integers and fractions, rates are no finer than a ten-thousandth of a cent; overflow of products of pallets and quantities.
- The per-document queries of the deletion are one pass over the ledger, newest row first; the order of equal keys in an unordered map is arbitrary.
- Attachments, delivery events, audit logs, timestamps other than business days, invoice headers other than notes.
- SQL, locking and isolation below the level of one transaction, JSON, parsing of spreadsheets and documents, HTTP, authentication and the user interface.
- Customers, SKUs, locations and preferences.
