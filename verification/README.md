# Verified model of the commerce backend

This project models the stateful core of a commerce backend in Dafny and proves what its code and its
documentation promise: stock under the order lifecycle, the supplier stock import, the money pipeline from
price list to order, the quote and payment protocols, and outbox delivery under a cluster lock.

`dafny verify dfyconfig.toml` checks everything.

## How it is built

Code that computes is functions and lemmas. Code that updates objects, tables or local variables is classes
and loops, each proved against a specification function; what the source promises is then proved of that
function. Code whose difficulty is interleaving is a state machine with one transition for every stretch
between two awaits, and its theorems hold of every run.

| modules | what they cover |
|---|---|
| `Money`, `OrderPricing`, `PriceTiers`, `CartPricing` | rounding, line and order arithmetic, tier selection, preview against create, snapshot orders |
| `QuotePricing`, `QuoteItems`, `QuoteConversion`, `QuoteRules`, `QuoteLimits` | negotiation and re-pricing, quote totals and their conversion, the quote lifecycle and its compare-and-set, each step in the columns of the tables, and where they stop short |
| `Inventory`, `StockTable`, `OrderStock`, `StockLedger`, `LedgerLimits` | the aggregate, the repository, the reserve and release loops, all of them interleaved, which cancels are refused, and what stock stays set aside for no order |
| `Text`, `SheetReader`, `SheetDocuments`, `SheetPrinting`, `StockFeed`, `StockSync`, `FeedRetries` | the SpreadsheetML reader with its round trip, the feed, the import from printed sheet to shelf |
| `Payments`, `PaymentRules`, `ChargeSafety`, `WebhookReplay` | freight selection, checkouts and webhooks, each call in the columns of the tables, what can be charged over whole runs, repeated webhooks |
| `SyncLock`, `LockFailures`, `Outbox`, `OutboxCluster` | the advisory lock across replicas and its failures, the drainer, both together |
| `Parcels`, `Facets` | the shipping parcel, facet counts |

Money is exact: an amount is a `real`, and a cent amount one whose hundredfold is whole. This is the decimal
that the source's string scaling in `round2` aims at. A SQL statement is its effect on a map or a sequence,
a unique key is a map key or a place in a sequence, and a row lock is the atomicity of a step. Clocks, answers
of foreign services and failures are parameters, so the theorems hold for all of them.

## What turned out not to hold

Where the code does not do what one would expect, the model keeps the code. Each case below has its failing
input and a lemma that says exactly when it occurs.

- Re-pricing a quote gives an agreed manual price back if and only if it is the list price or some percentage in
  hundredths explains it (`QuotePricing.RoundTripIsExactIff`). A surcharge, 60.00 on a list of 50.00, and a discount
  that rounds to nothing, 50.00 on a list of 50.001, are lost (`QuotePricing.PricesNotRestored`). On a list price in
  cents every price at or below list is restored if and only if the list is at most 100.00
  (`QuotePricing.RepriceIsExactIff`); above that the recorded percentage has too few values.
- Which tier applies does not depend on the order of storage if and only if no other row ties with the best one
  (`PriceTiers.StorageDoesNotMatterIff`). Rows that differ in their validity dates only may tie.
- The price check on orders is documented as within one cent but accepts anything short of 1.5 cents
  (`OrderPricing.QuotedPriceMatchesIff`).
- A cancel goes through if and only if the rows cover the order's lines (`LedgerLimits.CancelCompletesIff`).
  Permitted runs guarantee that; creating an order as `preparing`, or breaking a cancel off before its status
  change, does not (`LedgerLimits.PlacedPreparingRaises`, `LedgerLimits.BrokenCancelRaises`).
- A confirm sets stock aside for no order in two ways. Of an order that is already `preparing` it reserves everything
  twice, and the cancel returns one of the two; and when it is refused partway, the lines it had reserved stay
  reserved. A confirm, and one with a cancel behind it that goes through, strands nothing if and only if it completes
  for an order that was not preparing or is empty, or is refused before it reserved a line
  (`LedgerLimits.ConfirmStrandsNothingIff`, `LedgerLimits.ConfirmThenCancelStrandsNothingIff`,
  `LedgerLimits.RefusedConfirmStrandsOne`). The same refusal inside a creation as `confirmed` removes the order and
  leaves its reservations (`LedgerLimits.PlacingStrandsNothingIff`).
- A conversion that loaded a draft can ship that draft although other lines were sent and approved meanwhile;
  it is sure to ship the sent lines if and only if its load saw the quote past draft, or a quote that no order can be
  made of (`QuoteLimits.FreshLoadShipsSentIff`).
- Converting an approved quote uses it up without an order if and only if its payload is invalid, that of a
  prospect without an account above all, or names a product that is gone
  (`QuoteLimits.ConversionStrandsIff`, `QuoteLimits.UnorderableIsStranded`).
- A sent quote is stuck if and only if its validity date has passed, and sending does not check the date
  (`QuoteLimits.SentIsStuckIff`).
- Opening a checkout reads before it writes. The write is safe if and only if nothing of the order is live by
  then and its total is still the one read (`ChargeSafety.InsertIsSafeIff`); two calls at once, or a rate
  accepted in between, break it (`ChargeSafety.TwoReadersOpenTwice`, `ChargeSafety.RepricedBetween`). A
  `checkout.updated` that arrives late reopens a closed checkout (`ChargeSafety.ReopeningIsSafeIff`).
- Accepting a rate and asking for new ones read before they write, too, and write the whole order. The write is
  safe if and only if by then nothing of the order is live or its total is the one written, and it unmarks an order
  that was paid in between (`ChargeSafety.SelectWriteIsSafeIff`, `ChargeSafety.QuoteWriteIsSafeIff`).
- A payment marks its order paid whatever amount it states. What is recorded is the order's total if and only if the
  event states no amount or the one the checkout was opened for (`ChargeSafety.PaidInFullIff`).
- A webhook whose handler threw is lost, because its key is kept; the first delivery decides
  (`WebhookReplay.FirstDeliveryDecides`, `WebhookReplay.ThrownIsLost`).
- The lock's comment says that releasing the runner ends the session and drops the lock. The runner goes back
  to its pool instead, so a failed unlock or a lost reply leaves the lock on the session, and there it stays, used
  again or not, until its pool closes it or its replica crashes (`LockFailures.FailedUnlockLeaks`,
  `LockFailures.LostReplyLeaks`, `LockFailures.LeakLastsWithSession`). After a failed unlock nobody runs under the
  key until the session is used again or ends (`LockFailures.FailedUnlockShutsKey`).
- A lost connection lets two bodies run if and only if its session guards a lock
  (`LockFailures.LossIsHarmlessIff`).
- The sync service's comment says that an unusable workbook is not retried. The feed client reports it with the
  same exception as a failed download, so it is, up to the last attempt, exactly when a header row lacks a wanted
  column (`FeedRetries.WorkbookIsRetriedIff`, `FeedRetries.EmptyHeaderIsRetried`).


## Model

| member | source | states |
|---|---|---|
| `Money.RoundedIsUnique` | src/modules/orders/domain/order-pricing.ts:21-43 | `round2` is "half away from zero": a value is `Round2(x)` if and only if it is the nearest cent amount and, of two equally near, the one further from zero |
| `Money.Round2Close` | src/modules/orders/domain/order-pricing.ts:29-43 | rounding moves an amount by at most half a cent and never across zero |
| `Money.Round2Odd` | src/modules/orders/domain/order-pricing.ts:34-42 | rounding a negated amount negates the result |
| `Money.Round2Monotone` | src/modules/orders/domain/order-pricing.ts:29-43 | a larger amount never rounds to less |
| `Money.Round2Idempotent` | src/modules/orders/domain/order-pricing.ts:29-43 | rounding twice is rounding once |
| `OrderPricing.LineReconciles` | src/modules/orders/domain/order-pricing.ts:61-74 | for any quantity, price and rate the net is the nearest cents to their product and the tax the nearest cents to the rate on that net; the total is exactly their sum |
| `OrderPricing.QuotedPriceMatchesIff` | src/modules/orders/domain/order-pricing.ts:76-84 | the guard accepts a claim exactly when it is less than 1.5 cents off, for all amounts |
| `OrderPricing.QuotedCentsMatchIff` | src/modules/orders/domain/order-pricing.ts:14-19 | on cent amounts the guard is the documented "within one cent" |
| `OrderPricing.GrandTotalIsExact` | src/modules/orders/domain/order-pricing.ts:95-117 | on cent amounts the charged total is the exact sum of its parts, in cents |
| `OrderPricing.RunningTotalIsExact` | src/modules/orders/application/services/order.service.ts:689-690 | a running total rounded at every turn equals the unrounded sum |
| `OrderPricing.CartReconciles` | src/modules/orders/domain/order-pricing.ts:61-74 | for any number of lines the nets and taxes add up to the line totals and to the grand total |
| `OrderPricing.TaxDriftIsBounded` | src/modules/orders/domain/order-pricing.ts:66-74 | taxing line by line differs from taxing the subtotal by at most half a cent a line |
| `PriceTiers.ResolvedIsBest` | src/modules/commerce/application/services/price-list-item.service.ts:79-98 | the query answers exactly when some row qualifies, and then with a row no other qualifying row precedes |
| `PriceTiers.ResolvedIsTier` | src/modules/commerce/application/services/price-list-item.service.ts:79-98 | in the columns of the table: the answer is a row of that list and product whose minimum is reached and whose dates contain the day, with the largest such minimum and, among equals, created last; there is none exactly when no row applies |
| `PriceTiers.ResolvedIffBest` | src/modules/commerce/application/services/price-list-item.service.ts:94-97 | a row is the answer exactly when it is best, if and only if no other row ties with the best one |
| `PriceTiers.StorageOrderIrrelevant` | src/modules/commerce/application/services/price-list-item.service.ts:94-97 | where no other row ties with the best one, any two storage orders of the same rows, repeats included, give the same tier |
| `PriceTiers.StorageDoesNotMatterIff` | src/modules/commerce/application/services/price-list-item.service.ts:41-50 | for any table: the pick is the same in every storage order if and only if no other row ties with the best one |
| `PriceTiers.TiesDependOnStorage` | src/modules/commerce/application/services/price-list-item.service.ts:94-97 | the smallest failing tables: two rows that tie on both keys, stored either way |
| `PriceTiers.MoreNeverPicksSmallerTier` | src/modules/commerce/application/services/price-list-item.service.ts:91-94 | a larger quantity never loses its tier or gets one with a smaller minimum |
| `PriceTiers.SameBetweenBoundaries` | src/modules/commerce/application/services/price-list-item.service.ts:91-94 | quantities with no tier boundary between them select the same row |
| `CartPricing.Preview` | src/modules/orders/application/services/order.service.ts:226-302 | the loop of `preview`, roundings and all, yields the exact-sum order of the cart, or the first unknown product |
| `CartPricing.PriceLines` | src/modules/orders/application/services/order.service.ts:635-703 | the loop of `priceLines` yields the exact-sum order, or the error of the first bad line |
| `CartPricing.ResolvedIsItsPrice` | src/modules/orders/application/services/order.service.ts:715-734 | the price is that of the tier if and only if a list is in force and a row of it applies to the product, quantity and day; otherwise it is the catalogue price, and there is none exactly where the catalogue has none |
| `CartPricing.OrderedItem` | src/modules/orders/application/services/order.service.ts:658-702 | every item of an accepted order freezes SKU and name, carries its own such price within 1.5 cents of the claim, and its net and tax are the nearest cents to quantity times price and to the rate on that |
| `CartPricing.SettledItem` | src/modules/orders/application/services/order.service.ts:771-798 | every item of a snapshot order freezes SKU and name and keeps its settled price; net and stated tax are the nearest cents |
| `CartPricing.SnapshotLines` | src/modules/orders/application/services/order.service.ts:767-802 | the loop of `snapshotLines` yields the exact-sum order of already settled prices |
| `CartPricing.FirstErrorDecides` | src/modules/orders/application/services/order.service.ts:662-682 | the first line with something wrong decides the error, whatever follows |
| `CartPricing.AcceptedIff` | src/modules/orders/application/services/order.service.ts:671-682 | a cart is accepted if and only if every line can be priced and every claimed price matches |
| `CartPricing.CreateChargesWhatPreviewShows` | src/modules/orders/application/services/order.service.ts:627-634 | claimed prices and taxes decide acceptance only: an accepted order has the previewed subtotal, tax and grand total |
| `CartPricing.PreviewedCartIsAccepted` | src/modules/orders/application/services/order.service.ts:214-225 | a cart claiming exactly the previewed prices is accepted if and only if the preview has no unavailable line |
| `CartPricing.PreviewSkipsUnavailable` | src/modules/orders/application/services/order.service.ts:265-276 | the totals of a preview are those of the cart without its unavailable lines |
| `CartPricing.ShownItem` | src/modules/orders/application/services/order.service.ts:258-291 | what a preview reports of each line, in order: product, quantity, its own price and where it is from, or that it has none |
| `CartPricing.CreatedOrderReconciles` | src/modules/orders/application/services/order.service.ts:658-702 | the line totals of every accepted order add up to subtotal plus tax and to the grand total, with the tax drift bounded |
| `CartPricing.LoadProducts` | src/modules/orders/application/services/order.service.ts:600-609 | the first line naming an unknown product is the one reported, and only then is anything reported |
| `QuotePricing.StoredDiscount` | src/modules/quotes/domain/quote-pricing.ts:49-57 | a manual price between nothing and the list is recorded as a discount from 0 to 100 percent, within half a hundredth of a percent of the true one |
| `QuotePricing.NegotiatedPriceIs` | src/modules/quotes/domain/quote-pricing.ts:32-68 | what is charged and what is recorded in every case: a price, a discount, neither or both, each to the nearest cent or hundredth |
| `QuotePricing.DiscountExplainsPrice` | src/modules/quotes/domain/quote-pricing.ts:20-68 | whichever of price and discount was sent, the recorded discount explains the effective price to within L/20000 plus half a cent; a price at or above list is recorded as none, and only a line with both is refused |
| `QuotePricing.RepriceDrift` | src/modules/quotes/domain/quote-pricing.ts:49-65 | re-pricing a manual price from its recorded discount misses it by at most L/20000 plus half a cent |
| `QuotePricing.RoundTripIsExactIff` | src/modules/quotes/domain/quote-pricing.ts:49-65 | for any list price and any price in cents: re-pricing gives the price back if and only if it is the list price, or at least half a hundredth of a percent below it and explained by some discount the column holds |
| `QuotePricing.RoundTripBelowHundred` | src/modules/quotes/domain/quote-pricing.ts:49-65 | up to a list price of 100.00, of any decimals: if and only if the price is the list price, or below it by at least half a hundredth of a percent |
| `QuotePricing.RoundTripOfCentsIff` | src/modules/quotes/domain/quote-pricing.ts:49-65 | on a list price in cents, of any size: if and only if list less some percentage in hundredths rounds to the price |
| `QuotePricing.SurchargeIsLost` | src/modules/quotes/domain/quote-pricing.ts:51-56 | a price above list comes back as the list price |
| `QuotePricing.PricesNotRestored` | src/modules/quotes/domain/quote-pricing.ts:49-65 | two prices that are lost: 60.00 on a list of 50.00, and 50.00 on a list of 50.001 |
| `QuotePricing.RepriceIsExactIff` | src/modules/quotes/domain/quote-pricing.ts:49-65 | on a list price in cents, every manual price at or below list survives re-pricing if and only if the list is at most 100.00 |
| `QuoteItems.PriceItems` | src/modules/quotes/application/services/quote.service.ts:454-512 | the loop of `priceItems` yields the exact-sum quote or the error of the first bad line |
| `QuoteItems.ListPriceIs` | src/modules/quotes/application/services/quote.service.ts:471-476 | with a list in force the list price is that of its applicable tier and never the catalogue; without one it is the catalogue price |
| `QuoteItems.QuoteLineIs` | src/modules/quotes/application/services/quote.service.ts:468-508 | a line is refused for want of a price exactly when the list in force has none for it, whatever the catalogue says, or no list is in force and the catalogue has none; otherwise it has its list price, what was negotiated on it, and nearest-cent net and tax |
| `QuoteItems.QuotedItem` | src/modules/quotes/application/services/quote.service.ts:468-508 | a quote has such an item for every line, in order |
| `QuoteItems.QuotedItems` | src/modules/quotes/application/services/quote.service.ts:489-508 | the totals of a quote are the sums over its items, each of which reconciles to the cent |
| `QuoteItems.ConversionPreservesMoney` | src/modules/quotes/application/services/quote.service.ts:293-304 | with quantities and prices at two decimals, the order `snapshotLines` rebuilds from the stored quote has the same totals and the same money on every line |
| `QuoteItems.RepricedLine` | src/modules/quotes/application/services/quote.service.ts:199-225 | a line sold at any manual price, stored and re-priced by `update` on the same list price: the price comes back if and only if it was list or a recordable discount explains it, the whole line if and only if its quantity has two decimals besides; the drift bound at or below list |
| `QuoteItems.EffectiveInCents` | src/modules/quotes/domain/quote-pricing.ts:49-67 | a negotiated price is always in cents, so only a list price with more decimals can stray |
| `QuoteItems.QuantitySurvivesIff` | src/modules/quotes/domain/entities/quote-item.entity.ts:55-61 | storage keeps the net of a line at every price if and only if its quantity has two decimals |
| `Inventory.Mutated` | src/modules/inventory/domain/inventory.aggregate.ts:57-105 | every accepted mutation leaves 0 <= reserved <= stock |
| `Inventory.AcceptedIffValid` | src/modules/inventory/domain/inventory.aggregate.ts:57-135 | the guards refuse exactly what would break the invariant: a mutation is accepted if and only if its quantity is well formed and the row it leaves is valid |
| `Inventory.RefusalStates` | src/modules/inventory/domain/inventory.aggregate.ts:57-91 | a refusal for want of stock says how much there was and how much was asked |
| `Inventory.MutationAccounts` | src/modules/inventory/domain/inventory.aggregate.ts:57-105 | each mutation moves exactly the quantity it names, between the shelf, the reservation and outside, and nothing else |
| `Inventory.ConsumeIsReleaseAndAdjust` | src/modules/inventory/domain/inventory.aggregate.ts:75-84 | selling reserved stock is releasing it and taking it off the shelf |
| `Inventory.ReserveThenRelease` | src/modules/inventory/domain/inventory.aggregate.ts:57-73 | a release undoes the reserve before it |
| `Inventory.Aggregate.FromSnapshot` | src/modules/inventory/domain/inventory.aggregate.ts:34-43 | a stored row that breaks the invariant cannot be loaded |
| `Inventory.Aggregate.Reserve` | src/modules/inventory/domain/inventory.aggregate.ts:57-64 | the object ends as the mutation says, or unchanged with the error |
| `Inventory.Aggregate.Release` | src/modules/inventory/domain/inventory.aggregate.ts:66-73 | the same for a release |
| `Inventory.Aggregate.ConsumeReserved` | src/modules/inventory/domain/inventory.aggregate.ts:75-84 | the same for a sale |
| `Inventory.Aggregate.Adjust` | src/modules/inventory/domain/inventory.aggregate.ts:86-99 | the same for an adjustment |
| `Inventory.Aggregate.Restock` | src/modules/inventory/domain/inventory.aggregate.ts:101-105 | the same for a restock |
| `Inventory.Aggregate.AssertInvariants` | src/modules/inventory/domain/inventory.aggregate.ts:126-135 | raises exactly on a row that breaks the invariant |
| `StockTable.UpsertAllRows` | src/modules/inventory/infrastructure/persistence/typeorm-inventory.repository.ts:287-296 | with distinct keys every key is written once, from its old row, and no other row changes |
| `StockTable.UpsertKeepsValid` | src/modules/inventory/infrastructure/persistence/typeorm-inventory.repository.ts:284-293 | an upsert of any non-negative quantities keeps every row valid and every reservation |
| `StockTable.ChunkSizeIrrelevant` | src/modules/inventory/infrastructure/persistence/typeorm-inventory.repository.ts:242-268 | for every chunk size a batch of distinct keys gives the same table, count and clamped list |
| `StockTable.ZeroKeepsValid` | src/modules/inventory/infrastructure/persistence/typeorm-inventory.repository.ts:299-317 | zeroing keeps every row valid and every reservation |
| `StockTable.ZeroedAt` | src/modules/inventory/infrastructure/persistence/typeorm-inventory.repository.ts:299-317 | a row drops to what is reserved if and only if it is of one of the branches, unlisted, and holds more than that; an empty list zeroes nothing |
| `StockTable.InventoryRepository.Mutate` | src/modules/inventory/infrastructure/persistence/typeorm-inventory.repository.ts:152-198 | a row is written only if the aggregate accepted the mutation |
| `StockTable.InventoryRepository.UpsertChunk` | src/modules/inventory/infrastructure/persistence/typeorm-inventory.repository.ts:273-297 | one statement writes all its rows, or none if it would touch a key twice |
| `StockTable.InventoryRepository.Requested` | src/modules/inventory/infrastructure/persistence/typeorm-inventory.repository.ts:232-237 | the quantity each known key asked for, the last one winning |
| `StockTable.InventoryRepository.CollectClamped` | src/modules/inventory/infrastructure/persistence/typeorm-inventory.repository.ts:248-266 | exactly the returned rows stored above what was asked for |
| `StockTable.InventoryRepository.WriteChunk` | src/modules/inventory/infrastructure/persistence/typeorm-inventory.repository.ts:243-267 | one turn of the chunk loop: table, count and clamped list |
| `StockTable.InventoryRepository.BulkUpsertStock` | src/modules/inventory/infrastructure/persistence/typeorm-inventory.repository.ts:218-271 | all chunks or none: a failing chunk restores the table |
| `StockTable.InventoryRepository.ZeroOutMissing` | src/modules/inventory/infrastructure/persistence/typeorm-inventory.repository.ts:299-317 | exactly the unlisted rows of the branches drop to what is reserved, and their number is returned; an empty list is refused |
| `OrderStock.ReserveLoopAccounts` | src/modules/orders/application/services/order.service.ts:573-584 | wherever the reserving loop stops, it has reserved the demand of the lines before that point, repeated SKUs included, and moved no stock |
| `OrderStock.ReserveLoopTakes` | src/modules/orders/application/services/order.service.ts:565-585 | in the quantities the lines state: wherever the loop stops, each row has gained what its lines up to there state, each line rounded up to whole pieces |
| `OrderStock.OneLineMoves` | src/modules/orders/application/services/order.service.ts:573-597 | one turn of either loop moves the row of its SKU at the branch by the line's quantity rounded up |
| `OrderStock.ReserveCompletesIff` | src/modules/orders/application/services/order.service.ts:565-585 | over any table the reserving loop finishes if and only if every line has a valid row, states a positive quantity, and the lines of a row fit what is available there |
| `OrderStock.ReserveStopsAt` | src/modules/orders/application/services/order.service.ts:578-582 | a missing row is reported with the SKU of the line it stopped at |
| `OrderStock.ReleaseLoopAccounts` | src/modules/orders/application/services/order.service.ts:590-597 | where every row covers the demand, the releasing loop finishes and returns exactly the demand |
| `OrderStock.ReleaseLoopGives` | src/modules/orders/application/services/order.service.ts:587-598 | in the quantities the lines state: each row has lost what its lines up to there state, each line rounded up |
| `OrderStock.ReserveThenReleaseRestores` | src/modules/orders/application/services/order.service.ts:565-598 | releasing what a complete reserve took restores every row and never fails |
| `OrderStock.ReleaseCompletesIff` | src/modules/orders/application/services/order.service.ts:587-598 | over any table and lines the releasing loop finishes if and only if every row that a line names is valid and reserves the positive quantities its lines add up to; missing rows are passed over |
| `OrderStock.OrderService.ReserveForOrder` | src/modules/orders/application/services/order.service.ts:565-585 | the loop leaves what the specification says, and stops on its error |
| `OrderStock.OrderService.ReleaseForOrder` | src/modules/orders/application/services/order.service.ts:587-598 | the same for the releasing loop, which passes over missing rows |
| `OrderStock.OrderService.TransitionTo` | src/modules/orders/application/services/order.service.ts:512-537 | status and history move together and the trail stays unbroken |
| `OrderStock.OrderService.Confirm` | src/modules/orders/application/services/order.service.ts:417-429 | confirmed exactly when every line was reserved; a failed loop keeps the status and its earlier lines |
| `OrderStock.OrderService.Prepare` | src/modules/orders/application/services/order.service.ts:439-452 | only a confirmed order becomes preparing; every refusal changes nothing |
| `OrderStock.OrderService.Cancel` | src/modules/orders/application/services/order.service.ts:454-467 | releases if and only if the order was confirmed or preparing, then changes the status |
| `StockLedger.StepKeepsInv` | src/modules/orders/application/services/order.service.ts:417-467 | every single reserve, release, status change, adjustment and sync step keeps rows valid and reserved >= what is owed |
| `StockLedger.EveryRunIsCovered` | src/modules/orders/application/services/order.service.ts:417-467 | so does every permitted run, with orders interleaving line by line and loops failing partway |
| `StockLedger.NextReleaseIsCovered` | src/modules/orders/application/services/order.service.ts:587-598 | the next line of any cancel in progress is covered by its row |
| `StockLedger.CancelNeverRaises` | src/modules/inventory/domain/inventory.aggregate.ts:66-70 | no permitted run from empty order books reaches a cancel whose release is refused |
| `StockLedger.UninterruptedConfirm` | src/modules/orders/application/services/order.service.ts:565-585 | left alone, the steps of a confirm are the loop of `reserveForOrder` |
| `StockLedger.UninterruptedCancel` | src/modules/orders/application/services/order.service.ts:587-598 | and the steps of a cancel are the loop of `releaseForOrder` |
| `StockLedger.ConfirmThenCancelRestores` | src/modules/orders/application/services/order.service.ts:417-467 | confirm, prepare or not, then cancel: every row and everything else is as it was, and the order is cancelled |
| `LedgerLimits.CancelCompletesIff` | src/modules/orders/application/services/order.service.ts:454-467 | a cancel of any order left alone, over any table, ends cancelled if and only if the table covers what the order gives back; otherwise a release is refused and the status stays |
| `LedgerLimits.PlacedPreparingRaises` | src/modules/orders/application/services/order.service.ts:174-212 | an order created as preparing, beside any others and over any rows: its cancel is refused if and only if the rows do not cover its lines; with nothing reserved, as soon as a line has a row |
| `LedgerLimits.BrokenCancelRaises` | src/modules/orders/application/services/order.service.ts:461-464 | a run from an empty book, any table and lines, with a cancel broken off after j releases: the next cancel is refused if and only if some row reserves less for others than those j lines ask; with nothing else reserved, if and only if j > 0 |
| `LedgerLimits.ConfirmStrands` | src/modules/orders/application/services/order.service.ts:417-429 | what a confirm, completed or refused, leaves set aside for nobody: what the order had a claim to before, or the lines reserved before the refusal |
| `LedgerLimits.ConfirmStrandsNothingIff` | src/modules/orders/application/services/order.service.ts:417-429 | a confirm strands nothing if and only if it completes for an order that was not preparing or is empty, or is refused before it reserved a line |
| `LedgerLimits.ConfirmThenCancelStrandsNothingIff` | src/modules/orders/application/services/order.service.ts:417-467 | the same of a confirm and a cancel behind it; that cancel is refused only if the confirm was, of a preparing order outside the ledger invariant |
| `LedgerLimits.CancelStrands` | src/modules/orders/application/services/order.service.ts:454-467 | a cancel that goes through strands nothing; one that is refused has given away what it released until then |
| `LedgerLimits.PlacingStrandsNothingIff` | src/modules/orders/application/services/order.service.ts:336-405 | a creation as confirmed strands nothing if and only if it completes, or is refused before it reserved a line |
| `LedgerLimits.RefusedConfirmStrandsOne` | src/modules/orders/application/services/order.service.ts:417-429 | a draft of two products of which one has a row: confirm, then cancel, and a piece stays reserved for no order |
| `LedgerLimits.EnvironmentSteps` | src/modules/inventory/infrastructure/persistence/typeorm-inventory.repository.ts:273-317 | what adjustments and syncs do to a row between the steps of orders |
| `LedgerLimits.RequestsBegin` | src/modules/orders/application/services/order.service.ts:417-467 | which requests on an order begin, by its status |
| `Text.ParseDecimal` | src/modules/stock-sync/infrastructure/feed/xlsx-stock-sheet.parser.ts:164-184 | reading back a printed number, as row numbers and string indexes need |
| `Text.ParseLeading` | src/modules/stock-sync/infrastructure/feed/rough-country-xlsx-feed.client.ts:26-31 | a number is read behind blanks and a sign, up to the first character that is no digit |
| `Text.NoNumber` | src/modules/stock-sync/infrastructure/feed/rough-country-xlsx-feed.client.ts:26-31 | where none stands there, there is no number |
| `Text.TrimCuts` | src/modules/stock-sync/infrastructure/feed/rough-country-xlsx-feed.client.ts:67 | trimming takes the blanks at both ends and nothing else |
| `Text.SpacesAre` | src/modules/stock-sync/infrastructure/feed/rough-country-xlsx-feed.client.ts:67 | which characters are blanks |
| `Text.LowerAt` | src/modules/stock-sync/infrastructure/feed/xlsx-stock-sheet.parser.ts:168 | lower case moves the letters A to Z and nothing else |
| `SheetReader.SheetParser.OnOpenTag` | src/modules/stock-sync/infrastructure/feed/xlsx-stock-sheet.parser.ts:179-202 | the handler on an opening tag updates the closure variables as the transition function says |
| `SheetReader.SheetParser.OnText` | src/modules/stock-sync/infrastructure/feed/xlsx-stock-sheet.parser.ts:204-209 | the same for text and CDATA, which are treated alike |
| `SheetReader.SheetParser.OnCloseTag` | src/modules/stock-sync/infrastructure/feed/xlsx-stock-sheet.parser.ts:211-239 | the same for closing tags, row endings and the missing-column error included |
| `SheetReader.SheetParser.FinishCell` | src/modules/stock-sync/infrastructure/feed/xlsx-stock-sheet.parser.ts:160-177 | the same for a finished cell: header row, wanted columns, shared strings |
| `SheetReader.SheetParser.Parse` | src/modules/stock-sync/infrastructure/feed/xlsx-stock-sheet.parser.ts:131-243 | pumping any events through the handlers is folding the transition function, and stops at the first error |
| `SheetReader.ParseSharedStrings` | src/modules/stock-sync/infrastructure/feed/xlsx-stock-sheet.parser.ts:90-123 | the string-table loop is the fold of its transition function |
| `SheetReader.RowNumberIs` | src/modules/stock-sync/infrastructure/feed/xlsx-stock-sheet.parser.ts:182-186 | a row has the number it states, or one more than the row before |
| `SheetReader.SharedTextIs` | src/modules/stock-sync/infrastructure/feed/xlsx-stock-sheet.parser.ts:163-166 | a shared text is the one at its index, and an index off the table means no text |
| `SheetReader.CellEnds` | src/modules/stock-sync/infrastructure/feed/xlsx-stock-sheet.parser.ts:160-178 | after a cell nothing of it is left, and one without a place is passed over |
| `SheetDocuments.ParseIsProjection` | src/modules/stock-sync/infrastructure/feed/xlsx-stock-sheet.parser.ts:131-243 | for every document, whatever its cell types, chunking and interspersed elements, the parse is the projection of the table it stands for, or the missing columns |
| `SheetDocuments.DataRowIsRead` | src/modules/stock-sync/infrastructure/feed/xlsx-stock-sheet.parser.ts:223-235 | a data row is kept, under its number, exactly when its projection is not empty |
| `SheetDocuments.HeaderRowIsRead` | src/modules/stock-sync/infrastructure/feed/xlsx-stock-sheet.parser.ts:167-169 | the header row names every wanted column or raises exactly the absent ones |
| `SheetPrinting.PrintParseRoundTrip` | src/modules/stock-sync/infrastructure/feed/xlsx-stock-sheet.parser.ts:131-243 | printing a table with any mix of encodings and chunkings and parsing it gives back the projection |
| `SheetPrinting.EncodedCellMeans` | src/modules/stock-sync/infrastructure/feed/xlsx-stock-sheet.parser.ts:160-177 | shared, inline and plain cells of a text all mean that text in that column |
| `SheetPrinting.SharedRoundTrip` | src/modules/stock-sync/infrastructure/feed/xlsx-stock-sheet.parser.ts:90-123 | the string table reads back as the texts it was printed from |
| `SheetPrinting.EncodingIrrelevant` | src/modules/stock-sync/infrastructure/feed/xlsx-stock-sheet.parser.ts:131-243 | two workbooks that print one table each in its own way parse alike |
| `SheetPrinting.FieldIff` | src/modules/stock-sync/infrastructure/feed/xlsx-stock-sheet.parser.ts:167-173 | in a sheet with distinct columns a field is the text of the one cell under its header, and present only then |
| `StockFeed.LastRow` | src/modules/stock-sync/infrastructure/feed/rough-country-xlsx-feed.client.ts:61-77 | the row kept for a SKU exists exactly when some row carries that SKU |
| `StockFeed.LastRowIsRead` | src/modules/stock-sync/infrastructure/feed/rough-country-xlsx-feed.client.ts:66-76 | of the last row that carries a SKU, the cell under `nv_stock` is the Nevada quantity and the one under `tn_stock` the Tennessee quantity |
| `StockFeed.QuantityRead` | src/modules/stock-sync/infrastructure/feed/rough-country-xlsx-feed.client.ts:26-31 | a written number means itself; a missing cell and a negative number mean none |
| `StockFeed.NotANumberMeansNone` | src/modules/stock-sync/infrastructure/feed/rough-country-xlsx-feed.client.ts:26-31 | so does a cell that does not start with a number |
| `StockFeed.BlankCount` | src/modules/stock-sync/infrastructure/feed/rough-country-xlsx-feed.client.ts:66-71 | the rows passed over are those that carry no SKU |
| `StockFeed.Skus` | src/modules/stock-sync/infrastructure/feed/rough-country-xlsx-feed.client.ts:63-77 | the non-blank SKUs, each once, in order of first appearance |
| `StockFeed.SkusInOrder` | src/modules/stock-sync/infrastructure/feed/rough-country-xlsx-feed.client.ts:61-77 | more rows add SKUs at the end only |
| `StockFeed.DeduplicatedIff` | src/modules/stock-sync/infrastructure/feed/rough-country-xlsx-feed.client.ts:61-79 | the feed is exactly the last rows of the non-blank SKUs, each once |
| `StockFeed.OrderedMap.Set` | src/modules/stock-sync/infrastructure/feed/rough-country-xlsx-feed.client.ts:63-76 | overwriting a key of a `Map` keeps its place |
| `StockFeed.Deduplicate` | src/modules/stock-sync/infrastructure/feed/rough-country-xlsx-feed.client.ts:61-79 | the loop over the sheet rows yields that feed and counts the blank rows |
| `StockFeed.FetchStockRows` | src/modules/stock-sync/infrastructure/feed/rough-country-xlsx-feed.client.ts:43-85 | a workbook gives the deduplicated projection; transport and parse failures both count as unavailable |
| `StockSync.FetchWithRetry` | src/modules/stock-sync/application/services/rough-country-stock-sync.service.ts:239-270 | asks until the first answer that is not "unavailable" or the attempts run out, at least once, waiting base * (2^k - 1) in all |
| `StockSync.FetchIsDetermined` | src/modules/stock-sync/application/services/rough-country-stock-sync.service.ts:247-269 | the answer and the number of calls are fixed by the feed and the attempts |
| `StockSync.BulkRowsIff` | src/modules/stock-sync/application/services/rough-country-stock-sync.service.ts:160-173 | the batch holds exactly two rows a matched SKU, one a branch |
| `StockSync.BulkRowsAt` | src/modules/stock-sync/application/services/rough-country-stock-sync.service.ts:160-173 | they follow the feed: of each row the Nevada quantity and then the Tennessee quantity |
| `StockSync.ImportedIsImport` | src/modules/stock-sync/application/services/rough-country-stock-sync.service.ts:131-181 | the writes of a run are the declarative import: listed SKUs at max(feed, reserved), unlisted rows of the branches at reserved, all else untouched |
| `StockSync.ImportIsDetermined` | src/modules/stock-sync/application/services/rough-country-stock-sync.service.ts:131-181 | that statement leaves exactly one possible table |
| `StockSync.ImportedKeepsReservations` | src/modules/inventory/infrastructure/persistence/typeorm-inventory.repository.ts:284-296 | an import keeps every row valid and every reserved quantity |
| `StockSync.ClampedIff` | src/modules/inventory/infrastructure/persistence/typeorm-inventory.repository.ts:253-265 | the clamped list is exactly the rows with more reserved than the feed has |
| `StockSync.SameBranchIsRefused` | src/modules/inventory/infrastructure/persistence/typeorm-inventory.repository.ts:287-296 | with one branch configured twice every chunk size fails and nothing is written |
| `StockSync.StockSyncService.Execute` | src/modules/stock-sync/application/services/rough-country-stock-sync.service.ts:117-228 | succeeds if and only if the feed is usable, the branches differ and nothing fails; what each failure leaves in the table |
| `StockSync.StockSyncService.ImportFeed` | src/modules/stock-sync/application/services/rough-country-stock-sync.service.ts:135-205 | the writes and the report of a non-empty feed, by the database call that fails |
| `StockSync.StockSyncService.WriteStock` | src/modules/stock-sync/application/services/rough-country-stock-sync.service.ts:175-181 | the batch in one transaction, then the zero-out |
| `StockSync.StockSyncService.KeepKnown` | src/modules/stock-sync/application/services/rough-country-stock-sync.service.ts:143-149 | the feed rows whose SKUs exist in the catalogue |
| `StockSync.SheetReachesShelf` | src/modules/stock-sync/application/services/rough-country-stock-sync.service.ts:117-228 | from the printed sheet to the shelf: a known SKU ends in Nevada at what its last row has under `nv_stock` and in Tennessee at what it has under `tn_stock`, or what is reserved there if more, however the workbook was written |
| `StockSync.NumbersReachShelf` | src/modules/stock-sync/application/services/rough-country-stock-sync.service.ts:160-181 | with the numbers n and m in those cells the two branches get n and m |
| `StockSync.ReachedIs` | src/modules/stock-sync/application/services/rough-country-stock-sync.service.ts:140-205 | what a run leaves by the database call that fails: nothing, the listed rows, or the whole import |
| `FeedRetries.ProjectionFailsIff` | src/modules/stock-sync/infrastructure/feed/xlsx-stock-sheet.parser.ts:222-231 | the parse of a table fails if and only if some header row leaves a wanted column without a name |
| `FeedRetries.UnavailableWorkbookIff` | src/modules/stock-sync/infrastructure/feed/rough-country-xlsx-feed.client.ts:46-59 | a workbook reads as unavailable if and only if a header row lacks a wanted column |
| `FeedRetries.WorkbookIsRetriedIff` | src/modules/stock-sync/application/services/rough-country-stock-sync.service.ts:230-269 | a workbook is asked for again, up to the last attempt, if and only if a header row lacks a wanted column; otherwise it is asked for once |
| `FeedRetries.DownloadIsRetried` | src/modules/stock-sync/application/services/rough-country-stock-sync.service.ts:247-269 | a failed download is asked for just as often; one that breaks off or is not well-formed only once |
| `FeedRetries.UnnamedColumnIsUnusable` | src/modules/stock-sync/infrastructure/feed/xlsx-stock-sheet.parser.ts:222-231 | every sheet whose first row names one of the wanted columns nowhere is such a workbook |
| `FeedRetries.EmptyHeaderIsRetried` | src/modules/stock-sync/application/services/rough-country-stock-sync.service.ts:230-269 | one of them, fetched three times at three attempts |
| `QuoteConversion.StepKeepsInv` | src/modules/quotes/application/services/quote.service.ts:162-352 | every step of every operation, and every crash, keeps the protocol invariant |
| `QuoteConversion.RunKeepsInv` | src/modules/quotes/application/services/quote.service.ts:278-352 | so does every run; orders, conversions, recorded order ids and the items of a sent quote are final |
| `QuoteConversion.StatusFollowsTheTable` | src/modules/quotes/domain/quote-status.ts:46-63 | in every reachable state each step moves a quote only along the transition table; only a draft is edited or disappears, and only a claim converts |
| `QuoteConversion.AtMostOneOrder` | src/modules/quotes/application/services/quote.service.ts:266-277 | any number of interleaved and crashing converts makes at most one order a quote |
| `QuoteConversion.OrdersComeFromConversions` | src/modules/quotes/application/services/quote.service.ts:283-320 | an order exists only of a converted quote, and a recorded id names an order of that quote |
| `QuoteConversion.ShipsWhatWasSent` | src/modules/quotes/application/services/quote.service.ts:293-304 | an order whose call loaded the quote past draft has the lines the quote was sent with |
| `QuoteConversion.OrderCarriesQuotedMoney` | src/modules/quotes/application/services/quote.service.ts:293-304 | over every run, such an order has the totals and line amounts the quote was priced with |
| `QuoteConversion.QuoteService.Transition` | src/modules/quotes/application/services/quote.service.ts:330-352 | allowed exactly from the table's status and before expiry; the error otherwise |
| `QuoteConversion.QuoteService.Update` | src/modules/quotes/application/services/quote.service.ts:162-243 | only a draft is edited |
| `QuoteConversion.QuoteService.Delete` | src/modules/quotes/application/services/quote.service.ts:257-267 | only a draft is deleted |
| `QuoteConversion.QuoteService.UpdateWhere` | src/modules/quotes/application/services/quote.service.ts:283-286 | the compare-and-set changes one row or none |
| `QuoteConversion.QuoteService.Convert` | src/modules/quotes/application/services/quote.service.ts:278-328 | undisturbed, it is the four steps of the protocol, and succeeds exactly for an approved quote with a valid payload of known products |
| `QuoteRules.StoredItem` | src/modules/quotes/domain/entities/quote-item.entity.ts:40-75 | storing a quote line rounds each of its amounts to the nearest cent |
| `QuoteRules.OrderedLine` | src/modules/quotes/application/services/quote.service.ts:293-304 | the order line of a quote line has its product and its stored quantity, price and tax |
| `QuoteRules.ValidPayloadIff` | src/modules/orders/infrastructure/http/dto/order.dto.ts:22-45 | what can become an order: an account, quantities of a hundredth at least, no negative price or tax |
| `QuoteRules.AuthorsDraft` | src/modules/quotes/application/services/quote.service.ts:103-160 | a new quote is a draft under a new id |
| `QuoteRules.EditsIff` | src/modules/quotes/application/services/quote.service.ts:162-243 | a quote is edited if and only if it is a draft; its date and lines change |
| `QuoteRules.SendsIff` | src/modules/quotes/domain/quote-status.ts:46-63 | a draft is sent whatever its date |
| `QuoteRules.AnswersIff` | src/modules/quotes/domain/quote-visibility.ts:96-108 | a sent quote is approved or rejected up to its date and not after it |
| `QuoteRules.LinksIff` | src/modules/customers/application/services/customer-profile.service.ts:247-258 | a quote without a customer gets one, and one that has a customer keeps it |
| `QuoteRules.RemovesIff` | src/modules/quotes/application/services/quote.service.ts:257-267 | only a draft is removed, and nothing else with it |
| `QuoteRules.ClaimsIff` | src/modules/quotes/application/services/quote.service.ts:283-291 | a claim takes effect on an approved quote only |
| `QuoteRules.SubmitsIff` | src/modules/quotes/application/services/quote.service.ts:293-312 | a claimed call makes the order of what it had read if and only if that is valid and its products are known; otherwise it ends |
| `QuoteRules.RecordsOrder` | src/modules/quotes/application/services/quote.service.ts:313-320 | the last step writes the order's id to the quote |
| `QuoteRules.ConversionLeavesOrder` | src/modules/quotes/application/services/quote.service.ts:278-328 | a conversion left alone makes one order of the quote's lines for its customer and leaves the quote converted with its id |
| `QuoteRules.QuoteBecomesOrder` | src/modules/quotes/application/services/quote.service.ts:278-328 | a quote can become an order: written, sent, approved by its date and converted, it has one |
| `QuoteRules.LoadsAndStops` | src/modules/quotes/application/services/quote.service.ts:278-283 | a call that loads a quote has read it as it is |
| `QuoteLimits.FreshLoadShipsSentIff` | src/modules/quotes/application/services/quote.service.ts:281-304 | a call is sure to ship the sent lines if and only if its load saw the quote past draft, or a quote no order can be made of |
| `QuoteLimits.OvertakenShipsTheDraft` | src/modules/quotes/application/services/quote.service.ts:281-304 | a call that loaded a draft ships that draft although other lines were sent and approved meanwhile |
| `QuoteLimits.ConversionStrandsIff` | src/modules/quotes/application/services/quote.service.ts:283-320 | an undisturbed conversion of an approved quote strands it if and only if its payload is invalid or names a product that is gone, and makes its order otherwise |
| `QuoteLimits.UnorderableIsStranded` | src/modules/quotes/application/services/quote.service.ts:266-277 | and a quote stranded so never gets an order in any continuation |
| `QuoteLimits.StrandedForGood` | src/modules/quotes/application/services/quote.service.ts:274-276 | no operation of the service gives such a quote its order |
| `QuoteLimits.SentLateStaysSent` | src/modules/quotes/domain/quote-visibility.ts:96-108 | a quote sent after its validity date can never be approved, rejected or corrected |
| `QuoteLimits.SentIsStuckIff` | src/modules/quotes/domain/quote-visibility.ts:96-108 | a sent quote cannot leave its status any more if and only if it has expired |
| `Payments.Priced` | src/modules/shipping/application/services/shipping-quote.service.ts:212-214 | the rates kept are exactly those with a positive amount |
| `Payments.PricedInOrder` | src/modules/shipping/application/services/shipping-quote.service.ts:212-214 | in the order they came |
| `Payments.Chosen` | src/modules/shipping/application/services/shipping-quote.service.ts:288-294 | a rate is found exactly when one with that id is on offer |
| `Payments.ChosenIsFirst` | src/modules/shipping/application/services/shipping-quote.service.ts:288-289 | it is the first one with that id |
| `Payments.Latest` | src/modules/payments/application/services/polar-webhook.service.ts:134-139 | the order's checkout created last |
| `Payments.Database.InsertIfNew` | src/shared/database/insert-if-new.ts:15-35 | the row goes in exactly when its key was not there |
| `Payments.Database.FindOpen` | src/modules/payments/domain/checkout-status.ts:14-19 | finds a checkout exactly when the order has one in a non-terminal status |
| `Payments.ShippingQuoteService.AssertRepriceable` | src/modules/shipping/application/services/shipping-quote.service.ts:123-140 | refuses a paid order and an order with a live checkout |
| `Payments.ShippingQuoteService.QuoteForOrder` | src/modules/shipping/application/services/shipping-quote.service.ts:150-233 | replaces the rates on offer and nothing else, or fails with the right error |
| `Payments.ShippingQuoteService.SelectRate` | src/modules/shipping/application/services/shipping-quote.service.ts:276-309 | prices an offered rate into the order, or changes nothing |
| `Payments.PolarCheckoutService.CreateForOrder` | src/modules/payments/application/services/polar-checkout.service.ts:50-110 | opens a checkout of the order's total behind every guard, or changes nothing |
| `Payments.PolarWebhookService.Handle` | src/modules/payments/application/services/polar-webhook.service.ts:64-97 | records a key once and runs its handler only then |
| `Payments.PolarWebhookService.HandleOrderPaid` | src/modules/payments/application/services/polar-webhook.service.ts:105-165 | order paid, its checkout closed, its payment recorded once |
| `Payments.PolarWebhookService.HandleCheckoutStatus` | src/modules/payments/application/services/polar-webhook.service.ts:185-200 | sets the status of the named checkout |
| `Payments.PolarWebhookService.HandleOrderRefunded` | src/modules/payments/application/services/polar-webhook.service.ts:173-181 | the order is refunded and nothing else changes |
| `PaymentRules.PlacesOrder` | src/modules/orders/application/services/order.service.ts:336-366 | a new order is pending, with the total of net and tax, without freight or rates |
| `PaymentRules.OrderIsPaid` | src/modules/payments/application/services/polar-checkout.service.ts:50-110 | an order can be paid: placed, quoted, its rate accepted and a checkout opened, it is charged net, tax and freight to the cent, and the payment of that settles it |
| `PaymentRules.OpensIff` | src/modules/payments/application/services/polar-checkout.service.ts:57-109 | a checkout is opened if and only if the order exists with a positive total, is not paid, has its freight accepted, nothing of it may still be charged and the id is new; it is for the order's total and nothing else changes |
| `PaymentRules.RefusalIsTrue` | src/modules/payments/application/services/polar-checkout.service.ts:57-87 | every refusal names a cause that holds |
| `PaymentRules.PaidIsNotCharged` | src/modules/payments/application/services/polar-checkout.service.ts:62-64 | no checkout is opened for a paid order |
| `PaymentRules.PaidStaysAsItIs` | src/modules/payments/application/services/polar-checkout.service.ts:62-64 | over any run without a refund of it a paid order keeps every column and gets no checkout |
| `PaymentRules.SelectsIff` | src/modules/shipping/application/services/shipping-quote.service.ts:276-309 | a rate is accepted if and only if the order exists, is not paid, has nothing that may still be charged and the rate is on offer; what is written then |
| `PaymentRules.QuotesIff` | src/modules/shipping/application/services/shipping-quote.service.ts:150-233 | new rates are stored under the same conditions if some rate has a price; what is written then |
| `PaymentRules.SameEventIff` | src/modules/payments/application/services/polar-webhook.service.ts:65 | two deliveries are the same event if and only if type and id agree |
| `PaymentRules.RefundTakesEffect` | src/modules/payments/application/services/polar-webhook.service.ts:173-181 | the first refund of an order marks it refunded, also after a payment with the same id |
| `PaymentRules.PaymentTakesEffect` | src/modules/payments/application/services/polar-webhook.service.ts:105-162 | the first payment marks its order paid and is recorded once, with its amount or the order's total |
| `PaymentRules.NamedCheckoutIsClosed` | src/modules/payments/application/services/polar-webhook.service.ts:129-144 | a payment that names a known checkout closes that one and touches no other |
| `PaymentRules.LastCheckoutIsClosed` | src/modules/payments/application/services/polar-webhook.service.ts:134-144 | one that names none closes the order's last |
| `PaymentRules.NewsTakesEffect` | src/modules/payments/application/services/polar-webhook.service.ts:185-200 | the first expiry or update of a checkout sets its status and nothing else |
| `PaymentRules.RepeatIsIgnored` | src/modules/payments/application/services/polar-webhook.service.ts:71-75 | a delivery of a type and id noted before changes nothing |
| `ChargeSafety.StepKeepsInv` | src/modules/payments/application/services/polar-checkout.service.ts:66-98 | every permitted call keeps the charge invariant |
| `ChargeSafety.ChargesAreSafe` | src/modules/payments/application/services/polar-checkout.service.ts:57-109 | over every permitted run an order has at most one checkout that can be charged, on an accepted rate, for exactly subtotal + tax + shipping - discount, in the cents the provider was given |
| `ChargeSafety.FreightMovesTheTotal` | src/modules/shipping/application/services/shipping-quote.service.ts:288-306 | accepting a rate that was on offer moves the total by exactly the difference in freight |
| `ChargeSafety.QuotingKeepsTheRate` | src/modules/shipping/application/services/shipping-quote.service.ts:212-230 | new rates leave an accepted one in force: what is charged and whether it may be charged do not change |
| `ChargeSafety.PaidInFullIff` | src/modules/payments/application/services/polar-webhook.service.ts:112-162 | the first payment of a reference marks the order paid whatever it states; what is recorded is the exact total if and only if it states no amount or the one its checkout was opened for |
| `ChargeSafety.OnePaymentPerReference` | src/modules/payments/application/services/polar-webhook.service.ts:146-162 | no run records two payments of one order under one reference |
| `ChargeSafety.PaymentClosesLiveIff` | src/modules/payments/application/services/polar-webhook.service.ts:128-144 | a payment leaves a live checkout behind exactly when it names another checkout |
| `ChargeSafety.ReopeningIsSafeIff` | src/modules/payments/application/services/polar-webhook.service.ts:194-199 | a late `checkout.updated` keeps charges safe if and only if nothing else is live and the total is unchanged |
| `ChargeSafety.CheckThenInsert` | src/modules/payments/application/services/polar-checkout.service.ts:81-109 | read and write of a call with nothing between are the call |
| `ChargeSafety.InsertIsSafeIff` | src/modules/payments/application/services/polar-checkout.service.ts:81-109 | the write, whatever happened since the read: charges stay safe if and only if they are safe at that point and the checkout comes back closed, or nothing of the order is live by then and its total is the one that was read |
| `ChargeSafety.InsertIsAloneIff` | src/modules/payments/application/services/polar-checkout.service.ts:81-90 | the part of it about one live checkout an order |
| `ChargeSafety.TwoReadersOpenTwice` | src/modules/payments/application/services/polar-checkout.service.ts:81-109 | two calls that both read before either wrote leave two live checkouts |
| `ChargeSafety.RepricedBetween` | src/modules/payments/application/services/polar-checkout.service.ts:81-109 | a rate accepted between read and write is harmless exactly when it leaves the total as it was |
| `ChargeSafety.SelectWriteIsSafeIff` | src/modules/shipping/application/services/shipping-quote.service.ts:276-309 | the write of an accepted rate after any permitted run since its read: safe if and only if nothing of the order is live by then or its total is the one written; it unmarks a payment that came in between |
| `ChargeSafety.QuoteWriteIsSafeIff` | src/modules/shipping/application/services/shipping-quote.service.ts:150-230 | the same of the write of a quote, with the total it had read |
| `WebhookReplay.RepeatsChangeNothing` | src/modules/payments/application/services/polar-webhook.service.ts:64-75 | any run ends as the same run with only the first delivery of each `type:id` |
| `WebhookReplay.FirstDeliveriesDiffer` | src/modules/payments/application/services/polar-webhook.service.ts:65-71 | the deliveries that remain are of different events |
| `WebhookReplay.NoEventIsLost` | src/modules/payments/application/services/polar-webhook.service.ts:65-75 | and every event is among them |
| `WebhookReplay.SameFirstsSameEnd` | src/modules/payments/application/services/polar-webhook.service.ts:64-75 | runs that agree on first deliveries end in the same tables |
| `WebhookReplay.FirstDeliveryDecides` | src/modules/payments/application/services/polar-webhook.service.ts:64-96 | an event has its effect at its first delivery if the handler goes through, and never if it throws |
| `WebhookReplay.ThrownIsLost` | src/modules/payments/application/services/polar-webhook.service.ts:67-96 | an event whose handler threw never takes effect, however often it is redelivered |
| `SyncLock.StepKeepsInv` | src/shared/database/postgres-sync.lock.ts:25-64 | every step between two awaits, every failing query, every session a pool closes and every crash keeps the lock invariant |
| `SyncLock.MutualExclusion` | src/shared/database/postgres-sync.lock.ts:25-64 | over every run at most one body runs under a key in the cluster, on the session in its replica's map, which owns the database lock |
| `SyncLock.SessionsAreAccounted` | src/shared/database/postgres-sync.lock.ts:28-63 | over every run each open session is in a pool, with one task, or in one map entry whose body runs, and in one of these only |
| `SyncLock.PostgresSyncLock.TryAcquire` | src/shared/database/postgres-sync.lock.ts:25-47 | true exactly when the map had no entry and the database granted; otherwise the session is returned and the map unchanged |
| `SyncLock.PostgresSyncLock.Release` | src/shared/database/postgres-sync.lock.ts:49-64 | the entry goes and the session returns whether or not the unlock works |
| `SyncLock.AcquireRun` | src/shared/database/postgres-sync.lock.ts:25-47 | undisturbed, the protocol's acquire steps are the method |
| `SyncLock.ReleaseRun` | src/shared/database/postgres-sync.lock.ts:49-64 | and so are its release steps |
| `SyncLock.LocksNest` | src/shared/database/postgres-sync.lock.ts:30-34 | the session that has a lock may take it again, no other may, and it is free once given up as often as taken |
| `SyncLock.ConnectsIff` | src/shared/database/postgres-sync.lock.ts:28-29 | a runner gets a session that lies in its own pool, or a new one |
| `LockFailures.LossIsHarmlessIff` | src/shared/database/postgres-sync.lock.ts:8-17 | in every reachable state the loss of a session keeps one body a key in all continuations if and only if nobody holds the session in a map or has just been granted a lock on it |
| `LockFailures.LostConnectionLetsTwoRun` | src/shared/database/postgres-sync.lock.ts:8-17 | a connection lost under a running body lets a second body run: the steps that show it |
| `LockFailures.LostGrantLetsTwoRun` | src/shared/database/postgres-sync.lock.ts:31-39 | so does one lost between the grant and the entry in the map |
| `LockFailures.FailedUnlockLeaks` | src/shared/database/postgres-sync.lock.ts:54-63 | after a failed unlock the session goes back to the pool with a lock nobody will give back |
| `LockFailures.LostReplyLeaks` | src/shared/database/postgres-sync.lock.ts:40-43 | so it does when the lock was granted and the reply was lost |
| `LockFailures.LeakLastsWithSession` | src/shared/database/postgres-sync.lock.ts:56-58 | over every run, however often the session is used again, it has that lock if and only if its replica has not crashed and its pool has not closed it |
| `LockFailures.LeakShutsOthersOut` | src/shared/database/postgres-sync.lock.ts:56-58 | until then no other replica runs a body under the key, and its own only through that session |
| `LockFailures.FailedUnlockShutsKey` | src/shared/database/postgres-sync.lock.ts:54-63 | a failed unlock in any reachable state, and any steps that leave the session idle: nobody runs a body under the key, not even its own replica |
| `Outbox.FindDue` | src/modules/notifications/application/services/outbox-drainer.service.ts:40-45 | a batch of due rows, earliest first, complete or full, always exists and is found |
| `Outbox.BatchIs` | src/modules/notifications/application/services/outbox-drainer.service.ts:40-45 | the batch in the columns of the table: different pending rows that are due, fifty at most, earliest first, none passed over unless the batch is full |
| `Outbox.OutcomeOf` | src/modules/notifications/application/services/outbox-drainer.service.ts:51-86 | what becomes of a row: skipped without an attempt, sent, failed at the fifth, or put off by 1, 2, 4 or 8 minutes |
| `Outbox.BackoffLadder` | src/modules/notifications/application/services/outbox-drainer.service.ts:13-18 | the wait after each number of attempts |
| `Outbox.TallyCounts` | src/modules/notifications/application/services/outbox-drainer.service.ts:47-90 | the report counts the rows of the batch by how they ended |
| `Outbox.OutboxDrainer.Drain` | src/modules/notifications/application/services/outbox-drainer.service.ts:39-90 | the loop processes the batch row by row, counts the outcomes, and stops at a refused save |
| `Outbox.OutboxDrainer.ProcessRow` | src/modules/notifications/application/services/outbox-drainer.service.ts:51-86 | skipped, sent, failed at the fifth attempt, or put off |
| `Outbox.DrainedRow` | src/modules/notifications/application/services/outbox-drainer.service.ts:51-86 | a drain processes each row of its batch once, from what it was, and touches no other |
| `Outbox.DrainProgress` | src/modules/notifications/application/services/outbox-drainer.service.ts:63-86 | a drain keeps pending below five attempts and failed at five, never touches a settled row, and uses up an attempt a row |
| `Outbox.AllSettled` | src/modules/notifications/application/services/outbox-drainer.service.ts:39-90 | n rows: at most 5n drains find anything, and after 5n such drains none is pending |
| `Outbox.FindsIff` | src/modules/notifications/application/services/outbox-drainer.service.ts:40-45 | a drain finds something exactly when a pending row has come due |
| `Outbox.WaitsAreBackoffs` | src/modules/notifications/application/services/outbox-drainer.service.ts:15-18 | a row waits for exactly the backoffs of its failures, each once |
| `Outbox.WaitsFifteenMinutes` | src/modules/notifications/application/services/outbox-drainer.service.ts:13-18 | at most fifteen minutes in all, and exactly that when it fails for good |
| `OutboxCluster.StepKeepsInv` | src/modules/notifications/infrastructure/scheduler/outbox.scheduler.ts:22-43 | every step of any replica, each send and save apart, keeps: sends = attempts + lost saves + the one in flight |
| `OutboxCluster.FiveSendsAtMost` | src/modules/notifications/infrastructure/scheduler/outbox.scheduler.ts:22-43 | over every run one drain at a time, and at most five sends a row besides those whose save was lost |
| `OutboxCluster.CleanRunsSendFiveTimes` | src/modules/notifications/infrastructure/scheduler/outbox.scheduler.ts:22-43 | without crashes and failed saves, at most five |
| `OutboxCluster.TwoDrainsSendTwice` | src/modules/notifications/infrastructure/scheduler/outbox.scheduler.ts:23-26 | two drains at one row send it twice and record one attempt, which is what the lock prevents |
| `OutboxCluster.TickIsDrain` | src/modules/notifications/infrastructure/scheduler/outbox.scheduler.ts:22-43 | left alone, the steps of a tick are the drain of one batch: each row that may be sent is sent once, and lock, map and drains are as before |
| `OutboxCluster.EnqueueAdds` | src/modules/notifications/application/services/outbox-drainer.service.ts:39-45 | a notification is enqueued pending, without attempts, for its time |
| `OutboxCluster.AbortEnds` | src/modules/notifications/infrastructure/scheduler/outbox.scheduler.ts:30-43 | an aborted drain ends, writes nothing, and loses the one send it had not saved |
| `OutboxCluster.OutboxScheduler.DrainOutbox` | src/modules/notifications/infrastructure/scheduler/outbox.scheduler.ts:22-43 | drains exactly when the lock was acquired, and releases it however the drain ends |
| `Parcels.ParcelFromLines` | src/modules/shipping/domain/parcel-from-lines.ts:69-123 | succeeds exactly for a non-empty list of lines with four positive measures each, with the packing of their sums; otherwise names the incomplete SKUs |
| `Parcels.IncompleteSkus` | src/modules/shipping/domain/parcel-from-lines.ts:77-93 | exactly the SKUs of incomplete lines |
| `Parcels.SortDescendingSorts` | src/modules/shipping/domain/parcel-from-lines.ts:104-106 | the three sides, sorted and no others |
| `Parcels.ParcelHoldsItsContents` | src/modules/shipping/domain/parcel-from-lines.ts:41-66 | every piece fits, the box has room for all of them, and the weight is right to half a gram |
| `Parcels.CartonIsNoLarger` | src/modules/shipping/domain/parcel-from-lines.ts:48-52 | length and width are the longest and the middle side of some line, rounded up, and the height is the stack, rounded up |
| `Parcels.SidesAre` | src/modules/shipping/domain/parcel-from-lines.ts:104-106 | which side is the longest, the middle and the thinnest |
| `Parcels.ParcelOfPermutation` | src/modules/shipping/domain/parcel-from-lines.ts:100-112 | the order of the lines does not matter |
| `Parcels.AddingALine` | src/modules/shipping/domain/parcel-from-lines.ts:48-52 | a line more shrinks nothing |
| `Parcels.RaisingAQuantity` | src/modules/shipping/domain/parcel-from-lines.ts:48-52 | a higher quantity shrinks nothing |
| `Parcels.SplittingALine` | src/modules/shipping/domain/parcel-from-lines.ts:101-103 | splitting a line never shrinks the parcel, and changes nothing when one part is whole |
| `Facets.ApplyFilters` | src/modules/pim/application/services/product.service.ts:46-75 | adds one condition a given part of the query, in order |
| `Facets.FiltersAreMatches` | src/modules/pim/application/services/product.service.ts:46-75 | the conditions hold exactly of the products that match the query, the skipped facet aside |
| `Facets.Search` | src/modules/pim/application/services/product.service.ts:77-92 | the total is the number of rows that satisfy the conditions |
| `Facets.FiltersAreHits` | src/modules/pim/application/services/product.service.ts:46-75 | in the columns of the catalogue: a product is found if and only if every part of the query that is given holds of it |
| `Facets.RowsAreCounted` | src/modules/pim/application/services/product.service.ts:77-92 | the total is the number of such products |
| `Facets.CountBy` | src/modules/pim/application/services/product.service.ts:111-130 | the grouped counts of one facet |
| `Facets.CountIsSearchTotal` | src/modules/pim/application/services/product.service.ts:94-110 | the count shown for an option is the search total with that facet set to it, and an option is listed exactly when that total is positive |
| `Facets.CountedProducts` | src/modules/pim/application/services/product.service.ts:111-130 | a facet counts under each value the products that have it and are found by the query without that facet |
| `Facets.CountsAddUp` | src/modules/pim/application/services/product.service.ts:94-110 | the counts of a facet add up to the products with the column set that match the other filters |
| `Facets.OwnSettingIsIgnored` | src/modules/pim/application/services/product.service.ts:100-106 | a facet's own setting changes none of its counts |

## Left out

- Binary floating point: amounts are exact, so neither representation error nor the exponential-notation branch of `round2` (src/modules/orders/domain/order-pricing.ts:40) is modelled; non-finite amounts, which `round2` rejects, cannot be written.
- Integer ranges: stock, quantities and identifiers are unbounded; a feed quantity past the column's range, which the database would reject, and a digit string so long that it parses to infinity are not modelled.
- Text: lower-casing covers the letters A to Z only, and surrogate pairs are not treated apart.
- Workbook plumbing: unzipping, finding the first sheet and tokenizing XML come before the model, which starts from the tokenizer's events.
- SheetPrinting.PrintParseRoundTrip: rows are printed with explicit numbers from 1 up; documents without row numbers are covered by SheetDocuments.ParseIsProjection.
- StockTable.InventoryRepository: rows are keyed by SKU and branch, because `pim.product.sku` is unique; a missing reserved quantity counts as zero, as the queries coalesce it; the order of a RETURNING set is that of the statement's rows.
- StockSync.StockSyncService.Execute: covers every chunk size from 2 up, of which the source's 1000 is one, and feeds with one row a SKU, which is what the feed client returns; the job log, the alerts and failures inside the error handler itself are not modelled; acquiring the run's lock is in SyncLock.
- StockLedger.CancelNeverRaises: assumes that calls on one order do not overlap, that nobody releases or consumes stock by hand, that `OrderService.update` does not set a status, and that a cancel is not broken off between its releases and its status change; LedgerLimits says exactly which cancels are refused without that.
- CartPricing.Preview: which price list applies to which customer is an input, and so are the instant and the tax rate.
- QuoteConversion.StepKeepsInv: `send`, `approve`, `reject`, `update` and `remove` are one step each, although the source reads before it writes; who may see or own a quote is not modelled.
- QuoteConversion.QuoteService.Update: takes the re-priced items as given; how they are priced is in QuoteItems.
- Payments.PolarCheckoutService.CreateForOrder: is one step, with the provider's answer as an input; ChargeSafety shows what happens when it is two, and the same for accepting a rate and for quoting. Who may see an order is not modelled.
- Payments.ShippingQuoteService.QuoteForOrder: the destination, the parcel override of staff and the provider's request are not modelled, only what is stored.
- ChargeSafety.ChargesAreSafe: assumes orders priced in cents, which CartPricing proves of them, and no `checkout.updated` for a checkout that is already closed.
- Payments.PolarWebhookService.Handle: a handler that throws saves nothing; the notification it emits is not modelled.
- SyncLock.MutualExclusion: sessions end only idle in their pool or with their replica; LockFailures.LossIsHarmlessIff says which other losses it survives.
- OutboxCluster.FiveSendsAtMost: rows are written by the drainer and by the service that enqueues them, and by nobody else.
- Outbox.FindDue: which of several rows due at the same time comes first is left open, as the query leaves it.
- Facets.FiltersAreMatches: the database's pattern match is an arbitrary predicate on two texts.
- Facets.Search: returns the total only; paging, ordering and the availability decoration are not modelled.
- Controllers, DTO validation apart from the payload of a conversion, authorization, notifications' wording, taxonomy, invoices and stamping: each is settled by reading one branch.
- Creation and listing of inventory rows, summaries, `OrderService.update`, and manual reserve and release: they add single-row reads and writes only.
