# Order pipeline: model and proofs

The service takes Shopify orders to a SYSPRO ERP and back: a webhook handler and a reconciliation sweeper stage orders in
PostgreSQL, a batch processor submits them over a single-session SYSPRO client, a stock syncer publishes SYSPRO's
availability less the orders not yet submitted, and a fulfilment syncer closes orders that SYSPRO has completed. This
project models that pipeline in Dafny and proves what it keeps over every run, with lost writes, crashes and restarts.
`dafny verify dfyconfig.toml` checks all of it.

The model has two layers.

* **Classes** with the source's fields and loops: `Store.Db` (tables; one method per SQL statement or transaction),
  `Enet.EnetClient` and `Enet.EnetSession`, `Batch.Processor`, `Inventory.Syncer` and `Inventory.ShopifyClient`,
  `Fulfilment.FulfilmentSyncer`, `Ingest.Handler`, `Reconcile.Sweeper`, `Reports.DailyReporter` and its fetcher and state
  file, `Migrate.Database`. Every method is proved against a specification of its new state and result.
* **State machines** for what interleaves: `Lifecycle` (orders, batch, fulfilment, retries, crashes), `Session` (any number
  of callers of the SYSPRO client), `Pipeline` (both of these with stock and the stock syncer), `Staging` (`Lifecycle`
  with deliveries, the sweep, the trigger channel and the debounce timer) and the report scheduler in `Reports`. Runs are
  sequences of states joined by steps; main results hold at every index of every run. `BatchTheorems.BatchIsARun`,
  `Fulfilment.CycleIsARun`,
  `StagingTheorems.HandlerIsARun` and `SweepIsARun`, and `Reports.DailyReporter.Check` show that the classes do what the
  machines do; `Pipeline.EveryRunIsALifecycleRun` and `StagingTheorems.EveryRunIsALifecycleRun` project the larger machines
  onto `Lifecycle`.

The environment is explicit. A database call meets a `Fault`: none, lost (nothing happens, an error comes back), or answer
lost (it happens, an error comes back). A remote call is an `Exchange` that fails or answers anything at all. Clocks, random
ids and gaps in sequences are parameters. Money is exact pence, rates and quantities are exact reals, and `%.2f` is rounding
to the nearest penny with ties to even.

## What the code does not guarantee

Each of these was a natural expectation, some of them written in comments; each has a run or an input that breaks it beside
the exact form that does hold.

* *An order is booked once.* A crash after SYSPRO accepts leaves the row `processing`, and a later boot requeues it
  (`LifecycleWitnesses.AnOrderCanBeBookedTwice`); an answer lost on the way back does it without a crash
  (`AnAmbiguousAnswerBooksTwice`), also when an operator's retry lies between the two calls (`ARetryBooksTwice`). The exact
  ledger over an order's whole life is `LifecycleRuns.LifeBookingsAreAccountedFor`: a second booking needs an ambiguous
  failure or a stale reset of an unrecorded booking at some time since the order was staged, and each of them allows one
  (`LifecycleRuns.BookedBeforeIffAmbiguousOrOrphaned`, `LifecycleWitnesses.BookingsHaveNoBound`).
* *A Shopify fulfilment is created once.* A crash or a lost write after a creation, or a creation whose answer is lost, leaves
  the row submitted; when Shopify still lists another open fulfilment order, the next cycle makes a second fulfilment
  (`LifecycleWitnesses.AnOrderCanBeFulfilledTwice`). `LifecycleRuns.FulfilmentsAreAccountedFor` is the exact ledger and
  `LifecycleRuns.FulfilledAgainIff` the exact condition.
* *A submitted order is fulfilled in the end.* One whose import SYSPRO accepted without an order number never is
  (`LifecycleRuns.CleanImportIsNeverFulfilled`), and neither is one whose only fulfilment order was closed by a creation that
  went unrecorded (`LifecycleWitnesses.AFulfilmentCanGoUnseen`). `FulfilmentFate.SubmittedIsFulfillableIff` is the exact
  condition, for every submitted row of every reachable state.
* *At most three attempts.* The stale reset counts up without a cap (`LifecycleWitnesses.AttemptsHaveNoBound`). Calls are
  bounded by three plus stale resets, and that is reached (`LifecycleWitnesses.SortoiBoundIsReached`).
* *Reservations rule out overselling* (comment at `internal/store/order.go:495-498`). An order accepted and recorded between
  the stock snapshot and the reservation read is counted by neither (`PipelineOversell.APushCanOversell`);
  `PipelineStock.PushExceedsFreeWhenItDrifts` is the exact condition for every push.
* *Every committed webhook order wakes the stock syncer.* It does when the handler sees the commit; when only the commit's
  answer is lost, nobody sends (`StagingRuns.LostCommitAnswerLosesTheWakeup`).
* *A 200 means the order is staged.* A webhook id that was already used for another order is answered 200
  (`StagingRuns.ReusedWebhookIdHidesAnOrder`).
* *Both ingestion paths build the same SORTOI document.* Lines and freight agree always; the header's shipping code is
  dropped by the sweeper, whose decoder has no field for it (`internal/reconcile/sweeper.go:316-320`). The sweeper also stages
  orders that the webhook refuses, because it does not validate them (`Reconcile.SweepStagesWhatTheWebhookRefuses`).
* *A day is reported once.* Not when writing the state file fails (`Reports.LostWriteRepeatsAReport`). The comment at
  `internal/payments/shopify_transactions.go:75-77` promises the transactions of the window; only those whose order is itself
  processed inside the window are found (`Reports.PaymentIsReportedIffOrderIsListed`).
* *Every migration runs.* Not when two files share a version (`Migrate.RepeatedVersionIsSkipped`) or a version is not
  positive (`NonPositiveVersionIsSkipped`); `Migrate.EveryFileRanIff` says that nothing else is skipped. A file that is added
  once a higher version is recorded is skipped as well (`Migrate.SuccessRunsTheNewer`).
* The comment at `internal/store/order.go:213-214` expects claims that another batch got first; with one process a claim
  never misses (`LifecycleRuns.BatchWritesHitTheirClaim`).

## Model

| member | source | states |
|---|---|---|
| Store.Db.WebhookExists | internal/store/order.go:26-36 | answers whether the id is in webhook_events, or an error under any fault |
| Store.Db.ShopifyOrdersExist | internal/store/order.go:81-104 | the answer is exactly the asked ids that have a row; asking for none never fails |
| Store.Db.CreateOrder | internal/store/order.go:106-186 | one transaction: either event, row and all lines are there and the id is returned, or nothing changed; which duplicate is reported, and what each fault leaves |
| Store.Db.ResetStaleProcessing | internal/store/order.go:188-211 | exactly the processing rows last written more than the limit ago return to pending with one more attempt |
| Store.Db.MarkOrderProcessing | internal/store/order.go:213-224 | compare-and-set: only a pending row is claimed, and true means this call claimed it |
| Store.Db.UpdateOrderSubmitted | internal/store/order.go:226-243 | unconditional write of one row; every other row is untouched |
| Store.Db.UpdateOrderStatus | internal/store/order.go:380-394 | unconditional write of one row; every other row is untouched |
| Store.Db.RetryOrder | internal/store/order.go:245-258 | only failed or dead-letter rows return to pending with attempts 0; any other row is reported as not found |
| Store.Db.FetchOrderLines | internal/store/order.go:315-336 | the order's lines in id order, none missing and none added |
| Store.Db.FetchPendingOrders | internal/store/order.go:262-313 | the oldest pending rows up to the limit, oldest first, with their lines; a pending row left out is no older than any row taken |
| Store.Db.FetchSubmittedOrders | internal/store/order.go:438-477 | all submitted, unfulfilled rows with a number, oldest first |
| Store.Db.UpdateOrderFulfilled | internal/store/order.go:480-493 | unconditional write of one row |
| Store.Db.FetchReservedQuantities | internal/store/order.go:499-522 | for every SKU the sum over lines of pending and processing orders |
| Store.InsertedIsValid | internal/store/order.go:106-186 | an insert keeps order ids unique, ids fresh and every line attached to a row |
| Store.LinesRoundTrip | internal/store/order.go:160-179 | lines read back after staging are the lines staged, in payload order, whatever gaps the id sequence has; and nothing else reads back |
| Store.OtherLinesKept | internal/store/order.go:106-186 | staging an order leaves the lines of every other order as they were |
| Store.ReservedAfterRewrite | internal/store/order.go:499-522 | rewriting a row moves a SKU's reservation by that order's quantity exactly when the row joins or leaves pending or processing |
| Store.ReservedAfterInsert | internal/store/order.go:499-522 | a newly staged order reserves exactly what its own lines order |
| Store.OrderedIsQuantity | internal/store/order.go:315-336 | what an order's rows in the lines table add up to per SKU is what its lines, read back, say |
| Session.MutualExclusion | internal/syspro/session.go:19-62 | in every interleaving of any number of callers at most one is between Lock and Unlock |
| Session.RequestsUseTheNewestSession | internal/syspro/client.go:95-122 | every request travels on the newest logon's guid, that session is still open unless something outside ended it, and no logon of ours evicted one of ours in use |
| Session.LocksAreReleasedOnce | internal/syspro/session.go:19-62 | each caller has unlocked once per finished lock, on every path, and only the holder unlocks |
| Enet.EpisodeReturnsOutside | internal/syspro/session.go:19-62 | every use of the client, failed logon included, follows the protocol and ends outside the lock |
| Enet.EpisodeEvents | internal/syspro/client.go:95-122 | an episode event by event: lock, logon, the requests once each in order on the guid, logoff, unlock; no request without a session |
| Enet.EnetClient.OpenSession | internal/syspro/session.go:19-28 | a session with the lock held and its guid, or an error with the lock released |
| Enet.EnetClient.SubmitSalesOrder | internal/syspro/client.go:95-122 | exactly one locked episode with the one SORTOI document; an order number makes it accepted under that number, an Order element without one or no items processed makes it rejected, and only a missing or malformed answer is an infra error |
| Enet.EnetClient.QueryStock | internal/syspro/inventory.go:73-135 | one episode with one INVQRY per SKU; the result has exactly the SKUs that were read, each at its last reading |
| Enet.EnetClient.QueryDispatchedOrders | internal/syspro/sorqry.go:89-126 | one episode with one SORQRY per number; the result has exactly the numbers that answered, each with its last answer |
| Enet.EnetClient.PostCashReceipt | internal/syspro/cash_receipt.go:255-292 | no session when the documents cannot be built, else one episode |
| Enet.FindWarehouse | internal/syspro/inventory.go:110-135 | the first row of the warehouse, and none exactly when no row has it |
| Enet.ReadingMeans | internal/syspro/inventory.go:87-134 | a quantity is read exactly from an XML answer: 0 when no row is of the warehouse, else the first such row's quantity if it parses |
| Enet.StockExtends | internal/syspro/inventory.go:87-134 | one more query keeps the result exact: a failed one changes nothing, an unstocked one reads 0 |
| Enet.EnetSession.SubmitOrder | internal/syspro/session.go:31-50 | one request on the session's guid, carrying the order's document, and the same reading of the answer's fields |
| Enet.EnetSession.Close | internal/syspro/session.go:54-62 | logs off and releases the lock whether or not the logoff succeeds |
| Sortoi.BuildSORTOI | internal/syspro/xml.go:283-384 | on the order's columns: each line's SKU, quantity, warehouse, tax code by configured and standard rates, and a unit price within half a penny of its value less discount and, when prices include it, tax; the cut header fields and shipping instructions |
| Sortoi.ExtractLineRates | internal/syspro/xml.go:203-224 | an entry for exactly the items with a tax line, at the first line's rate |
| Sortoi.ExtractShippingTax | internal/syspro/xml.go:174-197 | the sum of every parsable tax amount of every shipping line, each once |
| Sortoi.RoundedIsNearest | internal/syspro/xml.go:302-350 | an emitted price is a nearest penny, the even one of two, and exact exactly when there is nothing to round |
| Sortoi.LineError | internal/syspro/xml.go:307-333 | on the columns: quantity times price is within half a penny per unit of quantity times unit price less the discount and, when prices include it, the tax; equal exactly when the quantity divides what is taken off; the unit price itself for a line without units |
| Sortoi.MoneyBound | internal/syspro/xml.go:302-350 | over any order the charge is within half a penny per unit of the sum of these amounts, equal when quantities divide what is taken off, and freight is the shipping amount less, when prices include it, the sum of the shipping taxes |
| Batch.Processor.SubmitOrder | internal/batch/processor.go:131-224 | for every fault: claim, submit, record; on the answer's fields, a sales order number makes the row submitted under it, an Order element without one or nothing processed makes it failed, a clean import submitted without one, no answer pending or dead with one attempt more; other rows untouched |
| Batch.Processor.ProcessBatch | internal/batch/processor.go:80-126 | a prefix of the oldest-first list is acted on, ending only at a cancellation or the first order without a business answer; every order of it ends as its own answer's fields say; later rows are untouched; one session around exactly the SORTOI calls of the prefix |
| Batch.Processor.Tick | internal/batch/processor.go:62-77 | a tick during a batch does nothing; any other does all that ProcessBatch promises and gives the flag back |
| Batch.OneMoreOrder | internal/batch/processor.go:94-124 | after any prefix the next order is still the fetched pending row, so its claim hits |
| Batch.ResultUnique | internal/batch/processor.go:80-126 | the specification of a batch determines the rows |
| Batch.AnswersDecideRows | internal/syspro/client.go:243-281 | every order acted on whose answer was recorded is submitted under the sales order number it gives, and failed if and only if it gives none and has an Order element or processed no items |
| Batch.ActedOnMeans | internal/batch/processor.go:94-124 | the prefix a batch acts on, on the fields of its answers and cancellations |
| BatchTheorems.SilenceStopsTheBatch | internal/batch/processor.go:104-174 | without faults, an order acted on leaves the queue decided exactly when SYSPRO gave a business answer; the batch stops at the first order without one, which is requeued or dead with one attempt more, and later orders are as fetched |
| BatchTheorems.CycleDecreasesWork | internal/batch/processor.go:149-174 | every clean cycle on a non-empty queue strictly decreases the sum of max(1, 3 - attempts) over pending orders |
| BatchTheorems.TheQueueDrains | internal/batch/processor.go:80-126 | with no arrivals or faults the queue is empty after that many cycles, whatever SYSPRO answers and whatever is fulfilled between them |
| BatchTheorems.BatchIsARun | internal/batch/processor.go:80-126 | what ProcessBatch does to the rows is a path of the Lifecycle machine |
| LifecycleSafety.StepKeepsInv | internal/batch/processor.go:131-224 | every step of every actor, crash and boot keeps the ledger, snapshot and evidence invariants |
| LifecycleSafety.OtherStepsKeepContent | internal/store/order.go:200-258 | no status write, reset, retry or fulfilment touches what CreateOrder wrote, or any line |
| LifecycleRuns.LedgerIsTally | internal/batch/processor.go:131-224 | the ghost ledger of an order counts the steps of its current period |
| LifecycleRuns.SortoiCallsAreBounded | internal/batch/processor.go:149-174 | between staging or retry and the next retry: at most 3 SORTOI calls plus stale resets; at most 2 recorded failures while queued |
| LifecycleRuns.AttemptsAreAccountedFor | internal/batch/processor.go:149-202 | attempts = recorded failures + stale resets (+ 1 once submitted); dead letter has at least 3; queued with 3 or more had a reset |
| LifecycleRuns.LifeBookingsAreAccountedFor | internal/batch/processor.go:131-202 | the exact booking ledger of an order's life, over every operator retry: bookings = ambiguous failures + stale resets of an unrecorded booking + 1 when submitted or fulfilled + 1 when a booking is still unrecorded |
| LifecycleRuns.BookingsAreAccountedFor | internal/batch/processor.go:131-202 | the same equation within one period, from staging or a retry to the next retry |
| LifecycleRuns.BookedBeforeIffAmbiguousOrOrphaned | internal/batch/processor.go:138-148 | a call is about to be made for an order booked at any time before if and only if, since it was staged, some failure was ambiguous or some reset hit an unrecorded booking |
| LifecycleRuns.OpenIsBookedAndOpen | internal/batch/processor.go:138-202 | the ledger's open flag means: some step of the period booked the order and no later step recorded a reply or reset the row |
| LifecycleRuns.BatchWritesHitTheirClaim | internal/batch/processor.go:138-202 | every unconditional batch write lands on the processing row this call claimed, with the snapshot's attempts, and claims never miss |
| LifecycleRuns.FulfilmentWritesHitSubmittedRows | internal/fulfilment/syncer.go:152-159 | the fulfilment write lands on a row still submitted under the queried number |
| LifecycleRuns.SubmittedIsForever | internal/store/order.go:213-258 | submitted and fulfilled rows never return to the queue in any run, and keep number, attempts and content |
| LifecycleRuns.FulfilledRowsWereDispatched | internal/fulfilment/syncer.go:89-173 | behind each fulfilled row: first a recorded acceptance under its number, later in one cycle a "9" for that number, and after it the creation of its fulfilment while it was submitted |
| LifecycleRuns.FulfilmentsAreAccountedFor | internal/fulfilment/syncer.go:125-160 | the exact fulfilment ledger: fulfilments Shopify made for an order = those recorded + those whose write was lost or never came + those whose answer was lost + 1 in flight; and the row is fulfilled exactly when one success was recorded, made or found there |
| LifecycleRuns.FulfilledAgainIff | internal/fulfilment/syncer.go:125-150 | at an order reported complete, the two calls can make a fulfilment for an order that has one if and only if an earlier one was dropped or unanswered and Shopify lists an open fulfilment order that is not fulfilled |
| LifecycleWitnesses.AnOrderCanBeFulfilledTwice | internal/fulfilment/syncer.go:125-160 | runs in which an order with two fulfilment orders is fulfilled twice: the first one is closed by a creation that a crash or a lost answer leaves unrecorded |
| FulfilmentFate.SubmittedIsFulfillableIff | internal/fulfilment/syncer.go:89-173 | in every reachable state a submitted row has a continuation that fulfils it, nobody else touching its fulfilment orders, if and only if it has a number and Shopify lists an open fulfilment order for it or the syncer is at work on it |
| LifecycleWitnesses.AFulfilmentCanGoUnseen | internal/fulfilment/shopify.go:121-129 | a run after which a row with a number stays submitted in every continuation although Shopify made its fulfilment: only a closed fulfilment order is left |
| LifecycleRuns.CleanImportIsNeverFulfilled | internal/syspro/client.go:270-274 | an import accepted without an order number leaves its row submitted without one, and in every later state of every run it stays so |
| LifecycleWitnesses.AnOrderCanBeBookedTwice | internal/store/order.go:188-211 | a run that books one order twice in a period, after one stale reset |
| LifecycleWitnesses.AnAmbiguousAnswerBooksTwice | internal/batch/processor.go:149-174 | a run that books one order twice without a crash, after one ambiguous failure |
| LifecycleWitnesses.ARetryBooksTwice | internal/store/order.go:245-258 | a run that books one order twice although nothing ambiguous or orphaned lies in its last period: the first booking hid behind the failure that dead-lettered it before an operator retried |
| LifecycleWitnesses.BookingsHaveNoBound | internal/store/order.go:188-211 | for every n a run with n + 1 bookings of one order in a period and n resets of an unrecorded booking |
| LifecycleWitnesses.SortoiBoundIsReached | internal/batch/processor.go:149-174 | for every n a run with n stale resets and exactly 3 + n calls |
| LifecycleWitnesses.AttemptsHaveNoBound | internal/store/order.go:188-211 | for every n a run that leaves a pending order with n attempts and no call |
| Pipeline.StepKeepsInv | internal/inventory/syncer.go:173-231 | with sessions and stock added, every step keeps the joint invariant |
| Pipeline.EveryRunIsALifecycleRun | internal/batch/processor.go:80-126 | hiding sessions and stock, every run of the service is a Lifecycle run |
| PipelineStock.PublishedIsFreePlusDrift | internal/inventory/syncer.go:233-255 | a push publishes max(0, the rounding of free stock + accepted since the snapshot - other changes since + what a failed reservation read left out), less one exactly when a negative reservation carries a negative half across zero |
| PipelineStock.PushExceedsFreeWhenItDrifts | internal/inventory/syncer.go:233-255 | for every drift: a push publishes more than the rounded free stock if and only if free stock plus the drift rounds (less one in that exception) to a positive number above it; never without drift |
| PipelineStock.BookingTakesTheOrder | internal/syspro/xml.go:283-384 | the document of a call is built from its order's own row and lines, so a booking takes exactly the order's quantities off availability |
| PipelineStock.SnapshotsAreAtomic | internal/syspro/inventory.go:73-85 | no order is accepted between the first reading of a stock query and its logoff |
| PipelineStock.OnlyPushesMoveTheStorefront | internal/inventory/syncer.go:200-231 | a level moves only in a push whose snapshot has the SKU |
| PipelineStock.FreeStockIsConserved | internal/store/order.go:495-522 | over any stretch of any run free stock changes by its steps' deltas and nothing else |
| PipelineStock.RecordedSubmissionIsNeutral | internal/batch/processor.go:196-202 | an accepted call and its recorded reply leave availability minus reservations unchanged per SKU |
| PipelineOversell.APushCanOversell | internal/inventory/syncer.go:173-255 | a run that publishes a unit which is already sold |
| Ingest.MapOrder | internal/webhook/handler.go:211-284 | on the payload's fields: identity, address, payment reference, amounts in pence or 0 where one does not parse, the shipping sum, and each line's SKU, quantity, price, discount and tax sum |
| Ingest.RatesBelongToTheirLines | internal/syspro/xml.go:199-224 | document line i has the SKU and tax rate of line item i |
| Ingest.StagedOrdersBuildTheirDocument | internal/store/order.go:160-179 | staging through any tables and reading the lines back builds the same document |
| Ingest.Screen | internal/webhook/handler.go:88-140 | which answer a body earns before anything is written |
| Ingest.PaidMeans | internal/webhook/handler.go:195-202 | an order counts as paid if and only if its status is paid or partially_paid, in any case, with space around it |
| Ingest.JoinedParts | internal/webhook/handler.go:223-226 | gateway names are joined by a comma and a space, however the list is divided |
| Ingest.Handler.HandleOrderCreate | internal/webhook/handler.go:52-188 | an unsigned request is answered 401 and one without a webhook id 400, and nothing changes; a seen id 200; a new one is screened on its payload's fields and staged; answer, tables and trigger for every fault; the trigger is sent exactly when this call saw its commit |
| Reconcile.ToDomain | internal/reconcile/sweeper.go:322-386 | the sweeper's own loops over its own types build its specified order, lines and re-encoded payload |
| Reconcile.PathsStageTheSameOrder | internal/reconcile/sweeper.go:322-386 | the two mappings store the same lines, and rows that differ only in the raw payload and in a clock fallback |
| Reconcile.PathsBuildTheSameDocument | internal/reconcile/sweeper.go:314-386 | both paths give the same lines, prices, tax codes and freight; the headers agree exactly when no carrier code is named and no clock fallback differs |
| Reconcile.SweepStagesWhatTheWebhookRefuses | internal/reconcile/sweeper.go:169-192 | a missing paid order is staged by a sweep always, by its webhook if and only if it has an id and items and every item has a SKU, a positive quantity and no negative price |
| Reconcile.Sweeper.StageOrder | internal/reconcile/sweeper.go:239-255 | exactly the CreateOrder transaction of the swept order under its reconcile id; true when it was staged |
| Reconcile.Sweeper.Sweep | internal/reconcile/sweeper.go:146-201 | a failed listing or diff writes nothing; else tables and counters are those of staging each missing paid order in turn; the counters number the orders present and those missing and unpaid |
| Reconcile.StagingStep | internal/reconcile/sweeper.go:239-255 | staging one order loses no row or line, adds at most that order with its lines, and leaves it staged unless a fault or its reconcile id stood in the way |
| Reconcile.SweepFillsTheGaps | internal/reconcile/sweeper.go:169-192 | over any list and faults: old rows and lines survive, every new row is a listed paid order with its own lines, and each gap whose own staging met no fault is filled |
| Reconcile.CountsAddUp | internal/reconcile/sweeper.go:168-199 | without faults the staged counter is the growth of the table and no listed order is counted twice |
| Reconcile.CountsAre | internal/reconcile/sweeper.go:168-178 | the present and unpaid counters number exactly the listed orders that were staged, and those that were not and are unpaid |
| Staging.StepKeepsInv | internal/webhook/handler.go:52-188 | every step of deliveries, sweep, syncer and crash keeps the joint invariant |
| StagingRuns.IngestionIsIdempotent | internal/store/order.go:106-186 | events and orders are in bijection, order ids are unique, and each row holds the content and lines of its one staging |
| StagingRuns.FirstWriterWins | internal/store/order.go:106-186 | a staged row keeps its content and its lines for good, whatever Lifecycle's actors, deliveries and sweeps do |
| StagingRuns.SuccessMeansStaged | internal/webhook/handler.go:75-188 | a duplicate-order 200 means the row exists; a plain 200 means the order its webhook id was recorded for has a row |
| StagingRuns.OnlySignedRequestsAreAcknowledged | internal/webhook/handler.go:60-73 | over every run, only a request with a valid signature and a webhook id is answered 200 |
| StagingRuns.OnlySignedRequestsStage | internal/webhook/handler.go:60-163 | over every run, behind each order staged under a delivered id stands a signed request with that id for that very order |
| StagingRuns.TheSecondOfTwoIsAnswered | internal/webhook/handler.go:151-156 | of two concurrent deliveries of one id the second writes nothing and is answered 200 |
| StagingRuns.UnpaidSkipBlocksNothing | internal/webhook/handler.go:112-126 | an unpaid skip writes nothing and the order can be staged later under the same id |
| StagingRuns.NoLostWakeup | internal/webhook/handler.go:179-185 | after a seen commit: synced, or timer armed or fired, or a token in the channel, or the handler yet to send, or the boot sync to come |
| StagingTheorems.SyncsSubtractCommittedOrders | internal/inventory/syncer.go:217-246 | in every state after a commit, while the order is queued, the reservations a sync reads are those of the other orders plus exactly the quantities on its own lines |
| StagingTheorems.EveryRunIsALifecycleRun | internal/store/order.go:106-186 | every run of Staging is a Lifecycle run on the same rows and lines |
| StagingTheorems.InsertIsStage | internal/store/order.go:106-186 | a transaction that inserts is a Stage step of Lifecycle |
| StagingTheorems.HandlerIsARun | internal/webhook/handler.go:52-188 | what HandleOrderCreate does and answers, for every request and fault, is a path of Staging |
| StagingTheorems.SweepIsARun | internal/reconcile/sweeper.go:146-201 | the tables Sweep leaves are those of a path of Staging |
| StagingRuns.LostCommitAnswerLosesTheWakeup | internal/webhook/handler.go:152-170 | a run in which a staged order wakes nobody |
| StagingRuns.ReusedWebhookIdHidesAnOrder | internal/webhook/handler.go:75-88 | a run in which 200 is answered for an order without a row |
| Inventory.RoundIsNearest | internal/inventory/syncer.go:240-246 | the rounded availability is a nearest integer, and of two the one further from zero |
| Inventory.RoundMovesByWholeUnits | internal/inventory/syncer.go:240-246 | taking whole units off an availability commutes with rounding, except exactly at halves carried across zero |
| Inventory.LevelOfWholeUnits | internal/inventory/syncer.go:240-246 | of those halves, only a negative one carried above zero changes the published level, and by one |
| Inventory.ChunksCoverPending | internal/inventory/shopify.go:220-225 | the chunks hold every pending SKU once, in order, each of 1 to 100 |
| Inventory.ShopifyClient.ResolveLocation | internal/inventory/shopify.go:103-138 | the configured location, or the first active one, or an error that changes nothing |
| Inventory.ShopifyClient.ResolveInventoryItems | internal/inventory/shopify.go:206-263 | asks for exactly the unknown SKUs chunk by chunk and stops at the first failure; a SKU is known afterwards if and only if it was or some answered node is of it, and its item is the id of the last such node, else the old one |
| Inventory.ShopifyClient.SetInventoryLevels | internal/inventory/shopify.go:266-353 | without a location nothing happens; else the unknown SKUs are looked up, only resolved SKUs of the push change and all of them do when it is applied; a pushed SKU that a node answered for stands at its quantity under that node's id; success exactly when nothing was resolved or the push was applied and confirmed |
| Inventory.AppliedLevels | internal/inventory/shopify.go:297-340 | applying a push changes the named items and no others |
| Inventory.Syncer.ComputeEffective | internal/inventory/syncer.go:233-255 | max(0, rounded availability - reserved) for exactly the SKUs of the stock, reserved read as 0 when the read fails |
| Inventory.Syncer.Refresh | internal/inventory/syncer.go:180-203 | the cache is the last non-empty result and the counter the errors since, after every outcome |
| Inventory.Syncer.FullSync | internal/inventory/syncer.go:173-215 | no push without a non-empty answer; else the answer is cached and its effective quantities pushed; every level that changes at Shopify is that of a resolved SKU that SYSPRO answered for in this cycle |
| Inventory.Syncer.TriggeredSync | internal/inventory/syncer.go:217-231 | pushes the effective quantities of the last non-empty result, or nothing with a cold cache |
| Inventory.HistoryExtends | internal/inventory/syncer.go:180-203 | how each outcome moves the last result and the error count |
| Inventory.TriggeredSyncAgreesWithFullSync | internal/inventory/syncer.go:173-231 | a triggered push is what a full sync would push if SYSPRO gave that result again |
| Inventory.FullThenTriggered | internal/inventory/syncer.go:173-231 | a full sync that pushes and a triggered sync after it on the same reservations push the same quantities |
| Inventory.ChangedLevelsWereRead | internal/inventory/shopify.go:298-314 | every changed level belongs to a resolved SKU that SYSPRO answered for in this cycle |
| Inventory.ZeroMeansNoneOrAllReserved | internal/syspro/inventory.go:110-134 | a level of 0 means no row for the warehouse or reservations reaching the rounded availability |
| FulfilmentClient.GetFulfillmentOrderID | internal/fulfilment/shopify.go:92-130 | the first listed fulfilment order that is neither closed nor cancelled; an error when there is none or the query fails |
| FulfilmentClient.CreateFulfillment | internal/fulfilment/shopify.go:141-199 | with user errors: a success without an id if one says, in any case, already fulfilled or already been fulfilled, else an error; with none: the new fulfilment's id, or no id when there is no fulfilment |
| FulfilmentClient.ContainsMeans | internal/fulfilment/shopify.go:182-184 | a message contains a phrase if and only if it is something, the phrase, something |
| Fulfilment.FulfilmentSyncer.Fulfil | internal/fulfilment/syncer.go:118-167 | one order: the row is fulfilled, with the new fulfilment's id, exactly when reported "9", an open fulfilment order was listed, and the creation had no user error or one that says it is fulfilled already |
| Fulfilment.FulfilmentSyncer.ProcessOrders | internal/fulfilment/syncer.go:89-173 | a row becomes fulfilled if and only if it was waiting and its own number, listing, creation and write earn it, on the fields of the answers, and it carries that creation's id; every other row is unchanged; one SYSPRO episode asks about exactly the waiting numbers |
| Fulfilment.FulfilmentSyncer.Tick | internal/fulfilment/syncer.go:78-87 | a tick during a cycle does nothing; any other does all that ProcessOrders promises and gives the flag back |
| Fulfilment.ShippedOnce | internal/fulfilment/syncer.go:117-167 | in one cycle every order that ships is shipped once, and no other is |
| Fulfilment.CycleIsARun | internal/fulfilment/syncer.go:89-173 | what ProcessOrders does to the rows is a path of the Lifecycle machine over a Shopify that holds what it listed, so provenance of fulfilled rows covers it |
| Reports.TransactionsFetcher.FetchForOrder | internal/payments/shopify_transactions.go:299-327 | nothing when an amount of a successful sale or capture does not parse; else each of them once, with its gross amount, its fee and what is left |
| Reports.TransactionsFetcher.ExtractFee | internal/payments/shopify_transactions.go:347-382 | Shopify's fees, else the receipt's, else 0 |
| Reports.TransactionsFetcher.FetchOrdersInWindow | internal/payments/shopify_transactions.go:78-121 | fails only when the listing fails; test orders and unreadable orders are passed over; of the others every payment in the window is there once |
| Reports.ReportHolds | internal/payments/shopify_transactions.go:100-118 | a report holds exactly the non-manual payments in its half-open window of its usable orders |
| Reports.ReportOnFields | internal/payments/shopify_transactions.go:78-121 | a day's report, on the fields: the successful sales and captures processed from midnight to midnight and not manual, of orders that are no tests and could be read, with fee and net |
| Reports.ReportCount | internal/payments/shopify_transactions.go:78-121 | and each of them is in it once |
| Reports.PaymentIsReportedIffOrderIsListed | internal/payments/shopify_transactions.go:139-151 | a payment is in the report of its window if and only if its order is listed for that window |
| Reports.ReportedDatesStrictlyIncrease | internal/payments/daily_report.go:128-145 | over any clock readings, failed sends, crashes and restarts, with the state file written, reported dates strictly increase |
| Reports.NoPaymentIsReportedTwice | internal/payments/daily_report.go:249-262 | so no payment is in two scheduled reports |
| Reports.NoRepeatIffDayIsHeld | internal/payments/daily_report.go:134-137 | the next check cannot repeat a date if and only if the held day is not before that of the last report |
| Reports.LostWriteRepeatsAReport | internal/payments/deadletter.go:129-155 | a failed state write and a restart report one date twice |
| Reports.DailyReporter.SendForDate | internal/payments/daily_report.go:249-325 | mails the day's report or keeps it as a dead letter; nothing when the fetch fails |
| Reports.DailyReporter.Check | internal/payments/daily_report.go:129-145 | a tick is a check and a state write of the scheduler machine; it mails yesterday's report if and only if the hour is the configured one, the day is new, and listing and mail succeed, and otherwise keeps date and file |
| Reports.StateFile.ReadLastSent | internal/payments/deadletter.go:129-144 | a missing, unreadable or unconfigured file reads as the zero time |
| Reports.StateFile.WriteLastSent | internal/payments/deadletter.go:146-155 | the date is stored, kept or torn; nothing without a directory |
| Migrate.Database.CurrentVersion | internal/store/migrate.go:36-41 | the maximum recorded version, 0 when there is none |
| Migrate.Database.Apply | internal/store/migrate.go:83-100 | script and version row are committed together or not at all; a repeated version is refused |
| Migrate.Database.Migrate | internal/store/migrate.go:16-106 | commits a prefix of the sorted pending files; success exactly when every transaction commits and no pending version repeats; an unparsable name stops it before anything is applied |
| Migrate.Collect | internal/store/migrate.go:54-75 | exactly the files above the current version, sorted, unless a name does not parse |
| Migrate.AppliedUpToMaximum | internal/store/migrate.go:36-105 | in every state of every history the applied set is the positive file versions up to the recorded maximum, in order |
| Migrate.CrashedRunsResume | internal/store/migrate.go:36-105 | with distinct versions, failed and crashed runs that end in a success give the schema of one uninterrupted run, and a further run changes nothing |
| Migrate.EveryFileRanIff | internal/store/migrate.go:54-105 | after a success every file has run if and only if every version is positive and no two are equal |
| Migrate.SuccessRunsTheNewer | internal/store/migrate.go:54-105 | after a successful run from any schema a file has run if and only if it had run before or its version is above the recorded maximum |
| Migrate.RepeatedVersionIsSkipped | internal/store/migrate.go:73-100 | two files of one version: one of them is never run and the runner reports success |
| Migrate.NonPositiveVersionIsSkipped | internal/store/migrate.go:54-66 | files of version 0 and -1 beside one of version 1: they are never run and the runner reports success |

## Left out

- HTTP, HMAC, JSON, XML and GraphQL encoding, TLS and PostgreSQL: payloads are records, the store is tables with contracts, SYSPRO and Shopify answer anything.
- A payload whose JSON decodes for the handler but not for one of the SORTOI extractors, and request bodies over the size limit.
- float64 arithmetic: amounts are exact pence and rates exact reals, so binary rounding before `%.2f` is not captured.
- Integer widths: quantities, attempts and ids are unbounded.
- Unicode: trimming and lower-casing cover ASCII; truncation counts characters where the code counts bytes.
- A delivered webhook id that spells a reconcile id: the two kinds of id are kept apart here.
- More than one service process at a time, and the advisory lock that guards migrations against that.
- `cmd/resubmit-order` and the other command-line tools.
- The payments queue (`internal/payments/syncer.go`, `internal/store/payment_postings.go`), the intake scheduler, CSV, e-mail and archive files.
- The cancellation gate and its webhook handler, except as callers of the SYSPRO client in `Session` and `Pipeline`.
- Configuration and tax-map parsing, SKU listing by cursor, log levels.
- Timeouts and context cancellation are failures of the call they cut short; the batch's cancellation check is modelled.
- Pipeline: Shopify applies a push as a whole, and the fulfilment and cash-receipt callers hold sessions as generic callers; partial resolution of SKUs is in `Inventory`.
- Staging.StepKeepsInv: the periodic tick of the stock syncer is a step that may come at any time; its timing is not modelled.
- Reports.DailyReporter.Check: a crash between sending and writing is a step of the machine, not of the method.
- Lifecycle: a fulfilment takes all of its fulfilment order; partial fulfilments, and whatever else Shopify or its staff do to fulfilment orders, are arbitrary changes of them between steps.
- Fulfilment.CycleIsARun: Shopify lists at most the ten fulfilment orders that the query asks for.
- StagingRuns.NoLostWakeup: a sync that has started may still push nothing (cold cache, no location, a refused push); the next periodic sync does.
- Migrate.Database.Apply: what a script does to the schema is its name in the list of scripts run.
- The single-flight flag of the stock syncer: both syncs run in one goroutine, so it is always free.
