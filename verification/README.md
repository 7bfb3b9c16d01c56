# A Dafny model of the shop's concurrent core

A Telegram shop sells digital goods. Orders, inventory, wallets, coupons, refresh
tokens and broadcasts live in MongoDB collections that several kinds of process
change at once: bot workers that run a job more than once, admins, a sweeper of
expired reservations, and serverless page tasks that may be late, doubled or
abandoned. This project models those state machines, and the exact algorithms
beside them (two query plans for one report, a pattern parser and its printer, a
search-term normaliser), and proves what they keep.

`dafny verify dfyconfig.toml` checks everything.

## How the model is built

- A database operation, or a whole transaction, is one atomic step. A worker is a
  value that holds exactly what the program has in its local variables between two
  operations, so it may be stale. A run is any list of such steps by any number of
  workers, with crashes and outside changes in between. Main results speak about
  every run from the empty database.
- Code that changes things in place is also a class with the same fields. Its
  methods contain the program's own branches and loops and are proved to perform
  the steps of the state machine, so what holds of all runs holds of them. At each
  `await` of a delivery, a page, a token refresh or a rate decision an arbitrary
  list of other processes' steps happens. Pure code is functions. A loop is a
  method proved equal to a recursive function that the lemmas are about.
- Telegram, the clock, query results and the replies of bulk writes are parameters:
  every statement holds for all their values. Identifiers, tokens, hashes and
  encrypted payloads are opaque and distinct. `lower` stands for the locale's
  lower-casing.

| file | content |
|---|---|
| `ShopDatabase`, `ShopInvariant` | orders, items, wallet payouts; every operation on them and what it keeps |
| `DeliveryProtocol`, `AtMostOneSend`, `DeliveryStore` | delivery, recovery and expiry interleaved; at most one possible send; the methods |
| `RateGate`, `BroadcastSender`, `WorkerPool`, `Campaign` | the shared rate window, one message, the bounded pool, campaign paging |
| `Coupons` | redemption under snapshot isolation |
| `RepeatPurchases`, `Streaks` | two query plans for one report; the longest run of days |
| `InventoryLines`, `InventoryTemplates`, `ProductForm`, `SearchTerms` | pattern lines, templates, the generated template, search terms |
| `TokenFamilies` | refresh-token rotation and reuse detection |
| `ImportRows`, `ImportWrites` | inventory import and its accounting; its writes among everybody else's |
| `ReportCache` | shared loads, expiry, eviction |

## What turned out not to hold

Each entry names the theorem with the exact condition under which the property does
hold, for all inputs, and a lemma with a case for each way in which it fails.

- The two report plans give the same report if and only if no candidate checkout has
  a stray order that counts (`RepeatPurchases.PlansAgreeExactly`). The lookup for
  single orders also decodes other spellings of an identifier, which just those with a
  letter digit have (`UpperCaseMisspells`), so a payment key spelled that way loads an
  order of another checkout (`UpperCaseKeyDisagrees`).
- Presenting a revoked refresh token ends its family if and only if no request is
  about to create a token of it and, once the token has expired, none is live
  (`TokenFamilies.ReuseEndsFamily`). A refresh that has claimed its token survives the
  detection (`ClaimedRefreshSurvives`); an expired token is refused before the reuse
  check, and its live successor stays live (`ExpiredTokenEndsNothing`).
- A payload printed by a pattern parses back if and only if every value but the last
  ends where its literal is first found (`InventoryLines.ParseAfterFormat`). None does
  whose value contains the literal after it (`ContainedLiteralIsLost`), such as a dash
  (`DashInValueIsLost`).
- A pattern prints every line it parses back if and only if it repeats no key
  (`InventoryLines.PrintsBackIffDistinct`); each one that does loses text
  (`RepeatedKeyLosesText`). No product can be saved with such a pattern, so in the
  shop the property holds (`InventoryTemplates.SavedPatternPrintsLinesBack`).
- The generated pattern and the fallback template send the same text if and only if
  some field is visible (`ProductForm.PatternAndTemplateAgree`). With one hidden field
  they differ on every payload (`HiddenFieldRendersApart`).
- The imported count of a batch is the number of rows written if and only if every
  refused row is reported (`ImportRows.InsertCountIsExact`). A duplicate-key failure
  without a list of write errors counts a chunk of which nothing was written
  (`UnwrittenChunkIsCounted`).
- A row reported as taken and protected was out of stock if and only if no other
  import stamped its item after this one had overwritten it, and it had not been
  deleted or renamed in stock (`ImportWrites.TakenReportIsTrue`). A row that was
  overwritten is reported so (`RestampedRowIsReported`), and so is one whose item was
  deleted or renamed (`ChangedRowIsReported`).
- The records a campaign was closed on stay sent or failed if and only if they still
  are at the closing and no page holds a claim on one of them
  (`Campaign.ClosedRecordsStay`). A worker that stalled past its claim puts one back
  to pending after the closing, and nothing changes it any more
  (`StalledWorkerReopens`), or between the count and the closing
  (`RecordReopensBeforeClosing`).
- The sweep reports the number of items it put back on sale if and only if no
  transaction was rolled back after it had counted (`DeliveryStore.SweptKeeps`). One
  release in the second attempt counts twice (`RetriedRowCountsTwice`).
- While nothing else happens, a call that the local cache of the rate gate rejects
  would be granted by the shared document if and only if it comes within the reply's
  latency of the end of the cache and its chat has rested (`RateGate.CachedIsExact`,
  and `BroadcastRateGate.Acquire` of the gate's own field). With a cooldown of 10 ms
  and a reply that took 4 ms, the cache outlasts the cooldown
  (`CacheOutlastsCooldown`) and the gate rejects a call at 12 (`RejectLate`).

## Model

| member | source | states |
|---|---|---|
| ShopInvariant.MarkDeliveringKeeps | packages/database/src/repositories/order.repository.ts:23-30 | the compare-and-set that claims an order keeps every order coupled to its item and its payouts, and revises no outcome |
| ShopInvariant.MarkDeliveryFailedKeeps | packages/database/src/repositories/order.repository.ts:38-43 | marking a delivery failed keeps them, whatever job reports the failure and however late |
| ShopInvariant.FailGroupKeeps | apps/bot/src/delivery.processor.ts:181-189 | failing the open orders of a checkout group keeps them |
| ShopInvariant.SellAllEffect | packages/database/src/repositories/inventory.repository.ts:74-81 | when every item of a delivery is sold or was sold to its order already, exactly those items change, each sold to the order it was reserved for |
| ShopInvariant.ConfirmDeliveryKeeps | apps/bot/src/delivery.processor.ts:125-141 | the confirming transaction keeps the invariant although it works from stale orders and stale items: it aborts whenever an item is no longer the order's |
| ShopInvariant.ResendKeeps | apps/api/src/delivery/delivery-recovery.service.ts:22-30 | an admin resend keeps it |
| ShopInvariant.ReplaceSwaps | apps/api/src/delivery/delivery-recovery.service.ts:35-46 | a replacement withdraws the old item for good, holds a free one of the same product for the order, and changes no other item or order |
| ShopInvariant.ReplaceKeeps | apps/api/src/delivery/delivery-recovery.service.ts:32-52 | and keeps the invariant |
| ShopInvariant.RefundKeeps | apps/api/src/delivery/delivery-recovery.service.ts:54-74 | a refund pays exactly the order's total once, withdraws the item, and keeps it |
| ShopInvariant.QueueRejectedKeeps | apps/api/src/delivery/delivery-recovery.service.ts:76-85 | a recovery that cannot be queued returns to failed and keeps it |
| ShopInvariant.ReleaseExpiredKeeps | apps/api/src/inventory/inventory-reservation.service.ts:64-85 | expiry puts an item on sale again only together with cancelling and paying back its order |
| ShopInvariant.ReleaseRowKeeps | apps/api/src/inventory/inventory-reservation.service.ts:56-86 | so does a sweep row that was read earlier and may be stale |
| ShopInvariant.ExtendReservationsKeeps | packages/database/src/repositories/inventory.repository.ts:94-97 | extending reservations keeps it |
| DeliveryProtocol.StepKeeps | apps/bot/src/delivery.processor.ts:29-156 | every step of every worker, with whatever stale values it holds, and every outside change keeps the invariant and revises nothing final |
| DeliveryProtocol.OneOutcome | apps/bot/src/delivery.processor.ts:125-141 | after any run an order is delivered if and only if one item is sold to it, no item is sold twice, and it was paid back its total exactly once if and only if it is refunded or cancelled |
| DeliveryProtocol.OutcomeIsFinal | apps/api/src/delivery/delivery-recovery.service.ts:32-74 | a delivered, refunded or cancelled order keeps its state, its items and its payouts in every continuation |
| AtMostOneSend.SentAtMostOnce | apps/bot/src/delivery.processor.ts:29-58 | outside a group and without admin recovery, at most one send of an order was not a confirmed rejection, with duplicate jobs, concurrent workers and crashes |
| AtMostOneSend.SentItemIsNeverResold | apps/bot/src/delivery.processor.ts:104-155 | once a message that carried an item's secret may have gone out, that very item is held for its order, sold to it or withdrawn, never on sale |
| DeliveryStore.ShopStore.MarkDeliveringOne | packages/database/src/repositories/order.repository.ts:23-30 | claims exactly when the order waits for delivery, and changes nothing otherwise |
| DeliveryStore.ShopStore.Confirm | apps/bot/src/delivery.processor.ts:126-140 | the selling loop and the order update commit together or not at all |
| DeliveryStore.ShopStore.ListGroup | apps/bot/src/delivery.processor.ts:66-71 | the group's open orders, all of them, each once, oldest first |
| DeliveryStore.ShopStore.LoadDeliveries | apps/bot/src/delivery.processor.ts:79-95 | every order with the item reserved for it, or a failure when one has none |
| DeliveryStore.ShopStore.Process | apps/bot/src/delivery.processor.ts:29-156 | with anything other workers, admins, buyers and the sweeper do at each await, a call is a run of the protocol with its own worker's moves in between, ends where its result says, and reports a delivery only of a delivered order |
| DeliveryStore.ShopStore.OnFailed | apps/bot/src/delivery.processor.ts:173-191 | the failed job's order and, after whatever others do, its open group are marked failed, as the protocol's two moves |
| DeliveryStore.ShopStore.ResendOne | apps/api/src/delivery/delivery-recovery.service.ts:22-30 | a resend returns a failed order to the queue and changes nothing otherwise |
| DeliveryStore.ShopStore.ReplaceOne | apps/api/src/delivery/delivery-recovery.service.ts:35-47 | the replacement transaction commits as a whole or leaves everything |
| DeliveryStore.ShopStore.RefundOne | apps/api/src/delivery/delivery-recovery.service.ts:57-71 | the refund transaction, idempotent for a refunded order and for a used credit key |
| DeliveryStore.ShopStore.Sweep | apps/api/src/inventory/inventory-reservation.service.ts:54-89 | the loop performs one release transaction per examined row, in order, until one throws, and counts the attempts that came to the increment, rolled back or not |
| DeliveryStore.SweptKeeps | apps/api/src/inventory/inventory-reservation.service.ts:54-89 | a sweep keeps the invariant for any stale rows and any retried transactions; its count is the number of items put back on sale plus the rolled-back increments, so it is exact if and only if there were none |
| DeliveryStore.RetriedRowCountsTwice | apps/api/src/inventory/inventory-reservation.service.ts:59-63 | one expired hold released in the second attempt of its transaction is reported as two |
| RateGate.DecisionFromHistory | apps/bot/src/broadcast-rate-store.ts:42-72 | every decision and every retry time computed from the pruned list equals the one computed from all grants ever made |
| RateGate.RateIsNeverExceeded | apps/bot/src/broadcast-rate-store.ts:41-72 | after any operations, every window of one second holds at most the limit, grants to one chat keep their interval, and the stored list has at most three times the limit |
| RateGate.NoGrantBeforeHint | apps/bot/src/broadcast-rate-store.ts:56-86 | no acquire by anyone for any chat is granted before a reported global retry time |
| RateGate.NoGrantDuringCooldown | apps/bot/src/broadcast-rate-store.ts:89-97 | nothing is granted until a shared cooldown has run out, whatever else is deferred or acquired |
| RateGate.GrantedAtRetryTime | apps/bot/src/broadcast-rate-store.ts:61-70 | with nothing in between, an acquire for the same chat at exactly its retry time is granted |
| RateGate.HintIsExact | apps/bot/src/broadcast-rate-store.ts:56-70 | with nothing in between, an acquire for any chat is granted if and only if the reported global retry time has come and the chat has rested |
| RateGate.CachedIsExact | apps/bot/src/broadcast-rate-store.ts:36-38 | with nothing in between, the document would grant a call that the cache rejects if and only if the call comes within the reply's latency of the end of the cache and its chat has rested |
| RateGate.CacheOutlastsCooldown | apps/bot/src/broadcast-rate-store.ts:79-83 | after a cooldown of 10 ms, seen at 1, any chat would be granted from 10 on, although a reply that arrives at 5 is cached until 14 |
| RateGate.RejectLate | apps/bot/src/broadcast-rate-store.ts:35-87 | the same on a gate and its document: a call at 12 is rejected, which the document would grant |
| RateGate.BroadcastRateGate.Acquire | apps/bot/src/broadcast-rate-store.ts:35-87 | the worker's clock is read before and after the call and the database's in between; a cached rejection is the shared document's own except within its reply's latency of the end of the cache, and, if nothing happened since the decision that is cached, there the document would grant exactly the rested chats; every other answer is a step of the shared document among those of others, and is cached for its delay from the arrival of the reply |
| RateGate.BroadcastRateGate.Await | apps/bot/src/broadcast-rate-store.ts:79-83 | whatever other gates acquire or defer, this gate's cached time stays sound |
| RateGate.BroadcastRateGate.Defer | apps/bot/src/broadcast-rate-store.ts:89-97 | a cooldown is a step of the shared document and an invalid one changes nothing |
| BroadcastSender.Acquire | apps/bot/src/broadcast-sender.ts:57-70 | succeeds exactly on a granted call after denied ones only, and its waits together stay within five seconds whatever the gate's latency |
| BroadcastSender.Send | apps/bot/src/broadcast-sender.ts:37-55 | at most three deliveries, each with a permit of its own, and a delivery is repeated only after flood control refused it and its cooldown was shared |
| WorkerPool.EachStartsOnce | apps/bot/src/broadcast-sender.ts:76-91 | under every schedule the started items are the first of the list, each with one worker or settled once, never more together than the concurrency |
| WorkerPool.NothingStartsAfterFailure | apps/bot/src/broadcast-sender.ts:82-86 | after the first failure no item starts and the remembered failure stays the first |
| WorkerPool.SettlesDrained | apps/bot/src/broadcast-sender.ts:88-90 | the call settles with nothing in flight, rethrows the first failure, and succeeds only when every item was processed exactly once without error |
| WorkerPool.RepublishedAll | apps/admin-web/lib/serverless-tasks.ts:184-200 | under every schedule published and failed orders together are all orders, each once, and the successes listed are the orders whose publishing did not fail |
| WorkerPool.Workers.Settle | apps/bot/src/broadcast-sender.ts:81-87 | a settled item records a first failure and its worker takes its next turn, as the pool's step |
| Campaign.PageCovers | apps/bot/src/admin-broadcast.processor.ts:28-36 | a page misses no active user past the cursor but those past its end, for every limit, and a limit of zero is none |
| Campaign.StepKeeps | apps/bot/src/admin-broadcast.processor.ts:20-77 | every step of every page task, duplicated, stalled, retried or crashed, keeps what the next two results say |
| Campaign.CursorsSkipNobody | apps/admin-web/lib/serverless-tasks.ts:135-148 | no user who stays active and has no record lies behind the cursor of any page task ever published |
| Campaign.ClosedMeansEveryoneServed | apps/bot/src/admin-broadcast.processor.ts:69-74 | a campaign is closed only on a count in which every user who stayed active has a record and every record is sent or failed |
| Campaign.SettledForGood | apps/bot/src/admin-broadcast.processor.ts:42-66 | records stay settled in every continuation if and only if they are settled and no page is between claiming and recording one of them |
| Campaign.ClosedRecordsStay | apps/bot/src/admin-broadcast.processor.ts:69-74 | the records a campaign was closed on stay settled if and only if at the closing they all still are and no page holds a claim on one |
| Campaign.LateTasksDoNothing | apps/bot/src/admin-broadcast.processor.ts:26-26 | a task that comes after the closing does nothing, whatever follows |
| Campaign.StalledWorkerReopens | apps/bot/src/admin-broadcast.processor.ts:54-61 | a reachable closing that fails the condition: a record of the closed campaign becomes pending and never changes again |
| Campaign.RecordReopensBeforeClosing | apps/bot/src/admin-broadcast.processor.ts:69-74 | a reachable closing over a record that went back to pending after the count, with no claim left |
| Campaign.BroadcastProcessor.CreateDeliveryRecord | apps/bot/src/admin-broadcast.processor.ts:80-96 | one record per user: an existing one is returned as it is, a missing one is created pending |
| Campaign.BroadcastProcessor.ClaimRecord | apps/bot/src/admin-broadcast.processor.ts:42-48 | claims a pending record or a stale sending one, and breaks the page otherwise |
| Campaign.BroadcastProcessor.ProcessBatch | apps/bot/src/admin-broadcast.processor.ts:20-77 | a page that serves up to twelve recipients at a time, in any order of their operations and with anything others do in between, is a run of the model; it completes only when each recipient ended without a failure, its counters say how many were sent, failed or sent before and make up the page, and it closes the campaign only on a count with none pending |
| Campaign.BroadcastProcessor.ProcessTask | apps/bot/src/broadcast-queue-retry.ts:25-38 | a page that must be retried stays published unchanged and a completed one has published its successor, whatever others do |
| Coupons.PriceIsFair | apps/api/src/coupons/coupons.service.ts:139-161 | discount and total add up to the subtotal, the discount is at least one and within every cap, and a percentage is rounded down by less than one unit |
| Coupons.ListedMeansUsable | apps/api/src/coupons/coupons.service.ts:38-64 | a coupon is listed for a user if and only if some product and amount can be bought with it |
| Coupons.CommitIsSerial | apps/api/src/coupons/coupons.service.ts:163-177 | a redemption that commits prices and changes the store as if it had run alone at its commit, although it read a snapshot |
| Coupons.CountersAreExact | apps/api/src/coupons/coupons.service.ts:172-175 | in every committed state a coupon's counter is the number of its redemption records and within its limit, no checkout redeemed twice, and every record's discount and total make up its subtotal |
| Coupons.RedemptionsWithinLimits | apps/api/src/coupons/coupons.service.ts:151-154 | a redemption commits only when the committed counts of the coupon and of the user were below the limits in force then |
| Coupons.CouponCollections.Redeem | apps/api/src/coupons/coupons.service.ts:166-177 | the transaction's effect and its conflicts, as the model's commit |
| Coupons.CouponCollections.Update | apps/api/src/coupons/coupons.service.ts:122-137 | an edit commits exactly when it validates against its snapshot and nothing wrote the coupon since |
| RepeatPurchases.LookedUpIsWholeAndStrays | apps/api/src/analytics/product-repeat-purchases.service.ts:86-103 | the three lookups load a checkout's complete group and the stray single orders, nothing else and nothing twice |
| RepeatPurchases.LookupIsExact | apps/api/src/analytics/product-repeat-purchases.service.ts:180-203 | they give the whole group's totals if and only if every stray is harmless |
| RepeatPurchases.PlansAgreeExactly | apps/api/src/analytics/product-repeat-purchases.service.ts:78-107 | the two plans give the same filtered report if and only if no candidate checkout has a stray that counts |
| RepeatPurchases.PlansAgreeOnCanonicalKeys | apps/api/src/analytics/product-repeat-purchases.service.ts:78-107 | they agree for every collection and range when keys that look like identifiers are in lower case |
| RepeatPurchases.UpperCaseKeyDisagrees | apps/api/src/analytics/product-repeat-purchases.service.ts:183-184 | in every collection that begins in the range, a delivered checkout whose key is another spelling of the identifier of a delivered single order of the same customer makes the plans disagree |
| RepeatPurchases.UpperCaseMisspells | apps/api/src/analytics/product-repeat-purchases.service.ts:183-184 | an identifier has another spelling that the conversion decodes, its upper-case one, if and only if it has a letter digit |
| RepeatPurchases.EitherPlanSameStreak | apps/api/src/analytics/product-repeat-purchases.service.ts:105-141 | where the plans agree, the list of days and the streak of every customer are the same from either |
| RepeatPurchases.StreakOfEitherPlan | apps/api/src/analytics/product-repeat-purchases.service.ts:105-141 | whichever plan ran, the streak shown is the longest and earliest run of days on which a delivered checkout of the customer began |
| Streaks.ReduceMeans | apps/api/src/analytics/product-repeat-purchases.service.ts:121-141 | the fold's current and longest runs are the ones that end at, and that lie in, the days read so far |
| Streaks.StreakIsLongestRun | apps/api/src/analytics/product-repeat-purchases.service.ts:115-141 | over the sorted days of any set, the fold returns the length of the longest run of consecutive days with the first and last day of the earliest such run |
| Streaks.ListIsUnique | apps/api/src/analytics/product-repeat-purchases.service.ts:115-120 | a set of days has one sorted list, so the streak is a function of the set |
| InventoryLines.FormatAfterParse | packages/shared/src/index.ts:163-206 | printing what a line parses to gives the line back |
| InventoryLines.ParseAfterFormat | packages/shared/src/index.ts:163-206 | a printed payload parses to its values if and only if each value but the last ends where its literal is first found |
| InventoryLines.ContainedLiteralIsLost | packages/shared/src/index.ts:180-183 | for every pattern, a payload with a value, not the last, that contains the literal after it does not parse back |
| InventoryLines.DashInValueIsLost | packages/shared/src/index.ts:180-183 | two fields with a dash between them: `x-y` and `z` print a line that is not read back |
| InventoryLines.RepeatedKeyLosesText | packages/shared/src/index.ts:184-184 | every pattern that repeats a key has a line it parses and prints shorter |
| InventoryLines.PrintsBackIffDistinct | packages/shared/src/index.ts:163-206 | a pattern with text between its values prints every line it parses back if and only if it repeats no key |
| InventoryLines.HiddenFieldsStayHidden | packages/shared/src/index.ts:208-220 | what the customer is sent does not depend on a field that is not visible |
| InventoryLines.ParseInventoryPatternLine | packages/shared/src/index.ts:163-185 | the loop computes the parse the round trips are about, with its errors |
| InventoryLines.FormatInventoryPatternPayload | packages/shared/src/index.ts:198-206 | the loop computes the text the round trips are about |
| InventoryTemplates.CustomRoundTrip | packages/shared/src/index.ts:149-152 | printing a definition with placeholders and parsing it gives the definition back if and only if its keys are safe and trimmed, its literals free of double braces, the inner ones non-empty and the outer ones untrimmable |
| InventoryTemplates.AcceptedIsCustomForm | packages/shared/src/index.ts:222-244 | every template with placeholders that is accepted yields such a definition |
| InventoryTemplates.LegacyRoundTrip | packages/shared/src/index.ts:154-160 | a compact definition survives printing and parsing if and only if its keys fit the compact form and its separators are non-empty, without word characters or double braces |
| InventoryTemplates.LegacyPrintsBack | packages/shared/src/index.ts:154-160 | an accepted compact pattern is printed back up to the white space around it |
| InventoryTemplates.NormalFormIsStable | packages/shared/src/index.ts:149-161 | printing any accepted template and parsing it changes nothing |
| InventoryTemplates.AcceptedPrintsLinesBack | packages/shared/src/index.ts:149-206 | an accepted template of either form prints every line it parses back if and only if it names no field twice |
| InventoryTemplates.SavedPatternPrintsLinesBack | apps/api/src/product/product.service.ts:169-171 | which is exactly what the check on saving a product lets through |
| InventoryTemplates.ParseCustomInventoryPattern | packages/shared/src/index.ts:222-244 | the matching loop computes the scan the round trips are about, with its errors |
| ProductForm.OrderedIsStableSort | apps/admin-web/app/admin/product-form-utils.ts:12-12 | the fields come sorted, with equal sort orders left as they were and no field lost or added |
| ProductForm.JoinIsAccepted | apps/admin-web/app/admin/product-form-utils.ts:15-15 | joined placeholders parse back to exactly their keys in their order if and only if every key is safe |
| ProductForm.GeneratedPatternIsAccepted | apps/admin-web/app/admin/product-form-utils.ts:11-20 | the generated pattern is accepted with the product's keys in sort order if and only if every key is safe |
| ProductForm.PatternAndTemplateAgree | apps/bot/src/delivery.processor.ts:203-218 | for a generated format with safe and trimmed keys, none both shown and hidden, rendering by the pattern and by the fallback template gives the customer the same text, whatever the payload, if and only if some field is visible |
| ProductForm.HiddenFieldRendersApart | apps/admin-web/app/admin/product-form-utils.ts:16-18 | with one hidden field the pattern and the template give different texts for every payload |
| SearchTerms.NormalizeMeans | packages/shared/src/index.ts:54-75 | a text is accepted if and only if every line that is not blank has a login of fitting length and at most a hundred differ in more than case; the result is those logins where they were first seen |
| SearchTerms.HopIsExact | packages/shared/src/index.ts:54-75 | a list joined with line feeds and trimmed normalises to itself if and only if it is a normal list |
| SearchTerms.HopKeepsTerms | apps/admin-web/app/admin/inventory-manager.tsx:109-116 | what the page sends is read by the server as the same terms and fits the length the server accepts |
| SearchTerms.NormalizeInventorySearchTerms | packages/shared/src/index.ts:54-75 | the loop with its set of seen keys computes that normalisation, with the line of its error |
| TokenFamilies.StepKeeps | apps/api/src/auth/auth.service.ts:22-58 | every step of interleaved logins, refreshes, logouts, reuse revocations and crashes keeps each family a line of successors whose last token alone can be live |
| TokenFamilies.OneHolder | apps/api/src/auth/auth.service.ts:44-50 | at every moment a family has one live token or one request about to create one, never both, and no token is ever exchanged twice |
| TokenFamilies.SuccessorsFormAChain | apps/api/src/auth/auth.service.ts:50-51 | a token has at most one successor, of its own family, and a stored link names it |
| TokenFamilies.ReuseEndsFamily | apps/api/src/auth/auth.service.ts:32-40 | presenting any revoked token ends its family in every continuation if and only if no request is about to create a token of it and, for an expired one, none is live |
| TokenFamilies.RevocationEndsFamily | apps/api/src/auth/auth.service.ts:37-40 | the revocation itself, whatever happened since the token was presented, ends the family if and only if no request is about to create a token of it then |
| TokenFamilies.ClaimedRefreshSurvives | apps/api/src/auth/auth.service.ts:44-51 | a run from the empty collection in which a refresh that has claimed its token stores a live successor after its reuse was detected |
| TokenFamilies.ExpiredTokenEndsNothing | apps/api/src/auth/auth.service.ts:36-40 | a run from the empty collection after which presenting an exchanged and expired token changes nothing and its successor stays live, with no request about to create a token |
| TokenFamilies.AuthService.Refresh | apps/api/src/auth/auth.service.ts:29-53 | with anything other requests do at each await, performs exactly the model's steps, and succeeds if and only if its claim finds the token live |
| TokenFamilies.AuthService.Logout | apps/api/src/auth/auth.service.ts:55-58 | revokes the presented token, as the model's step |
| ImportRows.ReportAddsUp | apps/api/src/inventory/inventory-import.service.ts:72-75 | valid rows and errors make up the file, and valid, invalid and duplicate rows do once rows kept for overwriting count twice |
| ImportRows.EveryLineHasItsFate | apps/api/src/inventory/inventory-import.service.ts:39-71 | a line is prepared, with the item it overwrites, or reported with its reason, exactly as its content, the lines before it and the inventory say |
| ImportRows.InsertsAddUp | apps/api/src/inventory/inventory-import.service.ts:86-103 | for any chunk size inserted and reported rows are all rows, and the imported count exceeds the rows written by exactly the refusals no reply reported |
| ImportRows.InsertCountIsExact | apps/api/src/inventory/inventory-import.service.ts:95-101 | the imported count is the number of rows written if and only if every refused row is reported by the reply to its chunk |
| ImportRows.UnwrittenChunkIsCounted | apps/api/src/inventory/inventory-import.service.ts:96-101 | a duplicate-key failure without write errors counts a whole chunk of which not one row was written |
| ImportRows.ErrorsNameRefusedRows | apps/api/src/inventory/inventory-import.service.ts:97-100 | every insert error carries the line of a row that was really not written |
| ImportRows.OverwritesAddUp | apps/api/src/inventory/inventory-import.service.ts:105-132 | for any chunk size overwritten and reported rows are all rows; which rows were overwritten is in ImportWrites |
| ImportRows.CommitAddsUp | apps/api/src/inventory/inventory-import.service.ts:133-136 | imported, overwritten and reported rows are the prepared rows, with the skipped ones the whole file, and the batch is complete exactly when nothing was reported |
| ImportRows.Prepare | apps/api/src/inventory/inventory-import.service.ts:37-75 | the two passes compute the report those results are about |
| ImportRows.Commit | apps/api/src/inventory/inventory-import.service.ts:80-136 | the chunk loops compute the outcome those results are about, or throw |
| ImportWrites.RunKeepsUnique | apps/api/src/product/product.service.ts:226-264 | whatever imports, sales, removals and renames of a product's fields interleave with a commit's writes, a product never holds one content twice |
| ImportWrites.EffectsAreReal | apps/api/src/inventory/inventory-import.service.ts:86-115 | every insert counted as applied created an item its product did not hold then, and every overwrite counted as a hit met an item in stock with its own content |
| ImportWrites.ImportedCountsItems | apps/api/src/inventory/inventory-import.service.ts:86-103 | the imported count is the number of items the import created plus the refusals no reply reported |
| ImportWrites.OverwrittenCountsItems | apps/api/src/inventory/inventory-import.service.ts:124-127 | the overwritten count is the number of rows, not reported as failed, whose item carried the batch when it was read back, and each of them was overwritten |
| ImportWrites.TakenReportsAre | apps/api/src/inventory/inventory-import.service.ts:124-131 | a line is reported as taken and protected if and only if its row was neither reported as failed nor read back |
| ImportWrites.TakenReportIsTrue | apps/api/src/inventory/inventory-import.service.ts:109-131 | such a report is true if and only if no other import stamped the item after this one, and it was not deleted or renamed while in stock |
| ImportWrites.RestampedRowIsReported | apps/api/src/inventory/inventory-import.service.ts:109-131 | an overwritten item that another import stamps before it is read back is reported as taken |
| ImportWrites.ChangedRowIsReported | apps/api/src/inventory/inventory-import.service.ts:109-131 | an item in stock that is deleted or renamed before its overwrite is reported as taken |
| ImportWrites.TakenItemsKeepTheirContent | apps/api/src/product/product.service.ts:226-264 | through any writes an item that stays out of stock keeps its batch, and its content changes by renames of its product's fields alone |
| ImportWrites.PreparedFitsStock | apps/api/src/inventory/inventory-import.service.ts:54-71 | rows are prepared for insertion only when the product holds no such item, and for overwriting only onto their own item while it is available |
| ImportWrites.CommitCountsItems | apps/api/src/inventory/inventory-import.service.ts:80-136 | from what its query found, a whole commit reports as imported and overwritten what its writes did to the collection, whatever ran between them |
| ReportCache.ServedIsFresh | apps/api/src/analytics/report-cache.ts:7-24 | in every run at most 32 entries are kept, stored pending entries are in flight, and a call gets a load still running or a result for its key younger than the time to live |
| ReportCache.LateFailureSparesOthers | apps/api/src/analytics/report-cache.ts:18-21 | a load that fails removes its own entry and no other, also when its key was stored anew |
| ReportCache.CallsShareALoad | apps/api/src/analytics/report-cache.ts:8-12 | until 32 more loads are started, every call for a key without refresh shares the stored entry while it is usable |
| ReportCache.Reports.Get | apps/api/src/analytics/report-cache.ts:7-24 | the eviction loop and the new entry, as the model's step |
| ReportCache.Reports.Failed | apps/api/src/analytics/report-cache.ts:18-20 | the identity check on failure, as the model's step |

## Left out

- Pages, controllers, message texts, keyboards, Telegram, QStash and VietQR clients: a send is a step with one of four answers, and there is nothing to prove about the text.
- Encryption, hashing, bcrypt and JWT: tokens, hashes and payloads are opaque; decrypting may fail.
- Payments, bank top-ups and wallet spending: only the two credits an order can cause are modelled, each idempotent by its key.
- Checkout of several orders at once is several steps, so the model has more interleavings than the transaction allows.
- The unique index on an order's item: the model allows an item that was released to be sold again.
- AtMostOneSend.SentAtMostOnce: only for orders outside a group and without admin recovery, because the program promises it for those only.
- Clock drift: the worker's and the database's clocks differ by a constant, in whole milliseconds.
- Two overlapping calls of one rate gate: each of its methods between two awaits keeps it valid, and the later cached time wins.
- The retry of a first insert into the rate collection and the namespace check: they do not touch the window.
- The five-minute claim on a recipient can expire while its worker is still sending, so nothing is claimed about sending a broadcast at most once.
- The clamp of a deferred page's delay between one second and seven days: one expression.
- Restock and purchase alerts: the same pager as the campaign over other collections.
- The report's paging, summary and product filter after the streaks, and the bound that chooses the plan: both plans give the same input to them.
- Normalising one row by its field definitions: its outcome, an error or a hash, is a parameter.
- A query for existing items that lists two of one content: the unique index excludes it.
- Refused coupon input (codes, product lists, dates that are not numbers): only the limits matter to redemption.
- Strings are sequences of characters, not of UTF-16 code units; lengths agree for the basic plane.
- Case-insensitive comparison is the locale's lower-casing as a parameter: no property of it is needed.
