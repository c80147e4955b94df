# WAR product layer: a verified model

This project models the stateful product layer of WAR - the paid-scan protocol and the
money behind it, the token buckets that pace it, the ticks, caches and limits that run
over time - and a few of its algorithms, and proves what they keep over every run.

Run `dafny verify dfyconfig.toml` to check everything.

## How it is organised

| Component | Files |
| --- | --- |
| Paid scans | `Entitlements`, `ScanLifecycle`, `Store` (the tables and their transaction), `ScanProtocol` (any number of `execute` calls in flight as a state machine), `ScanSafety` and `ScanOnce` (what every interleaving keeps), `ScanService` (one call at a time, as a class and as histories), `ScanPayments` (how often a request is paid), `ScanRows` (the execution row) and `PersistRecords` (what else a result leaves) |
| Money | `Balance`, `BalanceBooks` (which histories keep the books), `PaymentWebhook`, `WebhookTiers` (tiers and answers over histories), `ScanEndpoint` (the POST /scan handler as a state machine), `ScanBilling` and `ScanTickets` (what every interleaving keeps), `ScanReturns` (what holds when nothing awaited throws), `ScanHandler` (the handler as a method) |
| Rates | `TokenBucket`, `Scheduler`, `BucketWindows` (the schedules it lets through, without a bucket), `ApiRateLimiter`, `ApiAllowance` (the calls it lets through), `UsageLimits` and `LimiterHistory` (rolling 24 hours), `UsageStore` and `UsageHistory` (calendar days), `UsageTraffic` (the handler's scans between check and record) |
| Protocols over time | `WalletWatches`, `WatchTick`, `WatchPasses` (which trades a pass alerts on), `WatchHistory`, `WatchWarnings` (the warnings and the report), `TrendingCache`, `TrendingResults` (what it serves), `Resilience`, `RetryCalls` (the calls of a run) |
| Algorithms | `FlowClusters`, `Coordination`, `CoordinationOrder`, `FunderTypes` and `CoordinationMembers` (whom it reports), `Replay`, `WarIndices`, `WarReadings` (what each index measures), `WarGains` (what raises the score), `PowerEngine`, `PriceTrajectory`, `StateMachine`, `StateTable` (its step as a table), `ScanState`, `ScanPrices` (the state in terms of prices) |
| Shared | `Results`, `Numbers`, `Strings`, `StableSort`, `Sums` |

Objects of the program that change in place are classes here; each of their methods
is proved equal to a function on the object's state, and the results are proved about
histories and interleavings of those functions. A scan, a `/scan` request and a
trending refresh are split at their awaits: each step between two awaits is one action
and every interleaving of actions is a run. Ports (acquisition, evaluation, the
database, the message channel, the CLI) are answers handed to the step, so a theorem
over all runs covers every way they can answer, late or by throwing.

Amounts of money are integers (micros of a dollar), instants are integer milliseconds,
token amounts, rates and scores are reals; `Math.round` is rounding half up.
Transactions of the unit of work are atomic, as their contract says
(src/product/persistence/contracts/repositories.ts:256).

## Where the code and its comments differ

The model follows the code. In each case a lemma shows the difference.

- One scan request id is meant to have at most one paid result. Two concurrent calls that
  bring different entitlements are both paid (`ScanPayments.PaidTwice`); it is paid once in
  every interleaving exactly when its calls bring the entitlement of one payment
  (`ScanPayments.OnePaidResultIff`), every reused answer is then that result
  (`ScanOnce.OnePaidResult`), and in sequential histories the claim holds whatever the calls
  bring (`ScanService.OneFreshAnswer`).
- The execution row is meant to tell how a request ended. A call with another payment's
  entitlement can fail after one that was paid and write over its row; with no call in
  flight or dead the row tells whether the request was paid exactly when its calls bring
  the entitlement of one payment (`ScanRows.RowTellsIff`).
- A failed scan is meant to release its entitlement. When the entitlement's row is not
  stored the failure path throws first and the ledger keeps it consumed
  (`ScanService.UnmirroredIsStuck`); that and a throw at an unguarded await are the only
  ways to strand it (`ScanSafety.RecordsAgreeUnlessStranded`), and with rows stored and
  ports that return the four records always agree (`ScanSafety.RecordsAgree`).
- A transaction is meant to roll back. The in-memory rollback does not restore the token
  metadata (`Store.MetadataSurvivesRollback`, and exactly when it matters
  `Store.RollbackCompleteIff`); no transaction of a scan writes any.
- A crash within a wallet tick is said never to re-send an alert. A throw after the base
  alert and before the cursor moves sends that one alert again (`WatchHistory.ThrowResends`);
  exactly when, over any history, says `WatchHistory.ResentIff`.
- The trending source is said to be called at most once in a lifetime. Failed refreshes are
  not throttled (`TrendingCache.FailuresUnthrottled`); the claim holds exactly when no stale
  request comes within a lifetime of a failed one (`TrendingCache.OncePerLifetimeIff`).
- A half-open breaker is said to allow one trial. The breaker is consulted only when a run
  starts, and the run may retry (`Resilience.TrialCallsTwice`); a trial is one call exactly
  when its first call is not worth retrying (`Resilience.OneCallIff`), and every trial is
  exactly when runs never retry (`Resilience.OneTrialIff`).
- A daily quota is said to cap a user's scans. The scan handler checks it when a scan starts
  and records the scan when it is done, so scans at once can pass it
  (`UsageTraffic.TwoScansAtOnce`): it holds exactly when each scan, as it is recorded,
  finds fewer used that day (`UsageTraffic.QuotaHoldsIff`), and with m scans on their way at
  most m - 1 go past it (`UsageTraffic.OnWayBound`). The handler's quota is the one of UTC
  days (src/product/pricing/usageStore.ts, src/integration/warRuntime.ts:155); the rolling
  24 hours of src/product/pricing/usageLimiter.ts are a class of their own that the handler
  does not use, with results of their own (`UsageLimits.CapHoldsIff`).
- Bot and rat-trader shares are said each to discount the organic index. Two rates above 1,
  which the code takes as they come, multiply to a positive share and can raise the
  composite (`WarIndices.VisibleRaises`); the exact bounds on the rates are in
  `WarIndices.RiskNeverRaisesIff`.
- A coordination cluster is said to be observed when its entries are tight in time; the
  code asks only that every entry time is known (`CoordinationOrder.ObservedNotTight`,
  and exactly `CoordinationOrder.ObservedIff`).

## Model

| member | source | states |
|---|---|---|
| ScanProtocol.CallMoves | src/product/scan/orchestration/scanService.ts:80-221 | one call moving on keeps the protocol invariant when it leaves the other entitlements' four records alone and leaves its own as its new place requires |
| ScanProtocol.ReserveEffect | src/product/scan/orchestration/scanService.ts:171-183 | the reservation transaction is all or nothing; committed, it stores the execution and the usage row - keeping one already there - and touches neither entitlement rows nor snapshots |
| ScanProtocol.ReserveStores | src/product/scan/orchestration/scanService.ts:172-176 | committed, it stores the request for its user, token and entitlement |
| ScanProtocol.PersistEffect | src/product/scan/orchestration/scanService.ts:133-150 | the final transaction commits exactly when the database does, the execution may complete and the entitlement row exists; then snapshot, completed execution and consumed status appear together, otherwise nothing does |
| ScanProtocol.PersistStores | src/product/scan/orchestration/scanService.ts:137-143 | committed, it adds exactly the evidence and events the evaluation found and leaves each of its signal transitions on record |
| PersistRecords.PersistRecordsOnce | src/product/scan/orchestration/scanService.ts:134-143 | and the token known, the engine's models as its version first recorded them, and no signal's change of phase twice, however many scans find it |
| ScanProtocol.FailEffect | src/product/scan/orchestration/scanService.ts:213-218 | the failure transaction commits exactly when the entitlement row exists, and then removes the usage row, restores the status and marks the execution failed |
| ScanSafety.RunKeeps | src/product/scan/orchestration/scanService.ts:80-221 | every interleaving of issues, mirrored rows, arrivals, resumed awaits and throws keeps the invariant tying each call's place to the four records of its entitlement |
| ScanSafety.OneClaimant | src/product/scan/orchestration/scanService.ts:165-167 | in every interleaving at most one call is past its reservation on an entitlement or has been paid for it |
| ScanSafety.RecordsAgree | src/product/scan/orchestration/scanService.ts:80-221 | when every call arrives with the row of its entitlement stored and the ports return, then in every interleaving ledger status, ledger usage, usage row and status row of an entitlement all say consumed or all say not whenever no call is in flight on it |
| ScanSafety.RecordsAgreeUnlessStranded | src/product/scan/orchestration/scanService.ts:205-221 | whatever throws: they agree if and only if no action of the run was a throw at a call holding the entitlement or the failure transaction of such a call with the row missing |
| ScanSafety.RecordsAgreeIff | src/product/scan/orchestration/scanService.ts:130-157 | and in terms of the state reached: if and only if no call that held it is dead |
| ScanSafety.ConsumedIffPaidResult | src/product/scan/orchestration/scanService.ts:15-16 | and then they say consumed exactly when some call returned a new result for it |
| ScanOnce.OnePaidResult | src/product/scan/orchestration/scanService.ts:18-20 | in every interleaving whose calls for a request bring the same entitlement, a request has at most one new paid result and every reused answer carries its snapshot and report |
| ScanOnce.ReusedHasPaid | src/product/scan/orchestration/scanService.ts:84-96 | and no answer is reused without a paid result behind it |
| ScanService.ScanService.Reserve | src/product/scan/orchestration/scanService.ts:162-191 | takes the entitlement and stores the reservation, or gives the entitlement back; the exact ledger and tables in each case |
| ScanService.ScanService.Mark | src/product/scan/orchestration/scanService.ts:193-202 | the execution row is marked as executing, and the call run on from there ends as the protocol run on from before |
| ScanService.ScanService.FailAndRelease | src/product/scan/orchestration/scanService.ts:205-221 | run alone, it is the protocol's failure path driven to its end |
| ScanService.ScanService.Deliver | src/product/scan/orchestration/scanService.ts:132-156 | run alone, it is the protocol's final transaction driven to its end, through the failure path when that is rolled back |
| ScanService.ScanService.Produce | src/product/scan/orchestration/scanService.ts:106-156 | and this everything after the reservation |
| ScanService.ScanService.Execute | src/product/scan/orchestration/scanService.ts:80-157 | one call run alone leaves the ledger and tables, and answers, exactly as the state machine driven to its end |
| ScanService.DriveIsRun | src/product/scan/orchestration/scanService.ts:80-157 | running a call alone is one of the interleavings, so everything proved of runs holds of it |
| ScanService.Answer | src/product/scan/orchestration/scanService.ts:80-221 | every answer of a call run alone, and everything it leaves behind, told from the stored results, the entitlement and the ports |
| ScanService.ResultRepeats | src/product/scan/orchestration/scanService.ts:84-96 | once a request has a result in a sequential history, every later call for it - any user, token, entitlement - returns the same snapshot and report and changes no ledger and no table |
| ScanService.OneFreshAnswer | src/product/scan/orchestration/scanService.ts:18-20 | so after the first result of a request every answer in the history is that result, reused |
| ScanService.FailureLeavesConsumable | src/product/scan/orchestration/scanService.ts:17 | a failed call leaves ledger, usage, entitlement rows and snapshots as they were, and the next call with answering ports delivers |
| ScanService.UnmirroredIsStuck | src/product/scan/orchestration/scanService.ts:205-221 | without the entitlement's row the call throws with the entitlement taken and the next call with it delivers nothing |
| ScanPayments.PaidTwice | src/product/scan/orchestration/scanService.ts:18-20 | there is an interleaving in which one request id is paid twice, its calls bringing just the entitlements of two given payments |
| ScanPayments.TwoEntitlementsPayTwice | src/product/scan/orchestration/scanService.ts:165-167 | any two calls for one request past the gate, each with its own usable entitlement, can both be paid |
| ScanPayments.OnePaidResultIff | src/product/scan/orchestration/scanService.ts:18-20 | calls for a request that bring the entitlements of a set of payments are paid at most once for it in every interleaving, whatever else runs beside them, if and only if the payments are one and the same |
| ScanRows.AnswerRow | src/product/scan/orchestration/scanService.ts:80-221 | a call run alone with the entitlement's row stored leaves every execution row as it was when it is refused or answered from a result; otherwise its own row completed with the snapshot as its report when the ports answer well, and else failed, with the time, a reason and no report; the start is the call's in both |
| ScanRows.RowsSettle | src/product/scan/orchestration/scanService.ts:80-221 | in every interleaving the stored row of a request, with no call of it in flight and none dead, is completed with a report or failed with a reason, never reserved or executing; and completed only when some call returned a new result |
| ScanRows.RowTellsPaid | src/product/scan/orchestration/scanService.ts:205-221 | when the calls of a request bring one entitlement, it is completed exactly when one of them returned a new result, and failed otherwise |
| ScanRows.RowTellsIff | src/product/scan/orchestration/scanService.ts:205-221 | over every interleaving of calls that bring the entitlements of a set of payments, the row tells whether the request was paid if and only if the payments are one and the same |
| Entitlements.EntitlementLedger.IssueFrom | src/product/payment/entitlement.ts:56-77 | issues once for each payment: a second call returns the stored entitlement and changes nothing |
| Entitlements.EntitlementLedger.Consume | src/product/payment/entitlement.ts:88-105 | the four refusals, and otherwise the usage record and the consumed status together |
| Entitlements.EntitlementLedger.ReleaseIfUnused | src/product/payment/entitlement.ts:108-116 | restores exactly a consumed entitlement |
| Entitlements.ConsumeOnce | src/product/payment/entitlement.ts:88-116 | consumable if and only if issued and asked for by its owner; a second consumption is refused; a release undoes the consumption exactly |
| Entitlements.ConsumeRefused | src/product/payment/entitlement.ts:88-99 | which of the four refusals a consumption gets, told from the entitlement alone, and that a refusal changes nothing |
| Entitlements.IssuedOnce | src/product/payment/entitlement.ts:56-77 | the entitlement of a payment names it, its first buyer and its time, and whoever asks again gets the same one |
| Entitlements.CallsKeepCoherence | src/product/payment/entitlement.ts:56-116 | a usage record exists exactly for consumed entitlements, after every call |
| Store.InMemoryUnitOfWork.Perform | src/product/persistence/memory/inMemory.ts:211-261 | the exact effect on the tables of each write of the entitlement, usage and scan repositories; of these only a status update of a missing entitlement throws |
| Store.InMemoryUnitOfWork.Keep | src/product/persistence/memory/inMemory.ts:285-307 | the same for snapshots, evidence, events and signal transitions, and for the token and engine-version tables (lines 131-140 and 175-177) |
| Store.InMemoryUnitOfWork.Transaction | src/product/persistence/memory/inMemory.ts:349-359 | commits all writes of the closure, or restores the snapshot taken before it but for the token metadata |
| Store.InMemoryUnitOfWork.MutateFrom | src/product/persistence/memory/inMemory.ts:362-381 | restores every table but the token metadata |
| Store.RollbackCompleteIff | src/product/persistence/memory/inMemory.ts:362-381 | a failed transaction leaves the store as it was if and only if the last metadata its writes gave a token, before the throw, is what the token already had |
| Store.AtomicWithoutMeta | src/product/persistence/memory/inMemory.ts:349-381 | so transactions that name no metadata, as those of a scan, are atomic |
| Store.MetadataSurvivesRollback | src/product/persistence/memory/inMemory.ts:362-381 | a metadata write followed by a throw survives the rollback |
| Balance.BalanceLedger.Charge | src/product/payment/balance.ts:109-135 | replay, free scan, refusal and debit, with the whole ledger after each |
| Balance.BalanceLedger.Refund | src/product/payment/balance.ts:141-158 | the refusals, the idempotent replay, and the credit of a free scan or an amount with its two records |
| Balance.BalanceLedger.TopUp | src/product/payment/balance.ts:82-94 | credits once for each provider transaction |
| Balance.BalanceLedger.Register | src/product/payment/balance.ts:59-71 | opens an account once, with the free-scan grant |
| Balance.BalanceLedger.SetTier | src/product/payment/balance.ts:97-102 | changes the tier and nothing else of an account it opens if it must |
| Balance.BooksBalance | src/product/payment/balance.ts:59-158 | after any history every balance is top-ups minus unrefunded debits and never negative, and free scans are the grant minus unrefunded free scans, between 0 and 3 |
| Balance.RefundKeepsBooksIff | src/product/payment/balance.ts:155-156 | a refund keeps the books if and only if the entry it writes over, if any, stands for nothing |
| Balance.RefundKeyChargeBreaksBooks | src/product/payment/balance.ts:155-156 | a charge made under the key a refund writes breaks them: a concrete history |
| BalanceBooks.BooksBalanceIff | src/product/payment/balance.ts:59-158 | over every history without negative prices, under whatever op ids, the books balance if and only if no refund ever wrote over a charge that stood for something: what is lost so no later call makes good |
| Balance.ChargeIdempotent | src/product/payment/balance.ts:116-120 | once a charge went through in a history, every later charge under its op id - whatever came between, its refund too, and whoever it names - answers as that one did and changes nothing |
| Balance.RefundUndoesCharge | src/product/payment/balance.ts:109-158 | a charge and its refund together leave every account as the charge found it, and a second refund changes nothing |
| Balance.RefundRefused | src/product/payment/balance.ts:141-150 | a refund is refused exactly for a missing entry, another user's, or one that is no charge; a refusal moves nothing |
| Balance.OpensOnce | src/product/payment/balance.ts:59-71 | an account opens once, with three free scans and an empty balance |
| PaymentWebhook.PaymentWebhookService.Settle | src/product/payment/paymentWebhook.ts:66-102 | settles into the ledger and the set of settled transactions, with the answer it gives |
| PaymentWebhook.EachTransactionCreditedOnce | src/product/payment/paymentWebhook.ts:66-102 | over any history each transaction is credited once, to the user its first adequate payment names; the reported credits sum to the credits made; the balance is their sum minus unrefunded debits |
| PaymentWebhook.ReplayIff | src/product/payment/paymentWebhook.ts:70-76 | refused exactly when underpaid, and a replay exactly when the transaction was paid before |
| WebhookTiers.TierIsOwed | src/product/payment/paymentWebhook.ts:90-92 | over every proper history an account's tier is decided by the last of: the first payment of a transaction that covers the COMMAND pack for it, a tier set for it, and the registration that opened it; an account opened otherwise is STANDARD |
| WebhookTiers.SettlementAnswer | src/product/payment/paymentWebhook.ts:66-102 | a payment is refused exactly when it is below its pack's price of 5, 20, 50 or 1000 dollars; the first of a transaction credits price and bonus, a later one nothing; and the tier answered is the one its user is then owed |
| WebhookTiers.NoTierMoved | src/product/payment/paymentWebhook.ts:90-102 | a replay, a payment for another user or for another pack moves no tier |
| ScanEndpoint.OpIdsDiffer | src/api/wiredApp.ts:441-442 | op ids of different sequence numbers differ, whatever users and times they carry |
| ScanEndpoint.OpIdApart | src/api/wiredApp.ts:442 | an op id is never a refund's or a top-up's key |
| ScanBilling.AccountsTell | src/api/wiredApp.ts:422-505 | at every moment of every interleaving of `/scan` requests and settlements a balance is the account's credited payments minus the prices of its charged and unrefused requests, and free scans are the grant minus its free ones |
| ScanBilling.FinishedAccounts | src/api/wiredApp.ts:422-505 | once all requests have finished each account has lost one price or one free scan for exactly its charged requests that answered 200 (or were killed by a throw) |
| ScanBilling.EntryIffCharged | src/api/wiredApp.ts:453-465 | promotional, admin and uncharged requests leave no ledger entry; a charged one leaves one, refunded exactly when it is refused |
| ScanReturns.AnsweredAccounts | src/api/wiredApp.ts:422-505 | when nothing awaited throws and all requests have finished, every one has been answered and each account has lost one free scan or one price for exactly its charged requests that answered 200 |
| ScanReturns.NoneLost | src/api/wiredApp.ts:422-505 | when nothing awaited throws no request crashes, no scan dies, and any request can go on to an answer however the ports of its scan answer |
| ScanTickets.AnswersTell | src/api/wiredApp.ts:463-505 | a request answered 200 has its own new result on record and its ticket consumed in all four records; a refused one has none and its ticket in none |
| ScanTickets.EndsNew | src/api/wiredApp.ts:488-498 | a scan of the endpoint never ends on a reused result |
| ScanHandler.WiredApp.PostScan | src/api/wiredApp.ts:422-505 | the handler run alone leaves the balance ledger, the entitlement ledger and the tables, and answers, as its specification on those values |
| ScanHandler.ServedTill | src/api/wiredApp.ts:422-505 | and that specification is what the endpoint's own steps do, whatever else is in flight |
| ScanHandler.AnswerAndCost | src/api/wiredApp.ts:445-500 | under a new op id a request served alone is answered by the first gate it fails - 429, 402, 400, 409 - or 200, and its account loses one free scan or one price exactly when it is charged and answered 200; no other account changes |
| ScanHandler.ServedIsRun | src/api/wiredApp.ts:422-505 | serving a request alone is one of the interleavings |
| TokenBucket.RetryIsExact | src/runtime/rateLimiter.ts:50-68 | the reported delay is exact: the weight fits from that millisecond on and at none before |
| TokenBucket.RefillComposes | src/runtime/rateLimiter.ts:34-40 | refilling in two steps is refilling once |
| TokenBucket.DelayCoversDeficit | src/runtime/rateLimiter.ts:65-66 | the rounded-up delay is the least whole number of milliseconds in which the deficit leaks in |
| TokenBucket.OverweightNeverFits | src/runtime/rateLimiter.ts:56-67 | a weight above the capacity is refused at every instant |
| Scheduler.PlanSchedule | src/runtime/scheduler.ts:47-77 | the plan serves the requests in id order, the bucket admits every one at its time, and no other admissible schedule in that order runs any request sooner |
| Scheduler.AwaitAdmission | src/runtime/scheduler.ts:64-70 | the waiting loop goes round at most once - not at all exactly when the weight fits at once - and ends at the first instant the weight fits, with the bucket spent there |
| Scheduler.GreedyIsEarliest | src/runtime/scheduler.ts:64-73 | taking each request at the first instant it fits is pointwise earliest among all admissible schedules |
| Scheduler.PlanKeepsLimit | src/runtime/scheduler.ts:57-76 | in any stretch of the plan the weights sum to at most capacity plus what leaks in between its first and last run times |
| Scheduler.WindowBound | src/runtime/scheduler.ts:57-76 | the same bound for any admissible schedule of a bucket |
| Scheduler.WaitEndsIff | src/runtime/scheduler.ts:66-70 | there is an instant for the waiting loop to end at if and only if the weight is within the capacity |
| Scheduler.OrderIgnoresBatchOrder | src/runtime/scheduler.ts:53-55 | with distinct ids the processing order does not depend on the order of the batch |
| Scheduler.PlanIgnoresBatchOrder | src/runtime/scheduler.ts:47-77 | and so a batch has one plan, in whatever order it comes |
| BucketWindows.FeasibleIff | src/runtime/rateLimiter.ts:34-68 | the bucket lets a schedule through if and only if its times never go back, no stretch of it weighs more than a full bucket and what leaks in at the rate between its first and its last request, and no beginning more than the bucket held and what leaked in |
| BucketWindows.PlanIsEarliestKept | src/runtime/scheduler.ts:47-77 | so a plan keeps those bounds, and every request of it runs no later than in any schedule that keeps them |
| BucketWindows.RouteWeighs | src/adapters/gmgn/gmgnRunner.ts:53-66 | the weight of each route, one for a route without one |
| ApiRateLimiter.RateLimiter.Take | src/api/security.ts:36-52 | spends or refuses with the exact bucket and answer |
| ApiRateLimiter.RateLimiter.Prune | src/api/security.ts:55-57 | drops exactly the buckets idle for longer |
| ApiRateLimiter.PruningIsInvisible | src/api/security.ts:36-57 | prunes anywhere in a history change no answer of `take` when an idle bucket has refilled by then and the clock never goes back |
| ApiRateLimiter.PruneSafeIff | src/api/security.ts:55-57 | for a whole capacity this holds of all histories if and only if the idle time refills the bucket |
| ApiRateLimiter.RetryIsExact | src/api/security.ts:49-51 | a refused key is next allowed exactly at the reported delay |
| ApiAllowance.AllowedIff | src/api/security.ts:36-52 | after any calls for any keys, a call is allowed if and only if, with those of its key allowed since any earlier one, it stays within a full bucket and the refill since; what remains is the number of further calls that would fit at once |
| UsageLimits.UsageLimiter.Check | src/product/pricing/usageLimiter.ts:56-67 | the verdict on the pruned list; only the list asked about changes |
| UsageLimits.UsageLimiter.Record | src/product/pricing/usageLimiter.ts:73-78 | pushes and prunes; only that list changes |
| UsageLimits.UsageLimiter.Used | src/product/pricing/usageLimiter.ts:81-87 | the length of the pruned list; only that list changes |
| UsageLimits.UsageLimiter.Prune | src/product/pricing/usageLimiter.ts:44-50 | the loop drops exactly the front that is out of the window |
| LimiterHistory.AnswersCountLastDay | src/product/pricing/usageLimiter.ts:56-87 | after any calls of any users a check allows if and only if fewer than the cap of them are records of its user and kind in the last 24 hours, leaving the difference less one; the count is of exactly those |
| LimiterHistory.RetryIsOldest | src/product/pricing/usageLimiter.ts:64-66 | a refused check names the moment the oldest of these leaves the last 24 hours |
| UsageLimits.ListIsLastDay | src/product/pricing/usageLimiter.ts:44-50 | with a non-decreasing clock the pruned list is always the full history restricted to the last 24 hours |
| UsageLimits.NoWindowOverCap | src/product/pricing/usageLimiter.ts:52-78 | when every record follows an allowing check at its instant no 24-hour window anywhere holds more records than the cap |
| UsageLimits.RetryExactIff | src/product/pricing/usageLimiter.ts:64-66 | the reported retry time is the first instant a check passes if and only if the oldest entry is as old as the one the cap waits for |
| UsageLimits.RetryExactWhenChecked | src/product/pricing/usageLimiter.ts:64-66 | with a fixed cap and checked records it always is |
| UsageLimits.CapHoldsIff | src/product/pricing/usageLimiter.ts:63-87 | for every mix of checks and records no 24-hour window exceeds the cap if and only if each record made without a check of its own found the list, pruned to its instant, below the cap |
| UsageLimits.CheckedAheadOverflows | src/product/pricing/usageLimiter.ts:44-87 | after any history with one place left, two checks at one instant both allow and the two records after them put the window one over the cap |
| UsageLimits.TwoScansAtOnce | src/product/pricing/usageLimiter.ts:44-87 | such a history of this class: a cap of one, two checks, two records |
| UsageStore.InMemoryUsageStore.Today | src/product/pricing/usageStore.ts:55-60 | the user's row of today: the stored one, or an empty one stored in place of another day's |
| UsageStore.InMemoryUsageStore.Check | src/product/pricing/usageStore.ts:62-68 | the verdict on the count of today; only the user's row changes, and none without a cap (what it counts is `UsageHistory.AnswersCountRecords`) |
| UsageStore.InMemoryUsageStore.Record | src/product/pricing/usageStore.ts:70-73 | counts one more of its kind in the user's row of today |
| UsageStore.InMemoryUsageStore.Used | src/product/pricing/usageStore.ts:75-78 | the count of today (what it counts is `UsageHistory.AnswersCountRecords`) |
| UsageHistory.AnswersCountRecords | src/product/pricing/usageStore.ts:54-77 | after any calls of any users under a clock that does not go back: a check allows if and only if fewer than the cap of them are records of its user, its kind and its UTC day, leaving the difference less one and else naming the next midnight; without a cap always; and the count is of exactly those |
| UsageHistory.RetryIsMidnight | src/product/pricing/usageStore.ts:43-46 | a blocked check passes exactly from the midnight it names on, whatever happens meanwhile but a record of its own user and kind |
| UsageTraffic.QuotaHoldsIff | src/api/wiredApp.ts:445-503 | with a user's scans checked when they start - against whatever limit, or none - and recorded when they are done, among any other calls of the store, no UTC day ever holds more than `cap` records of them if and only if each, when it is recorded, finds fewer used that day |
| UsageTraffic.OnWayBound | src/api/wiredApp.ts:445-503 | when every scan is checked against at most `cap` and at most m are ever between their check and their record, over midnight too, no UTC day holds more than cap + m - 1 |
| UsageTraffic.OnWayBoundReached | src/api/wiredApp.ts:445-503 | and for every cap and m there is traffic that reaches it |
| UsageTraffic.WindowHoldsTwoDays | src/product/pricing/usageStore.ts:6-8 | when every day holds at most a bound, 24 hours anywhere hold at most twice that |
| UsageTraffic.TwoScansAtOnce | src/api/wiredApp.ts:445-503 | two scans at one instant under a quota of one a day are both let through, and the day ends with two |
| UsageTraffic.AroundMidnight | src/product/pricing/usageStore.ts:6-8 | one scan after the other with midnight between them: the quota of one a day holds, and 24 hours hold two |
| WalletWatches.InMemoryWalletWatchStore.Subscribe | src/product/watch/walletWatchStore.ts:75-93 | a known user, chain and wallet renews its own watch in place; a new one adds a watch |
| WalletWatches.InMemoryWalletWatchStore.ActiveWatches | src/product/watch/walletWatchStore.ts:102-108 | exactly the running watches, each once |
| WalletWatches.InMemoryWalletWatchStore.Cancel | src/product/watch/walletWatchStore.ts:95-100 | cancels exactly the owner's watch |
| WalletWatches.InMemoryWalletWatchStore.ReadCursor | src/product/watch/walletWatchStore.ts:114-116 | the stored cursor, or none |
| WalletWatches.InMemoryWalletWatchStore.AdvanceCursor | src/product/watch/walletWatchStore.ts:118-120 | replaces one watch's cursor |
| WalletWatches.InMemoryWalletWatchStore.TierOf | src/product/watch/walletWatchStore.ts:124-129 | the tier while its period runs, FREE otherwise |
| WalletWatches.InMemoryWalletWatchStore.SetTier | src/product/watch/walletWatchStore.ts:131-133 | stores the tier with its period, none for FREE |
| WatchTick.AlertTrade | src/integration/tickEngine.ts:173-193 | one trade: base alert, dump warning, aggregation, cursor - and where a throw leaves it |
| WatchTick.CheckWatch | src/integration/tickEngine.ts:163-197 | one watch: its fresh trades, oldest first, up to the first throw |
| WatchTick.CheckAll | src/integration/tickEngine.ts:163-198 | all watches in turn, with the count of those that threw |
| WatchTick.Announce | src/integration/tickEngine.ts:202-209 | the convergence alerts in the aggregator's order, up to the first throw |
| WatchTick.RunWalletWatchTick | src/integration/tickEngine.ts:146-212 | the cursors after a tick, every call it made in order, the report counting them, and the convergence alerts of exactly the keys whose buys qualify |
| WatchTick.AggregateBuy | src/integration/tickEngine.ts:183-191 | the aggregator stays the exact summary - wallets, first and last time - of the buys seen |
| WatchTick.AnnouncedIff | src/integration/tickEngine.ts:202-209 | when none throws, exactly the keys with enough wallets inside the window are announced, each once, with its number of wallets |
| WatchPasses.PassAlerts | src/integration/tickEngine.ts:163-197 | a pass over a watch alerts, oldest first, on the fetched trades that are strictly later than its cursor and not the trade the cursor names, as often as they were fetched; on all of them unless something throws, and then on none later than one left out; it writes about its own watch alone and leaves the cursor at the last trade it was moved to |
| WatchHistory.NeverTwiceWithoutThrow | src/integration/tickEngine.ts:163-198 | over any serial ticks, answers and throws, a trade is completed at most once for a watch and between two alerts on it something threw at it |
| WatchHistory.CursorsNeverGoBack | src/product/watch/walletWatchStore.ts:118-120 | cursor times never decrease |
| WatchHistory.AlertedIffAfterCursor | src/integration/tickEngine.ts:167-171 | when nothing throws a trade is alerted on if and only if it was strictly after the cursor when first fetched |
| WatchHistory.AlertedAtMostOnce | src/integration/tickEngine.ts:163-198 | and never twice |
| WatchHistory.TickIsPasses | src/integration/tickEngine.ts:163-198 | a tick is such a history of passes over the active watches |
| WatchHistory.TicksAreEvents | src/integration/tickEngine.ts:163-209 | the cursors and the log of any sequence of whole ticks - passes, then announcements - are those of one such history, proper when every fetch is |
| WatchHistory.ResentIff | src/integration/tickEngine.ts:163-198 | over any history, answers and throws: an alert is sent more than once if and only if, after it was sent, some pass fetches its trade while the cursor is still before it and nothing throws at the trades that pass comes to first |
| WatchHistory.ResentNextIff | src/integration/tickEngine.ts:141-145 | an alert already sent is sent again by the next event exactly when that takes its trade up so - and then something had thrown at it and its cursor had not moved |
| WatchHistory.ThrowResends | src/integration/tickEngine.ts:141-145 | one such history: a throw before the cursor moves re-sends that alert on the next tick |
| WatchWarnings.HistoryWarns | src/integration/tickEngine.ts:173-186 | over any history of ticks, answers and throws: right after the base alert of a trade stands a dump warning of it if and only if the alert did not throw and the trade is a sale of a known amount of at least the threshold; and no warning stands elsewhere |
| WatchWarnings.TickTells | src/integration/tickEngine.ts:146-212 | the report of a tick counts its messages delivered and failed, the sales warned of and the convergences announced, each but for those that threw |
| WatchWarnings.AnnouncedIffBoughtTogether | src/integration/tickEngine.ts:202-209 | when no announcement throws, exactly the keys that enough distinct wallets bought within the window are announced, once each, with the number of those wallets |
| TrendingCache.TrendingCache.Get | src/product/trending/trendingCache.ts:82-88 | serves a fresh snapshot, joins the refresh in flight, or starts one |
| TrendingCache.TrendingCache.Finish | src/product/trending/trendingCache.ts:90-121 | the rest of a refresh: the stale fallback, or the payloads that were there in the order of the addresses, as the interleaved steps leave it |
| TrendingCache.TrendingCache.Finally | src/product/trending/trendingCache.ts:86 | once a refresh has its result nothing is in flight |
| TrendingCache.OneRefreshAndSpaced | src/product/trending/trendingCache.ts:82-88 | in every interleaving at most one refresh is in flight, and after a successful one no other starts within the lifetime |
| TrendingCache.StartedIff | src/product/trending/trendingCache.ts:83-86 | a request is served the snapshot exactly when that is younger than the lifetime; a refresh is started exactly by another request with none in flight |
| TrendingCache.ResultShared | src/product/trending/trendingCache.ts:84-87 | whoever waits for a refresh gets its one result |
| TrendingCache.FailureKeepsTokens | src/product/trending/trendingCache.ts:99-105 | a failed refresh keeps the last good tokens and their time, marked stale |
| TrendingCache.ServedIsGood | src/product/trending/trendingCache.ts:69-83 | with a clock that does not go back a snapshot served from the cache is never a stale fallback |
| TrendingCache.FailuresUnthrottled | src/product/trending/trendingCache.ts:86-105 | any number of refreshes can start and fail at one instant |
| TrendingCache.OncePerLifetimeIff | src/product/trending/trendingCache.ts:8-12 | in every interleaving any two refreshes, failed ones too, start at least a lifetime apart if and only if no request comes, with nothing fresh and nothing in flight, less than a lifetime after one that failed |
| TrendingResults.ResultIsArrivals | src/product/trending/trendingCache.ts:90-121 | in every interleaving a refresh that ended well had as many evaluations come back as the source named addresses, and its tokens are the payloads among them, each once and in the order of the addresses; one that ended badly had no addresses |
| TrendingResults.SnapshotIsArrivals | src/product/trending/trendingCache.ts:98-120 | and whatever snapshot is kept, fresh or stale, has the tokens and the time of a refresh that ended well |
| Resilience.ResilientCliExecutor.Execute | src/hardening/ResilientCliExecutor.ts:94-138 | the breaker after a run and the inner calls it made |
| Resilience.HistoryReflects | src/hardening/guards.ts:50-70 | the breaker is a function of what happened: failures since the last success, open exactly when they reach the threshold, since the last of them |
| Resilience.AdmittedIff | src/hardening/ResilientCliExecutor.ts:94-112 | a run makes calls if and only if it is not killed and failures stand below the threshold or the cooldown has passed since the last; at most `maxAttempts` of them |
| Resilience.OneCallIff | src/hardening/ResilientCliExecutor.ts:94-138 | an admitted run, so the trial of an open breaker too, makes exactly one inner call if and only if only one attempt is allowed or its first call does not fail in a way worth retrying; a trial starts at least a cooldown after the breaker opened |
| Resilience.OneTrialIff | src/hardening/guards.ts:26-29 | over all histories every trial of the half-open breaker is a single call if and only if runs never retry |
| Resilience.TrialCallsTwice | src/hardening/guards.ts:26-29 | a history whose trial calls twice |
| Resilience.BurstBound | src/hardening/ResilientCliExecutor.ts:94-138 | when all calls fail, a run that finds fewer calls made than the threshold - however long ago - leaves at most `failureThreshold - 1 + maxAttempts` behind it, and one admitted past the threshold has waited a full cooldown |
| Resilience.FirstBurst | src/hardening/ResilientCliExecutor.ts:94-138 | so no more than that many calls are made before the first run at or past the threshold |
| Resilience.RetryWaits | src/hardening/retryPolicy.ts:54-79 | a failure is retried exactly when it is a rate limit or a network error with attempts left; the wait covers the backoff and a known reset |
| Resilience.DelaySchedule | src/hardening/retryPolicy.ts:85-96 | one delay before each further attempt, never shrinking, none above the cap |
| RetryCalls.CallsAre | src/hardening/ResilientCliExecutor.ts:94-138 | in any history an admitted run goes on past each rate limit and network failure and past nothing else until its attempts are used up; a run that is not admitted makes no call |
| RetryCalls.BackoffSteps | src/hardening/retryPolicy.ts:68-69 | the first backoff is the base delay and each further one the factor times the one before, none above the cap |
| FlowClusters.DetectFlowClusters | src/core/flow/flowEngine.ts:132-169 | the two-pointer scan reports exactly the clusters of the naive windows |
| FlowClusters.DetectSide | src/core/flow/flowEngine.ts:141-166 | the same for one side's sorted events |
| FlowClusters.AdvanceStart | src/core/flow/flowEngine.ts:146-152 | the inner loop leaves the start where the naive window begins |
| FlowClusters.SliceIsWindow | src/core/flow/flowEngine.ts:141-152 | the slice between the pointers is exactly the earlier events within the window and the event itself |
| FlowClusters.EveryConvergenceReported | src/core/flow/flowEngine.ts:128-131 | same-side events of enough makers, no two further apart than the window, all lie in one reported cluster |
| FlowClusters.ReportedIsConvergence | src/core/flow/flowEngine.ts:154-165 | a reported cluster is a window of its side, spans no more than the window from its earliest event to its last, counts the distinct makers of its events - enough of them - and adds up their amounts |
| FlowClusters.ReportedInOrder | src/core/flow/flowEngine.ts:132-169 | the purchases come before the sales, and the clusters of a side by their ends |
| FlowClusters.OrderOfEventsIrrelevant | src/core/flow/flowEngine.ts:63-73 | the clusters depend only on which events there are |
| Coordination.DetectCoordination | src/structure/coordination/detector.ts:41-191 | reports the eligible wallets of exactly the funder with most members, the smallest name on ties, with its windows, strength and status; or that none qualifies, and why |
| Coordination.IndexFunding | src/structure/coordination/detector.ts:64-65 | the index holds each wallet's last record |
| Coordination.CollectEligible | src/structure/coordination/detector.ts:77-95 | exactly the wallets with a resolved funder that is not shared infrastructure, and whether any was unresolved |
| Coordination.GroupByFunder | src/structure/coordination/detector.ts:98-103 | each funder's members, in order |
| Coordination.WindowSeconds | src/structure/coordination/detector.ts:22-31 | the span from the least to the greatest time, none for no times |
| Coordination.Describe | src/structure/coordination/detector.ts:125-181 | the windows, supply, evidence and strength of a group |
| Coordination.PickBest | src/structure/coordination/detector.ts:107-117 | the loop over the groups finds the strongest qualifying funder |
| Coordination.BestUnique | src/structure/coordination/detector.ts:105-117 | there is only one |
| CoordinationOrder.OrderIrrelevant | src/structure/coordination/detector.ts:41-191 | permuting the wallets, and reordering or repeating funding records in any way that keeps each wallet's last one, changes neither status nor anything of the cluster but the order its members are listed in |
| CoordinationOrder.OneRecordEach | src/structure/coordination/detector.ts:41-191 | so with one funding record for each wallet no permutation of the records matters |
| CoordinationOrder.ObservedIff | src/structure/coordination/detector.ts:166-171 | a cluster is observed exactly when the entry time of every member is known; observed without being tight in time exactly when all are known and some two are further apart than the limit |
| CoordinationOrder.ObservedNotTight | src/structure/coordination/detector.ts:166-171 | three wallets of one funder entering two minutes after one another are reported as observed |
| CoordinationOrder.StrengthMeans | src/structure/coordination/detector.ts:149-164 | HIGH exactly when four or more members were all funded within the one limit and all entered within the other; LOW exactly when they did neither; the evidence names each |
| CoordinationOrder.TightIff | src/structure/coordination/detector.ts:135-153 | a window is tight exactly when every time is known and no two are further apart than the limit |
| CoordinationOrder.LastRecordWins | src/structure/coordination/detector.ts:63-65 | with two records for a wallet their order does matter: the same records exchanged give the cluster of another funder |
| CoordinationOrder.RepeatedWalletIsCluster | src/structure/coordination/detector.ts:80-103 | one wallet observed three times is a cluster of three |
| CoordinationMembers.MembersAre | src/structure/coordination/detector.ts:59-123 | a cluster is reported if and only if some funder has enough observations of real wallets of the token whose last record is resolved, names it and has no type of shared infrastructure; the anchor leads every other such funder, by more observations or the smaller name; the members are the wallets of its observations, in order, once for each |
| CoordinationMembers.NoSharedMember | src/structure/coordination/detector.ts:80-87 | no member's last record has a type that reads, whatever its case and the white space around it, as one of the eleven names of shared infrastructure; it is resolved and names the anchor |
| CoordinationMembers.MemberEachTime | src/structure/coordination/detector.ts:77-95 | a wallet is a member as often as it is observed on the token, not simulated, if its last record is resolved, names the anchor and has no such type, and else never |
| CoordinationMembers.NothingReported | src/structure/coordination/detector.ts:119-123 | without a cluster the observation says exactly whether a real wallet of the token had no resolved funder |
| CoordinationMembers.ReportIs | src/structure/coordination/detector.ts:125-181 | the windows are the greatest distances of the members' funding and entry times, the supply the sum of their shares, each only when all are known; observed exactly when all entry times are |
| CoordinationMembers.CaseAndSpaceIgnored | src/structure/coordination/detector.ts:85-87 | types that differ only in case or in the white space around them give the same observation |
| FunderTypes.SameTextIff | src/structure/coordination/detector.ts:86-86 | two texts trimmed and in lower case are one exactly when they are the same but for the case of their letters and the white space around them |
| Replay.Replay | src/replay/replay.ts:38-66 | computes one frame for each time of the sorted observations |
| Replay.NoLookahead | src/replay/replay.ts:59-64 | for every cutoff and stepper the frames up to the cutoff are the replay of the observations up to it |
| Replay.OneFrameForEachTime | src/replay/replay.ts:47-56 | frame times strictly increase, with one frame for each distinct observation time |
| Replay.FrameSeesItsPast | src/replay/replay.ts:59-63 | a frame is built from exactly the observations at or before it |
| WarIndices.WarScore | src/product/analysis/warIndices.ts:367-405 | the blending loop computes the capped, renormalised average of what contributes; the keys that contribute are those weighted and scored, the excluded ones those weighted without a score, and the score is absent exactly when nothing contributes |
| WarIndices.IntegrityIndex | src/product/analysis/warIndices.ts:232-270 | the checklist's score, its fatal honeypot and its cap |
| WarIndices.OneIndexForEachKey | src/product/analysis/warIndices.ts:408-420 | the nine indices have the nine keys, one each, whatever is missing; every score lies between 0 and 100, only integrity is ever fatal and nothing else caps the composite |
| WarIndices.ScoreBounds | src/product/analysis/warIndices.ts:367-405 | for every input the score is absent or in 0..100, 0 on a honeypot, and present and at most 45 with live mint or freeze authority |
| WarIndices.Analyze | src/product/analysis/warIndices.ts:434-448 | the whole analysis: a composite within those bounds, and findings that begin with the most severe of the nine readings |
| WarIndices.RiskNeverRaises | src/product/analysis/warIndices.ts:137-405 | with the same inputs present and bot and rat-trader rates of at most 1, raising any of the seven risk inputs never raises the score |
| WarIndices.RiskNeverRaisesIff | src/product/analysis/warIndices.ts:166-169 | for bot rates up to b and rat-trader rates up to r, raising any risk input never raises the score if and only if b or r is at most 1 or two rates at the bounds give a share that rounds to nothing: 200 (b - 1)(r - 1) < 1 |
| WarIndices.VisibleRaises | src/product/analysis/warIndices.ts:166-169 | from that threshold on there is such a pair: with nothing else known, raising the rat-trader rate from 0 to r under a bot rate of b raises the score from 0 |
| WarIndices.ScoreBetweenContributors | src/product/analysis/warIndices.ts:341-346 | without a cap the score lies between the worst and the best contributing index, whatever is missing |
| WarIndices.WorstFirst | src/product/analysis/warIndices.ts:437-445 | the findings are ranked by severity and none left out is more severe than the first |
| WarReadings.RisksRead | src/product/analysis/warIndices.ts:137-205 | the concentration and sniper readings as figures of the inputs, and exactly when they are there |
| WarReadings.MarketRead | src/product/analysis/warIndices.ts:115-317 | the same for absorption and the distance from the peak |
| WarReadings.OrganicRead | src/product/analysis/warIndices.ts:161-181 | the same for the organic share |
| WarReadings.IntegrityRead | src/product/analysis/warIndices.ts:232-270 | the integrity reading as what the checks earn of what they could, 0 and fatal for a honeypot, capping at 45 with a live authority; taxes alone do not make one |
| WarReadings.ActivityRead | src/product/analysis/warIndices.ts:207-337 | the same for conviction, flow and turnover |
| WarReadings.FindingsAre | src/product/analysis/warIndices.ts:437-445 | the findings are the five worst readings or all of them, none twice, the worst first |
| WarReadings.NoneWorseLeftOut | src/product/analysis/warIndices.ts:437-445 | and no reading left out is worse than one listed |
| WarGains.BetterNeverLowers | src/product/analysis/warIndices.ts:115-405 | the other way round: more buys, liquidity or notable holders, an authority given up, a larger lock or burn, a lower tax or an end of wash trading never lower the score |
| WarGains.FullBlend | src/product/analysis/warIndices.ts:367-405 | with all seven weighted indices there, no ceiling and no honeypot, the score is their mean in the weights 22, 20, 18, 15, 10, 8 and 7, concentration and snipers turned round, rounded half up |
| PowerEngine.ContributionsOf | src/core/power/powerEngine.ts:49-62 | each weighted factor's part in order, and their sum |
| PowerEngine.ComputePower | src/core/power/powerEngine.ts:69-83 | the score is the difference of the two sides' parts, clamped; the parts are those of the supporting and of the opposing weights; coherence is carried along, clamped |
| PowerEngine.ComputeThreat | src/core/power/powerEngine.ts:89-95 | the score is the sum of the dangers' parts, clamped |
| PowerEngine.PowerMonotone | src/core/power/powerEngine.ts:69-83 | stronger support and weaker opposition never lower power |
| PowerEngine.ThreatMonotone | src/core/power/powerEngine.ts:89-95 | stronger dangers never lower threat |
| PowerEngine.ComputeThreatActivations | src/core/features/threatActivations.ts:47-78 | activates what the latest row knows and lists every other factor as unknown |
| PowerEngine.ThreatIs | src/core/features/threatActivations.ts:59-77 | a scan's threat in terms of its latest analytics row |
| StateTable.PowerIs | src/core/power/powerEngine.ts:69-83 | power in terms of its six factors and their weights |
| PriceTrajectory.Normalize | src/core/temporal/temporalEngine.ts:60-77 | sorts by time and value and drops exact repeats |
| PriceTrajectory.OrderIrrelevant | src/core/temporal/temporalEngine.ts:60-77 | the trajectory depends only on which points there are |
| StateMachine.StepIs | src/core/state/stateMachine.ts:160-193 | a step stays exactly when no other state is open; otherwise it enters the first open one of the order |
| StateMachine.LeavesAfterDwell | src/core/state/stateMachine.ts:169-189 | after the dwell a step leaves every state but OBSERVING, however well justified |
| StateMachine.OnlyDangerBeforeDwell | src/core/state/stateMachine.ts:172-173 | before it only a danger state can be entered |
| StateMachine.FreshStep | src/core/state/stateMachine.ts:160-198 | a machine just started stays, or enters a danger state on the evidence for that state alone |
| StateTable.StepEnters | src/core/state/stateMachine.ts:46-193 | under the configured constants, the state each step leads to: the first that applies of the seven conditions, from collapse to emerging, that the minute's dwell lets it enter |
| ScanState.EvaluateState | src/core/features/warEvaluation.ts:123-170 | the state of a scan from its bundle through activations, threat, persistence and trajectory, for any power, confidence and net coherence, which are parameters |
| ScanState.FlowPersistence | src/core/flow/flowEngine.ts:109-113 | the dominant side's share of the events, between one half and one |
| ScanState.ScanStateIff | src/core/features/warEvaluation.ts:159-170 | it is OBSERVING, BLEEDING or COLLAPSE; it leaves OBSERVING exactly when the latest row flags wash trading with 30 rug + 25 top-10 of at least 50 and the price moves down; it collapses exactly when that accelerates and the flow persists |
| ScanState.DangerNeedsBoth | src/core/features/warEvaluation.ts:129-133 | leaving OBSERVING needs both rates known, the rug ratio at least 5/6 and the top-10 rate at least 4/5 |
| ScanState.OnlyLatestRow | src/core/features/warEvaluation.ts:124 | older analytics rows do not matter |
| ScanPrices.StateMeans | src/core/features/warEvaluation.ts:123-170 | the same told from the observed prices, flow and rows: it leaves OBSERVING exactly when the last row is dangerous and the price falls from the last point but one to the last without slowing down, and collapses exactly when it falls faster and faster with three fifths of the flow on one side |
| ScanPrices.SeriesUnique | src/core/temporal/temporalEngine.ts:60-77 | the observed prices have one series: each once, by time and then by value |

## Left out

- HTTP transport, routing, CORS, logging, environment and deployment: no state of their own.
- Telegram authentication and identity hashing: they rest on library cryptography.
- The endpoint model of `/scan` takes the answer of the quota check as given; `UsageTraffic` is about the quota alone.
- The PostgreSQL stores: their behaviour is in SQL the model cannot see; the repository contracts stand for them.
- The GMGN, Solana and EVM clients and message delivery: they are answers handed to the steps.
- The payments, pricing, monitors, observations, alerts and users repositories of the in-memory store: no scan writes them.
- Overlap of two in-memory transactions: the in-memory rollback restores the whole store, so transactions are modelled as the atomic ones of the contract.
- Overlapping wallet ticks: ticks are serial in the model; the code does not exclude overlap.
- The other routes of `wiredApp.ts` that charge (watch tiers, watches): in the endpoint model they only draw sequence numbers.
- The gates of the scan handler before an op id exists (authentication, consent, membership, a missing token): they answer without touching any ledger; the account registration of the first contact is part of the request's arrival.
- UsageStore.InMemoryUsageStore.Today: does not model the text of a day (YYYY-MM-DD), because a day's number stands for it, nor instants outside the platform's date range.
- The dead branch of the scan handler for an entitlement that cannot be issued: issuing never fails.
- The founder-wallet tick, exit observation and flow USD totals, intel cards, pricing tables, consent, membership and referral bookkeeping: easy members.
- Report, evidence, event and signal contents: a report is an opaque text, evidence and events are lists stored as they come.
- The wallet and token texts of alerts, display strings, formulas and readings of the indices, and the parsing of tax strings (a tax is its parsed number).
- The confidence, coherence, lead/lag, novelty and attention engines and the power activations: the state of a scan is proved for whatever they find.
- Floating-point rounding: sums, shares and scores are reals.
- Coordination.DetectCoordination: does not model the lower case of letters outside ASCII other than the Kelvin sign, because no other's is a letter of the eleven names.
- ScanState.EvaluateState: does not compute power, confidence and net coherence from the bundle, because the state turns out not to depend on them (`ScanState.ScanStateIff` holds for all of them).
- WarIndices.WarScore: does not model the band and the texts of the verdict, which only display the score.
- WatchTick.RunWalletWatchTick: does not model a read of the cursor apart from the fetch that follows it, because both throw into the same handler before anything is sent.
- Strings of JavaScript compare by UTF-16 unit and here by character; they agree within the basic plane.
