# A Dafny model of metering, billing and Stripe sync

The model covers a usage metering and billing engine: quota-checked usage
recording, per-category pricing, monthly invoices, Stripe webhooks and the
reconciliation job. It proves what whole runs of these services keep, one after
another and interleaved.

How the model is laid out:

- `Models`, `UsageSchema`, `Dates`, `Session`: rows, validated requests, calendar
  windows, and a session whose commit installs all pending changes or none and
  rejects a violated constraint.
- `UsageRepository`, `SubscriptionRepository`, `UsageService`, `GenerateService`,
  `CostService`, `BillingService`, `StripeService`, `ReconciliationService`: one
  module per source component. Each operation is a function of the tables (and
  of the clock readings, Stripe answers or commit failures it meets); the classes
  carry it out step by step on a `Session` and are proved to compute that function.
  What the function answers is then stated without it: `RecordInsertsIffAdmitted` and
  `RefusalReasons`, `GenerateAnswers`, `RollupVersusQuotes`, `BillSays`,
  `DeliveryReply` and `EventEffect`, `RetryMeans`, `ViewMeans` and `RunAnswers`.
- `CallPricing`: the two prices of an event that `generate` records as an API call.
- `Schedules`: runs of a step machine. `ConcurrentMetering`, `ConcurrentWebhooks`:
  machines in which any number of requests or handlers interleave at their database
  accesses. A request or handler that runs undisturbed is proved equal to the
  sequential operation.
- `WebhookOrder`: when interleaved webhook handlers amount to a sequence.
- `SystemRuns`: sequential runs that mix all operations under a monotone clock.
- `FloatCeiling`, `Powers`, `Sums`: binary64 rounding, powers of two, weighted sums.

Month windows and row timestamps are separate clock readings everywhere, so every
quota result covers a month that turns in the middle of a request.

Where the code and its own documentation disagree, the model follows the code:

- Quotas are documented as hard limits. Under concurrency they are not: with at most
  n requests in flight, each of at most q, a month can exceed its limit by
  (n - 1) * min(q, limit). `QuotaOvershoot` proves the bound and
  `OvershootIsAttained` reaches it for every n, q and limit. One at a time the limit
  is strict (`SequentialQuota`).
- Only an active subscription is documented to record usage. A request that passed
  the status check still inserts after a cancellation: `LateInsertsBounded` and
  `LateInsertsAttained` give the exact number of such rows.
- Money is documented as float-free, but block counts are `math.ceil(n / 1000)` on
  a double. `CeilingIsExact` and `CeilingFailsNext` give the largest initial range in
  which that is harmless, counts up to 1000 * 2^44. Beyond it, up to 1000 * 2^52,
  `CeilingPerBand` says which counts are priced one block short: those less than
  1000 / 2^j above a multiple of 1000, where 2^(53-j) <= n / 1000 < 2^(54-j).
- Reconciliation is documented to sync status and plan, to catch dropped webhooks, and
  to raise when a retrieve fails. It syncs the status only and skips failing rows:
  `DroppedWebhooksRecovered` and `ReconciliationConverges` say exactly what is
  repaired, and `DroppedWebhookRecoveredIff` that a lost plan change stays lost.
- `TokenUsageCreate` is documented to pin the usage type to TOKENS. The type is a
  default that a caller can override; an event generated as API_CALL is quoted by
  token categories and rolled up by calls. `AllQuotesVersusRollup` bounds what the two
  prices can differ by, for events of either type, and `AllQuotesAttained` reaches it.
- The repository's README gives per-block prices in dollars; the constants in the
  code are cents, that is 1000 / 3000 / 6000 / 6000 / 20000 micro-units.

Checkouts look a tenant's subscription up before they insert one. One after another
they leave a tenant max(previous count, 1) subscriptions (`CheckoutCount`).
Interleaved they do so if and only if the tenant already has a subscription, or at
most one of its checkout events is in flight at a time, or it cannot have one at all
(`CheckoutLawIff`). More generally, interleaved handlers leave what some sequence of
deliveries leaves if no handler commits while another has staged an event about the
same row or tenant (`CommitOrderIsSerial`); without that two updates can mix their
columns in a way that no sequence does (`UpdatesMayMix`).

## Model

| member | source | states |
|---|---|---|
| `ConcurrentMetering.QuotaOvershoot` | app/services/usage_service.py:18-66 | in every interleaving with at most n requests in flight per subscription and type, each of quantity at most q, every calendar month stays at most (n - 1) * min(q, limit) over the limit, even if the month turns between window, SUM, timestamp and INSERT; n = 1 is the strict quota |
| `ConcurrentMetering.OvershootIsAttained` | app/services/usage_service.py:41-66 | for every n, q and limit, from any tables whose month holds limit - min(q, limit), a valid schedule within those assumptions reaches the bound exactly, so it cannot be lowered |
| `ConcurrentMetering.ExactlyOnce` | app/repositories/usage_repository.py:24-47 | in every interleaving there is at most one row per idempotency key, every request that returns for a key returns that row, and row and answer never change afterwards |
| `ConcurrentMetering.RunIsSound` | app/repositories/usage_repository.py:25-47 | along every schedule the usage table only grows and finished requests stay finished |
| `ConcurrentMetering.LateInsertsBounded` | app/services/usage_service.py:34-39 | while a subscription is not active it gains at most as many rows as requests had already passed the status check |
| `ConcurrentMetering.LateInsertsAttained` | app/services/usage_service.py:34-66 | for every n, n requests can pass the status check before a deactivation and all insert after it, so that bound cannot be lowered |
| `ConcurrentMetering.SerialIsRecord` | app/services/usage_service.py:18-66 | six undisturbed steps have the effect and the answer of the sequential call |
| `UsageService.UsageService.RecordUsage` | app/services/usage_service.py:18-66 | the stepwise service computes the specified tables and answer on a session |
| `UsageService.UsageRows.Create` | app/repositories/usage_repository.py:24-47 | insert succeeds exactly when the key is free; on a conflict the session is rolled back and the stored row returned |
| `UsageService.RecordInsertsIffAdmitted` | app/services/usage_service.py:18-66 | a row is appended iff key unseen, subscription active and month total plus quantity within the limit (equality allowed); a call answers an event iff the key is recorded afterwards |
| `UsageService.RefusalReasons` | app/services/usage_service.py:27-64 | each refusal names its true reason: no such subscription, its status, or the limit, current month total and request that exceed it |
| `UsageService.AppendRespectsKeys` | app/models/usage_event.py:65-69 | the unique constraint rejects an append iff the lookup by key finds a row |
| `UsageRepository.MonthsAddUp` | app/repositories/usage_repository.py:61-76 | totals of any run of consecutive calendar months add up to the total of the whole span |
| `UsageRepository.TypesAddUp` | app/repositories/usage_repository.py:61-96 | over any period API_CALL plus TOKENS is the total usage |
| `UsageRepository.PeriodsAddUp` | app/repositories/usage_repository.py:61-120 | every kind of total of a period is the sum of those of its two parts, for any instant in it and with either bound missing |
| `UsageRepository.RowAdds` | app/repositories/usage_repository.py:61-120 | one more row adds its quantity to its own subscription's total and its four categories if it is a TOKENS row, and nothing to any other subscription |
| `UsageRepository.WindowTotalIsMonthTotal` | app/services/usage_service.py:41-48 | the total over `month_bounds()` counts exactly the rows stamped in the current month |
| `UsageRepository.BreakdownConserved` | app/repositories/usage_repository.py:98-120 | the four token totals never exceed the tokens used, with equality iff every selected row carries its breakdown |
| `UsageSchema.AcceptedIsWellFormed` | app/schemas/usage.py:8-38 | validation lets through exactly the requests whose breakdown is the quantity, or is absent with a positive quantity |
| `UsageSchema.PlainUsageAccepted` | app/schemas/usage.py:8-12 | POST /usage accepts exactly the positive quantities, of either type, without a breakdown |
| `UsageSchema.TokenUsageCreate.constructor` | app/schemas/usage.py:15-38 | whatever quantity the caller sent, the validated body is a well-formed request with the caller's categories and usage type, whose quantity is their sum |
| `Dates.WindowsTile` | app/utils/dates.py:17-30 | each instant lies in its own window, two windows are equal or disjoint, and a window ends where the next month's begins |
| `Dates.WindowIsMonth` | app/utils/dates.py:17-30 | a window contains an instant iff they share the calendar month, December included |
| `Dates.SpanIsMonths` | app/utils/dates.py:17-30 | between two month starts lie exactly the months between them |
| `FloatCeiling.CeilingIsExact` | app/services/cost_service.py:56-58 | the ceiling of the correctly rounded quotient n / 1000 equals the integer ceiling for every n up to 1000 * 2^44, however ties are broken |
| `FloatCeiling.NearestExists` | app/services/cost_service.py:56-58 | n / 1000 has a nearest double for every n below 1000 * 2^52, so the results about it are never empty |
| `FloatCeiling.CeilingFailsNext` | app/services/cost_service.py:56-58 | at the next n the nearest double is 2^44 and the ceiling is one block short, so that initial range is the largest |
| `FloatCeiling.CeilingPerBand` | app/services/cost_service.py:56-58 | for 2^(53-j) <= n / 1000 < 2^(54-j), j from 2 to 9, the ceiling is right if n mod 1000 is 0 or above 1000 / 2^j, one block short if it lies strictly between 0 and 1000 / 2^j, and at exactly 1000 / 2^j depends on the tie |
| `FloatCeiling.BlocksIsLeast` | app/services/cost_service.py:51-52 | the block count is the least number of 1000-blocks that holds n |
| `CostService.RoundingExists` | app/services/cost_service.py:54-64 | a correctly rounded division exists on the whole exact range, as the results below assume |
| `CostService.FloatPricingIsExact` | app/services/cost_service.py:54-60 | pricing through floats agrees with integer pricing while no bucket exceeds that range |
| `CostService.FloatRollupIsExact` | app/services/cost_service.py:62-96 | a rollup computed through floats equals the integer rollup while neither type's total exceeds that range |
| `SystemRuns.QuotaKeepsFloatsExact` | app/services/cost_service.py:54-97 | after any mixed run whose plan limits stay within that range, every quote and every monthly rollup computed through floats is the integer price |
| `CostService.PricedByStartedBlock` | app/services/cost_service.py:42-64 | at block boundaries each category pays its own rate and reasoning the output rate; a started block costs a full one |
| `CostService.QuotedVersusRolledUp` | app/services/cost_service.py:54-97 | for n TOKENS events the rolled-up token cost is at most the sum of the quotes and short of it by at most n - ceil(n / 1000) cents |
| `CostService.ShortfallIsAttained` | app/services/cost_service.py:54-97 | that shortfall is reached for every n, by rows with distinct keys |
| `CallPricing.GeneratedVersusCalled` | app/services/generate_service.py:31-38 | events generated as API_CALL: the call price is at most the plain calls' own price plus 20 times the quotes, and the quotes of n such events at most 3/10 of the call price plus an excess that depends on n only, about 9982 micro-units an event |
| `CallPricing.ExcessIsAttained` | app/services/generate_service.py:31-38 | the quotes reach that bound for every n, by rows with distinct keys |
| `CallPricing.CallPriceIsAttained` | app/services/cost_service.py:62-64 | the call price reaches its bound for every n |
| `CallPricing.AllQuotesVersusRollup` | app/services/cost_service.py:69-110 | the quotes of a period, of either type, against the rolled-up cost of the same rows, both ways |
| `CallPricing.AllQuotesAttained` | app/services/cost_service.py:69-110 | for every number of events of either type some usage with distinct keys has quotes that exceed its rollup by exactly that much |
| `CostService.RollupVersusQuotes` | app/services/cost_service.py:69-110 | a rollup exists iff the subscription does, splits the period's usage by type, reports that subscription's plan limits, and costs 20000 micro-units per started block of calls and 1000 / 3000 / 6000 per started block of the token totals; that is the API price plus the quotes up to that shortfall |
| `GenerateService.GenerateService.Generate` | app/services/generate_service.py:23-44 | metering and then pricing the stored row computes the specified response |
| `GenerateService.GenerateAnswers` | app/services/generate_service.py:31-44 | a call is answered with an event iff its key is recorded afterwards, then with that row and the price of its categories; a refusal changes nothing and gives its true reason: no such subscription, its status, or limit, current total and request |
| `GenerateService.FirstCallQuotesBody` | app/services/generate_service.py:31-44 | a first call under a key stores the caller's breakdown and usage type, stamped at the insert, and quotes 1000 / 3000 / 6000 micro-units per started block of cached input, input, and output with reasoning |
| `GenerateService.RetryMirrorsResponse` | app/services/generate_service.py:26-31 | once generated, a key answers the same event and cost and changes nothing, whatever was appended, cancelled or re-planned, and whatever the retry's body |
| `SystemRuns.GenerateIsStable` | app/services/generate_service.py:26-44 | the same over any mixed run of all operations in between |
| `BillingService.BillingService.CalculateBill` | app/services/billing_service.py:27-69 | the stepwise service computes the specified invoice and tables |
| `BillingService.BillSays` | app/services/billing_service.py:33-69 | every known subscription gets a bill, for both ends given or else the calendar month; a new one charges price plus 10 cents for each unit of the period's usage over the plan's limit, a stored one is answered as it is |
| `BillingService.BillingAppendsOnce` | app/services/billing_service.py:39-69 | a bill stores an invoice only for a period that had none, with the period's total over both types, the plan's price and limit and consistent figures, and answers the period's one invoice |
| `BillingService.FirstInvoiceStays` | app/repositories/invoice_repository.py:38-52 | later invoices never displace the one a lookup finds |
| `BillingService.FrozenInvoiceDrift` | app/services/billing_service.py:43-46 | after more usage, the same period under the same plan costs at least the stored amount and at most 10 cents per appended unit more, exactly that once in overage |
| `SystemRuns.RunEvolves` | app/models/subscription.py:46-50 | over every mixed run keys, event markers, Stripe links and invoice periods stay unique, breakdowns conserved, rows append-only, and ids and tenants of subscriptions fixed |
| `SystemRuns.StepAnswers` | app/services/usage_service.py:18-66 | in a mixed run each answer is true of the tables: a recorded event, an accepted webhook, a count of changed rows and a bill exist exactly as answered |
| `SystemRuns.RetriesErased` | app/services/usage_service.py:20-25 | removing every retried request and every replayed or failed webhook from any mixed history changes neither the final tables nor any other answer, and leaves a history without retries |
| `SystemRuns.SequentialQuota` | app/services/usage_service.py:41-66 | one at a time, no calendar month exceeds the limit, while plans may change within it |
| `SystemRuns.QuotaBoundsBill` | app/services/billing_service.py:43-46 | no calendar-month invoice has more overage than max(api_call_limit + tokens_limit - usage_limit, 0), nor costs more than the price plus 10 times that |
| `SystemRuns.BillIsFrozen` | app/services/billing_service.py:48-54 | once billed, a period answers the same figures whatever usage, plan or status changes follow |
| `SystemRuns.MonthHasOneBill` | app/services/billing_service.py:39-54 | all default-period bills in one calendar month answer the first one's figures |
| `SystemRuns.FrozenBillDrift` | app/services/billing_service.py:45-67 | at any later time a stored bill is low by at most 10 cents per unit recorded in its period since |
| `SystemRuns.RowsInsertedWhileActive` | app/services/usage_service.py:34-39 | every row recorded in a mixed run was inserted by a metering call while its subscription was active |
| `SystemRuns.InactiveRowsConstant` | app/services/usage_service.py:34-39 | along any stretch where a subscription stays non-active its rows do not change |
| `SystemRuns.UpdateDecidesAccess` | app/constants/subscription_status.py:11-19 | after a committed update a new request for the row with the event's Stripe id is refused as not active iff the event carried one of five texts; any other text or none grants access |
| `SystemRuns.ReconcileDecidesAccess` | app/services/reconciliation_service.py:49-60 | after a committed reconciliation the same holds of the text Stripe answered |
| `StripeService.StripeService.HandleWebhook` | app/services/stripe_service.py:89-122 | the stepwise handler, with marker, processing, commit or rollback, computes the specified tables and reply |
| `StripeService.DeliveryReply` | app/services/stripe_service.py:96-133 | the reply to every delivery, case by case: unconfigured, badly signed, accepted iff seen before or processable, storable and the database available, else failed; what is not newly accepted changes nothing, and unhandled event types are accepted and marked |
| `StripeService.DeliveryIsAtomic` | app/services/stripe_service.py:111-122 | only an accepted delivery of an unseen event changes anything, and it adds exactly its own marker |
| `StripeService.EventEffect` | app/services/stripe_service.py:124-190 | row by row: an update sets status and known plan of the row with the Stripe id and of no other, a deletion cancels it; a checkout reuses its tenant's first row, keeping Stripe ids the session does not name, or inserts a row with the new id and no other Stripe ids, active and on the bought plan |
| `StripeService.ReplaysAndFailuresErased` | app/services/stripe_service.py:111-122 | any sequence of deliveries commits the same tables as only the first accepted delivery of each event id, whose markers are exactly the new ones |
| `StripeService.FailureIsForgotten` | app/services/stripe_service.py:117-122 | a failed delivery can be dropped from any history of deliveries, and a retry that follows it is accepted iff processing does not raise and meets the constraints |
| `StripeService.DeliveryTouchesOneRow` | app/services/stripe_service.py:135-182 | a delivery changes or adds at most one subscription and no row's id or tenant |
| `StripeService.CheckoutCount` | app/services/stripe_service.py:140-154 | a committed checkout leaves its tenant max(previous count, 1) subscriptions; no event changes another tenant's count |
| `ConcurrentWebhooks.CommittedAtMostOnce` | app/services/stripe_service.py:111-122 | in every interleaving the subscriptions are the initial ones with the committed transactions applied in order; each is what its own event staged in a state before the commit, has an accepted handler and brings exactly its marker; no event id is committed twice |
| `ConcurrentWebhooks.AloneIsDeliver` | app/services/stripe_service.py:111-122 | an undisturbed handler, flushing only the columns it changed, has the effect and reply of the sequential one |
| `WebhookOrder.CommitOrderIsSerial` | app/services/stripe_service.py:111-182 | if no handler commits while another one has staged an event about the same row, tenant or Stripe id, the tables are those of delivering the committed events one after another in commit order |
| `WebhookOrder.UpdatesMayMix` | app/services/stripe_service.py:156-170 | two updates of one row staged together can leave the status of the first and the plan of the second, which neither order of delivering them does |
| `ConcurrentWebhooks.CheckoutRows` | app/services/stripe_service.py:137-154 | in every interleaving a tenant with a subscription keeps its number of them; one without ends with at most as many as its checkout events in flight at once, and with none iff no checkout of its committed |
| `ConcurrentWebhooks.RowsWithinArrivals` | app/services/stripe_service.py:111-154 | such a tenant ends with at most as many rows as distinct checkout events of its arrived, however often each was delivered |
| `ConcurrentWebhooks.CheckoutsMayDuplicate` | app/services/stripe_service.py:140-147 | for every n, n first checkouts of one tenant in flight together can leave it n subscriptions |
| `ConcurrentWebhooks.CheckoutLawIff` | app/services/stripe_service.py:137-154 | the checkout count law holds in all interleavings iff the tenant has a subscription, or at most one of its checkout events is in flight at a time, or the tenant or every plan is missing |
| `ReconciliationService.ReconciliationService.Retry` | app/services/reconciliation_service.py:70-82 | for any attempts and base_delay: returns the first success or raises the last failure, after k failures having slept base_delay * (2^k - 1), without a sleep after the last attempt; a negative base_delay ends the retries at the first sleep with ValueError |
| `ReconciliationService.RetryMeans` | app/services/reconciliation_service.py:70-82 | the same of the function that every run applies to a linked row |
| `ReconciliationService.BackoffSums` | app/services/reconciliation_service.py:73-81 | k doubling delays add up to base_delay * (2^k - 1) |
| `ReconciliationService.ViewMeans` | app/services/reconciliation_service.py:49-60 | a linked row takes the status of the first successful retrieve of its Stripe id within the attempts, and stays as it is if all raise |
| `ReconciliationService.ReconciliationService.RunOnce` | app/services/reconciliation_service.py:37-68 | ends in the reconciled rows and returns the number of rows that differ, or raises and leaves the rows when the commit fails; 0 without a client; makes exactly the calls of its retries |
| `ReconciliationService.RunAnswers` | app/services/reconciliation_service.py:43-68 | the count a run answers is the number of positions in which the committed rows differ, 0 without a client, none if the commit raises |
| `ReconciliationService.ReconciliationConverges` | app/services/reconciliation_service.py:46-68 | if all retrieves succeed, two databases end equal iff they agreed on all but the statuses of linked rows |
| `ReconciliationService.SecondRunChangesNothing` | app/services/reconciliation_service.py:46-68 | linked rows mirror Stripe's status, rows whose retrieve failed are untouched, and a second run against the same view answers 0 and leaves the tables |
| `ReconciliationService.DroppedWebhooksRecovered` | app/services/reconciliation_service.py:1-6 | whichever updates and deletions arrived, with whatever prices, after one successful run every row has the same status, and the tables are equal iff the arrived events left every row on the same plan |
| `ReconciliationService.PlanKeepingWebhooksRecovered` | app/services/reconciliation_service.py:1-6 | if each event names no plan but the one its row is already on, the tables are equal whichever arrived |
| `ReconciliationService.DroppedWebhookRecoveredIff` | app/services/reconciliation_service.py:46-60 | one dropped update or deletion is recovered iff it named no other plan: a lost plan change is not recovered by any run |
| `ReconciliationService.GetAllWithStripeId` | app/repositories/subscription_repository.py:45-50 | lists each linked row exactly once, in table order |
| `SubscriptionRepository.First` | app/repositories/subscription_repository.py:24-43 | a lookup finds the first matching row, and finds none only if none matches |

## Left out

- StripeService.EventEffect: an unordered `.first()` may return any matching row; the model takes the first in table order, which matters only when a tenant has several subscriptions.
- ReconciliationService.ReconciliationService.Retry: delays are exact reals; time itself is not modelled.
- ReconciliationService.ReconciliationService.RunOnce: reconciliation is not interleaved with other writers.
- FloatCeiling.CeilingPerBand: how binary64 breaks an exact tie, and counts from 1000 * 2^52 on, are left open.
- ConcurrentWebhooks.CommittedAtMostOnce: webhook handlers interleave with each other, not with reconciliation or metering.
- Concurrent invoice creation: invoices have no unique constraint, so invoice uniqueness is proved for sequential runs.
- Invoices and usage rows have no foreign-key check of their own; the services look the subscription up first, and subscriptions are never deleted.
- 32-bit column overflow and other database errors while inserting usage or invoices.
- Webhook bodies that are not JSON or lack an id or type, and price ids that are not strings.
- The last month of year 9999, where Python's dates end; days of a month are only bounded by 31.
- Conversion of the price table from float cents to integer micro-units, `to_cents`, and response formatting.
- Creation and listing of tenants, plans and subscriptions, hosted checkout sessions, signature checking, HTTP routing and tenant ownership checks.
