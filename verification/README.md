# Fleetum: verified models of the billing, session and operations protocols

Fleetum is a rental SaaS. This project models, in Dafny 4.11, the parts of its backend and of its
staging operations whose correctness depends on whole runs, and proves what those parts are for.
`dafny verify dfyconfig.toml` checks everything; each file is one component.

| file | what it models |
|---|---|
| `Base.dfy`, `Text.dfy` | options and ids; decimal numerals, JavaScript strings as UTF-16 units, `\s`, UTF-8 |
| `TenantSubscriptions.dfy`, `BillingRules.dfy` | the licence row, its guarded write, and the decisions of the webhook handlers |
| `StripeDeliveries.dfy` | any number of webhook deliveries interleaved at their row-read, Stripe-retrieve and guarded-write points, with Stripe changing in between |
| `StripeWebhooks.dfy` | the same handlers one event at a time, as a service that updates rows and the event log |
| `AuthSessions.dfy` | refresh-session rotation, logout along the successor chain, revoke-all, and the audit trail |
| `IngressControl.dfy` | journaled activation and recovery of the staging gateway, with a crash possible between any two effects |
| `LoginLimiter.dfy` | the fixed-window login limiter |
| `InvoiceOutbox.dfy` | the idempotent invoice e-mail outbox |
| `Months.dfy`, `Revenue.dfy`, `Csv.dfy` | month arithmetic, revenue snapshots with the shared licence cache, the report and its CSV export |
| `OtpRecovery.dfy` | one-time codes and password recovery of the platform console |
| `PdfLines.dfy`, `PdfStrings.dfy`, `PdfStream.dfy`, `PdfFile.dfy` | the hand-written PDF writer: wrapping, escaping, content stream, objects and cross-reference table |
| `Dunning.dfy` | batched suspension of overdue subscriptions |

How the models relate to the code:

- Database and provider identifiers are numbers that are only compared. Prices are integer cents.
- A database row read, a Stripe call, a guarded write and a notice are separate atomic steps of a
  delivery. `updatedAt` of a guarded write is taken from a clock that never repeats, and retrieving a
  subscription id returns that subscription.
- The guarded write is the transaction of `tenant-subscription-service.ts`, followed branch by branch.
- Code that updates rows in place is a class whose methods are proved equal to functions on the
  stored state; statements about runs are proved about those functions.
- `Gateway.execute` and `Gateway.recover` are one step relation rather than a class, because a crash
  may cut them between any two effects. A plan's digest is the observed snapshot itself.

Places where the code does something other than one would expect, each stated as a lemma:

- The sliding bound of the login limiter needs two attempts or more: the first failure of a window is
  stored without looking at `maxAttempts` (`LoginLimiter.SlidingBoundIffTwoAttempts`).
- A crash after the journal is written and before the baseline manifest strands the plan: apply and
  recover both refuse it from then on (`IngressControl.CrashBeforeBaselineStrandsPlan`).
- A journal that says `applied` can outlive its shared gateway, when an older plan is recovered a
  second time (`IngressControl.AppliedPhaseCanOutliveItsGateway`); it names the gateway in place exactly
  when that one's compose labels name this plan (`IngressControl.AppliedNamesGatewayIff`).
- The PDF offsets after the content stream count UTF-16 units: the offset of object 5 and `startxref`
  are right exactly when every line on the page is ASCII (`PdfFile.LaterOffsetsIffAscii`, and
  `PdfFile.AccentMisplacesTable` for one input).
- `Date.UTC` takes the years 0 to 99 for 1900 to 1999, so a trend that reaches back before the year
  100 is mislabelled; everywhere else it is right (`Revenue.TrendMonths`, and
  `Revenue.TrendBeforeYear100` for one input).
- A month key is the text asked for only from the year 1000 on, because keys do not pad years
  (`Months.KeyEchoesRequest`).
- Two different CSV values export alike exactly when one is the other, formula-like, behind an
  apostrophe (`Csv.SafeCollisions`).

## Model

| member | source | states |
|---|---|---|
| `TenantSubscriptions.GuardedUpsert` | backend/src/application/services/tenant-subscription-service.ts:176-253 | a write happens exactly over the row the handler read and, unless replacement is allowed, exactly when that row is bound to no other Stripe subscription or customer; it is refused as stale exactly when the row differs |
| `BillingRules.ResolveAuthoritative` | backend/src/application/services/billing-service.ts:847-875 | a tenant is returned exactly when at least one declaration is present and all present ones name it |
| `BillingRules.StatusIsShown` | backend/src/application/services/billing-service.ts:214-223 | each licence status is stored exactly for its Stripe status text, and suspended for every other text |
| `BillingRules.StoredShows` | backend/src/application/services/billing-service.ts:957-994 | every stored field: a configured price decides plan, cycle and list price, otherwise metadata, then the row; seats, period end and customer are kept where Stripe is silent |
| `StripeDeliveries.NextKeepsInv` | backend/src/application/services/billing-service.ts:648-681 | one step of any delivery, one change at Stripe or one arrival keeps the invariant behind the theorems below |
| `StripeDeliveries.RunKeepsInv` | backend/src/application/services/billing-service.ts:797-845 | the invariant holds after every interleaving |
| `StripeDeliveries.LicencesNeverGoBack` | backend/src/application/services/billing-service.ts:797-845 | in every interleaving the Stripe versions behind the stored licences of a subscription never decrease, each licence has the status that its version's status text stands for, and the table is exactly the committed writes |
| `StripeDeliveries.CommitsShowStripe` | backend/src/application/services/billing-service.ts:951-1001 | in every interleaving each commit stores field by field what its Stripe version says over the row it replaced, for the tenant and customer named, and a row passes to another customer only with a new subscription |
| `StripeDeliveries.UndisturbedDeliveryIsApplied` | backend/src/application/services/billing-service.ts:648-698 | from every state a delivery that nothing disturbs, whose tenant and customer agree and whose row admits it or may be taken over, commits the latest version and ends applied within six turns |
| `StripeDeliveries.DeliveriesAreBounded` | backend/src/application/services/billing-service.ts:812-844 | a delivery retrieves at most three times, ends in conflict only after three attempts, and has exactly one committed write when applied and none otherwise |
| `StripeDeliveries.DeliveriesEnd` | backend/src/application/services/billing-service.ts:812-844 | in every interleaving a delivery that gets its twenty turns has ended |
| `StripeDeliveries.ReplacementsMoveForward` | backend/src/application/services/billing-service.ts:877-904 | along a tenant's history the subscription changes only by a checkout, over a row not managed at commit time, to one created strictly later |
| `StripeDeliveries.HeldAges` | backend/src/application/services/billing-service.ts:877-904 | from the starting row on, a tenant keeps its subscription or moves to one created strictly later |
| `StripeDeliveries.ReplacedNeverReturns` | backend/src/application/services/billing-service.ts:648-681 | in every interleaving, if a tenant holds a subscription at two moments it holds it throughout: a replaced one never returns, whether a commit stored it or the tenant started with it |
| `StripeDeliveries.CommittedNeverReturns` | backend/src/application/services/billing-service.ts:648-681 | the same in terms of commits: between two commits of a subscription for a tenant there is no other |
| `StripeDeliveries.LateDeliveryConverges` | backend/src/application/services/billing-service.ts:797-845 | a delivery that arrives after Stripe's last change and commits leaves the row with the status the latest version's text stands for, whatever older deliveries still do |
| `StripeDeliveries.LatestStays` | backend/src/application/services/billing-service.ts:951-1010 | once a licence built from the latest version is committed, the row shows it for as long as it holds that subscription |
| `StripeDeliveries.NoticesMatchEdges` | backend/src/application/services/billing-service.ts:1002-1077 | per kind, notices attempted plus those still owed by a committed delivery equal the status edges in the committed history; refused writes and retries announce nothing |
| `StripeDeliveries.NoticeIsEdge` | backend/src/application/services/billing-service.ts:1028-1077 | a notice kind is chosen exactly for the entry into its status, or for the edge from a lapsed status to active or trial |
| `StripeWebhooks.WriteKeepsBindingsDistinct` | backend/src/application/services/billing-service.ts:951-1001 | a write whose ids no other tenant holds keeps all subscription and customer bindings distinct |
| `StripeWebhooks.ResolvesToOnlyClaim` | backend/src/application/services/billing-service.ts:847-875 | over distinct bindings the resolver answers exactly with the only tenant that table, metadata and event claim |
| `StripeWebhooks.WriteIsFree` | backend/src/application/services/billing-service.ts:951-1010 | a write happens exactly when the tenant alone is claimed and the row is bound to nothing else or may be replaced; it stores what Stripe says field by field and takes ids nobody else holds |
| `StripeWebhooks.SyncWritesIff` | backend/src/application/services/billing-service.ts:797-845 | a subscription event is written exactly for the one claimed tenant whose row admits it, storing the retrieved state; otherwise nothing changes |
| `StripeWebhooks.CheckoutWritesIff` | backend/src/application/services/billing-service.ts:635-698 | unless Stripe fails, a checkout is written exactly for the named tenant whose row admits it, replacing another subscription only by a later one over an unmanaged row |
| `StripeWebhooks.CheckoutFailsIff` | backend/src/application/services/billing-service.ts:648-660 | a checkout fails exactly when Stripe cannot be asked for its subscription, or for the lapsed one it might replace |
| `StripeWebhooks.SerialRunKeepsBindingsDistinct` | backend/src/application/services/billing-service.ts:579-606 | for every sequence of webhook events handled one after another, whatever Stripe answers, no two tenants' Stripe rows share a subscription or customer id |
| `StripeWebhooks.EventsAreRecorded` | backend/src/application/services/billing-service.ts:588-606 | an event ends processed exactly when it changed a row and everything after the write was stored, failed when that was lost or Stripe could not be asked, ignored otherwise |
| `StripeWebhooks.ProcessedForever` | backend/src/application/services/billing-service.ts:584-586 | in every serial run a processed event stays processed and its repetitions change nothing |
| `StripeWebhooks.RetryGuardedWrite` | backend/src/application/services/billing-service.ts:812-844 | the three-attempt loop against arbitrary other writers: it goes on only after a stale write, ends in conflict exactly when all three went stale, and otherwise writes, drops, throws or is denied exactly as the last attempt's answers say |
| `StripeWebhooks.BillingService.FindBySubscription` | backend/src/application/services/billing-service.ts:272-277 | finds a tenant bound to the subscription if there is one |
| `StripeWebhooks.BillingService.FindByCustomer` | backend/src/application/services/billing-service.ts:278-283 | finds a tenant bound to the customer if there is one |
| `StripeWebhooks.BillingService.ResolveTenant` | backend/src/application/services/billing-service.ts:847-875 | returns a tenant exactly when the table, the metadata and the event together name that tenant and nobody else |
| `StripeWebhooks.BillingService.ResolveLoosely` | backend/src/application/services/billing-service.ts:777-795 | metadata first, then the subscription's holder, then the customer's |
| `StripeWebhooks.BillingService.ApplySubscription` | backend/src/application/services/billing-service.ts:951-1010 | writes exactly when the tenant alone is claimed and the row admits it, stores Stripe's state field by field, takes ids nobody else holds, and otherwise changes nothing |
| `StripeWebhooks.BillingService.SyncSubscription` | backend/src/application/services/billing-service.ts:797-845 | applies exactly to the one claimed tenant whose row admits the write, storing the retrieved state; otherwise nothing changes |
| `StripeWebhooks.BillingService.CompleteCheckout` | backend/src/application/services/billing-service.ts:635-698 | applies exactly to the named tenant whose row admits the write, fails exactly when Stripe is silent, and replaces another subscription only by a later one over a pending, expired or canceled row |
| `StripeWebhooks.BillingService.ProcessStripeEvent` | backend/src/application/services/billing-service.ts:624-698 | dispatches to the two handlers, changes at most one tenant's row and keeps bindings distinct |
| `StripeWebhooks.BillingService.HandleWebhook` | backend/src/application/services/billing-service.ts:579-606 | is one step of the serial run: a processed event is a duplicate and changes nothing; any other ends processed, ignored or failed with at most one free write, failed also when the records after the write are lost |
| `AuthSessions.RunKeepsInv` | backend/src/application/services/auth-session-service.ts:72-122 | the session-graph invariant holds after every run |
| `AuthSessions.StoresArePaths` | backend/src/application/services/auth-session-service.ts:139-318 | every reachable store is a disjoint union of acyclic paths with constant user and tenant, on which only the last session can be live |
| `AuthSessions.AuditTrailIsExact` | backend/src/application/services/auth-session-service.ts:72-122 | creation entries are exactly the sessions, refresh entries exactly the links, and each session is rotated at most once |
| `AuthSessions.RefreshAcceptsIff` | backend/src/application/services/auth-session-service.ts:139-318 | over every run a refresh rotates exactly the unexpired, unrevoked session of the presented token whose user exists, is active and in its tenant; then that row is revoked and linked and the successor stored, a reuse is only recorded, and otherwise nothing changes |
| `AuthSessions.NoExpiredSessionIsRotated` | backend/src/application/services/auth-session-service.ts:146-160 | in every run a replaced session was rotated strictly before it expired |
| `AuthSessions.CreateAcceptsIff` | backend/src/application/services/auth-session-service.ts:53-125 | a session is created exactly for an existing, active user of that tenant with the expected password where one is expected |
| `AuthSessions.LogoutIsCounted` | backend/src/application/services/auth-session-service.ts:370-390 | a logout's audit entry counts exactly the sessions that stopped being live |
| `AuthSessions.RevokeAllIsCounted` | backend/src/application/services/auth-session-service.ts:400-426 | so does that of a revocation of all sessions |
| `AuthSessions.RevokedRowsFrozenForever` | backend/src/application/services/auth-session-service.ts:139-318 | a revoked session's row never changes again in any continuation |
| `AuthSessions.LogoutIsFinal` | backend/src/application/services/auth-session-service.ts:342-390 | after logout, in every continuation, the same sessions are reachable from the logged-out one and none is live |
| `AuthSessions.RefreshAndLogoutCommute` | backend/src/application/services/auth-session-service.ts:342-390 | a refresh racing a logout leaves the same sessions live in either lock order |
| `AuthSessions.ChainAfterRotation` | backend/src/application/services/auth-session-service.ts:246-318 | rotating the last session of a chain adds exactly its successor to the chain |
| `AuthSessions.NoRepetition` | backend/src/application/services/auth-session-service.ts:354-369 | the link out of the last visited session never leads back to a visited one |
| `AuthSessions.WholeChain` | backend/src/application/services/auth-session-service.ts:354-369 | a walk that stops at an unreplaced session has visited the whole chain, each session once |
| `AuthSessions.SessionService.CreateSession` | backend/src/application/services/auth-session-service.ts:41-125 | creates exactly for an active user of the tenant with the expected password and free keys: one live session and one audit entry, otherwise nothing |
| `AuthSessions.SessionService.RefreshSession` | backend/src/application/services/auth-session-service.ts:139-318 | rotates exactly the acceptable tokens, field by field, records a reuse, and otherwise changes nothing |
| `AuthSessions.SessionService.WalkChain` | backend/src/application/services/auth-session-service.ts:354-369 | the walk ends and returns the whole chain in order; neither the visited set nor a missing row cuts it short |
| `AuthSessions.SessionService.RevokeSessionChain` | backend/src/application/services/auth-session-service.ts:342-390 | revokes exactly the live sessions of the chain and audits their number if any |
| `AuthSessions.SessionService.RevokeAllSessions` | backend/src/application/services/auth-session-service.ts:400-426 | leaves no live session of the user and audits the number revoked |
| `IngressControl.NextKeepsInv` | ops/staging/ingress-control.py:327-388 | every effect, failure, crash, foreign deploy or drift keeps the write-ahead invariant |
| `IngressControl.RunKeepsInv` | ops/staging/ingress-control.py:327-388 | the write-ahead invariant holds over every history |
| `IngressControl.SharedGatewayIsRecoverable` | ops/staging/ingress-control.py:349-388 | whenever the gateway is shared by a plan, that plan's journal and correct baseline manifest are on disk and recover accepts them |
| `IngressControl.RecoverableOnceBaselineWritten` | ops/staging/ingress-control.py:241-269 | a journaled plan is recoverable exactly when its baseline is written; before that it never started a gateway |
| `IngressControl.RecoveryCompletes` | ops/staging/ingress-control.py:241-269 | a recover run on a ready plan whose commands succeed ends recovered exactly when its compose left an unshared gateway, new or old, and then only the journal has changed besides |
| `IngressControl.ActivationCompletes` | ops/staging/ingress-control.py:349-388 | an apply run of a fresh plan whose commands succeed ends shared, with journal, both manifests and network in place |
| `IngressControl.OutcomesAreTrue` | ops/staging/ingress-control.py:366-388 | applied is reported only when shared and journaled with that gateway, activation-failed and recovered only when unshared, recovery-failed only with a journal saying so |
| `IngressControl.InspectionDecides` | ops/staging/ingress-control.py:327-348 | an apply goes ahead exactly on the planned, unshared, unjournaled state and reports active exactly when the request stands; a recover goes ahead exactly on a matching journal with its baseline and the planned applications; inspecting changes nothing |
| `IngressControl.VerdictsWereChecked` | ops/staging/ingress-control.py:375-388 | in every history a run that ended applied had its gateway check answered ok with the planned applications and that shared gateway, and only noted since; recovered and activation-failed likewise with the baseline, or failed before any start |
| `IngressControl.FailedCheckRollsBack` | ops/staging/ingress-control.py:375-388 | in every history a check that fails, finds other applications or no shared gateway is followed by the baseline compose, and the run does not end applied |
| `IngressControl.StartedAtMostOnce` | ops/staging/ingress-control.py:327-388 | over any history a plan's shared gateway is started at most once |
| `IngressControl.AppliedNamesGatewayIff` | ops/staging/ingress-control.py:374-377 | in every history an applied journal names the shared gateway in place exactly when that gateway's compose labels name the plan's shared manifest |
| `IngressControl.AppliedHoldsUntilTouched` | ops/staging/ingress-control.py:374-377 | it does so as long as no compose and no deploy follows the journal entry |
| `IngressControl.RepeatedApplyMutatesNothing` | ops/staging/ingress-control.py:327-348 | after every history ending in a successful apply and every continuation that keeps the gateway, applying again mutates nothing however the steps are answered, and reports active exactly when the checks pass, the applications are unchanged and the journal still says applied, as it does unless the plan's recovery was tried |
| `IngressControl.CrashBeforeBaselineStrandsPlan` | ops/staging/ingress-control.py:349-356 | a crash between journal and baseline leaves a plan that apply and recover both refuse |
| `IngressControl.AppliedPhaseCanOutliveItsGateway` | ops/staging/ingress-control.py:241-269 | a history after which a journal says applied and the gateway is unshared |
| `LoginLimiter.BudgetPays` | backend/src/application/services/login-attempt-store-service.ts:52-129 | every step of a key's run spends at least what it admits from the budget of the interval |
| `LoginLimiter.FailuresWithinBudget` | backend/src/application/services/login-attempt-store-service.ts:18-138 | the failures of every run inside an interval stay within the budget of the row it starts from |
| `LoginLimiter.SlidingBoundIffTwoAttempts` | backend/src/application/services/login-attempt-store-service.ts:18-138 | every interval shorter than window and lock holds at most 2 * maxAttempts - 1 failures, for every starting row and run, exactly when maxAttempts is at least 2 |
| `LoginLimiter.SlidingBoundIsAttained` | backend/src/application/services/login-attempt-store-service.ts:52-129 | for every limit of at least two attempts a concrete run reaches the bound within a single millisecond |
| `LoginLimiter.NothingBeforeBlockedUntil` | backend/src/application/services/login-attempt-store-service.ts:18-50 | before `blockedUntil` nothing is admitted and the row does not move |
| `LoginLimiter.LoginAttemptStore.AssertAllowed` | backend/src/application/services/login-attempt-store-service.ts:18-50 | refuses exactly a standing block, resets an elapsed one, and touches no other key |
| `LoginLimiter.LoginAttemptStore.RegisterAttempt` | backend/src/application/services/login-attempt-store-service.ts:52-129 | stores the counted row and reports its failures and lock |
| `LoginLimiter.LoginAttemptStore.ClearKey` | backend/src/application/services/login-attempt-store-service.ts:131-138 | forgets the key and nothing else |
| `LoginLimiter.LoginAttemptStore.FailLogin` | backend/src/application/services/platform-login-guard-service.ts:46-61 | a guarded failing login is one step of the key's run and leaves other keys alone |
| `InvoiceOutbox.RunKeepsInv` | backend/src/application/services/invoice-service.ts:423-504 | ownership of deliveries and queue rows by requests holds over every run |
| `InvoiceOutbox.OutboxIsABijection` | backend/src/application/services/invoice-service.ts:423-504 | over any run the requests are exactly the (tenant, key) pairs of the sends answered as enqueued, in bijection with deliveries and invoice queue rows |
| `InvoiceOutbox.FirstSendIsStored` | backend/src/application/services/invoice-service.ts:461-500 | over every run a request exists exactly for an accepted send, and its delivery and queue row carry the invoice, recipient, tenant and key of the first one |
| `InvoiceOutbox.FirstSendIsPending` | backend/src/application/services/invoice-service.ts:461-500 | a first send stores exactly its three rows, waiting to be sent |
| `InvoiceOutbox.RepliesFollowFirstSend` | backend/src/application/services/invoice-service.ts:423-504 | over every run the answer is decided by the first accepted send of that key: the same hash gets its rows, another is refused, and without one the send is new |
| `InvoiceOutbox.RequestsAreForever` | backend/src/application/services/invoice-service.ts:423-504 | a stored request keeps its hash and rows in every continuation |
| `InvoiceOutbox.RepliesAreIdempotent` | backend/src/application/services/invoice-service.ts:423-504 | however much later, the same key creates nothing: the same hash gets the original rows, another hash is refused |
| `InvoiceOutbox.NeverInconsistent` | backend/src/application/services/invoice-service.ts:423-504 | without deletions the inconsistent-outbox error is unreachable |
| `InvoiceOutbox.InvoiceEmailService.SendEmail` | backend/src/application/services/invoice-service.ts:423-504 | answers as the rules say, stores the command's invoice, recipient, tenant and key in new pending rows, and changes nothing else |
| `Months.ToMonthStart` | backend/src/application/services/platform-admin-service.ts:73-80 | whatever is asked for, the selected month is not in the first hundred years |
| `Months.RequestSelectsMonth` | backend/src/application/services/platform-admin-service.ts:73-77 | a well-formed request selects its month, of the twentieth century for the years 0 to 99 |
| `Months.DefaultIsCurrentMonth` | backend/src/application/services/platform-admin-service.ts:78-80 | anything else selects the present month, from the year 100 on |
| `Months.KeyEchoesRequest` | backend/src/application/services/platform-admin-service.ts:73-88 | the key of the selected month is the text asked for exactly from the year 1000 on, as keys do not pad years |
| `Months.YearHasDays` | backend/src/application/services/platform-admin-service.ts:82-83 | the calendar behind the month ends has years of 365 and 366 days by the Gregorian rule |
| `Months.MonthEndStaysInMonth` | backend/src/application/services/platform-admin-service.ts:82-83 | the month-end instant falls in its month exactly when the year is 100 or later |
| `Months.ShiftCounts` | backend/src/application/services/platform-admin-service.ts:85-86 | shifting a selected month counts months across year ends |
| `Months.KeysDiffer` | backend/src/application/services/platform-admin-service.ts:88-88 | a month key determines its month |
| `Months.ShiftedKey` | backend/src/application/services/platform-admin-service.ts:82-88 | the key of a shifted month's end is that of the counted month, exactly outside the first hundred years |
| `Revenue.CacheKeysDiffer` | backend/src/application/services/platform-admin-service.ts:992-999 | a cache key determines tenant and month-end instant, whatever the tenant id contains |
| `Revenue.GetLicenceAt` | backend/src/application/services/platform-admin-service.ts:992-999 | a cached answer is the repository's, and the cache goes on agreeing with the repository |
| `Revenue.AddTenant` | backend/src/application/services/platform-admin-service.ts:1001-1026 | one turn of the loop adds one tenant to the figures |
| `Revenue.AddExtends` | backend/src/application/services/platform-admin-service.ts:1001-1026 | adding a tenant to the totals of a list gives the totals of the longer list |
| `Revenue.BuildSnapshot` | backend/src/application/services/platform-admin-service.ts:967-1047 | with any agreeing cache the snapshot is the one computed from the licences directly |
| `Revenue.SnapshotConserves` | backend/src/application/services/platform-admin-service.ts:967-1047 | plan MRR and plan revenue each add up to total MRR, plan tenants to the tenants, and active, lost and trial MRR to all estimates |
| `Revenue.EstimateIsWorth` | backend/src/application/services/feature-entitlements-service.ts:71-95 | a monthly licence is worth its own positive price or the list price for every seat, a yearly one the nearest cent to a twelfth of that |
| `Revenue.OneMoreTenant` | backend/src/application/services/platform-admin-service.ts:1001-1026 | one more tenant adds its worth to the total exactly when active, to the lost revenue when pending, suspended, expired, past due or canceled, to neither on trial, and counts under its plan alone |
| `Revenue.UnlicensedTenant` | backend/src/application/services/platform-admin-service.ts:58-66 | a tenant without a licence counts as a pending starter with three seats |
| `Revenue.ReportConserves` | backend/src/application/services/platform-admin-service.ts:1084-1101 | in every report the plan figures add up to headline and tenants, and headline, lost and trial revenue to the worth of all licences |
| `Revenue.RevenueReport` | backend/src/application/services/platform-admin-service.ts:1049-1102 | the report computed with the shared cache equals the uncached one for every repository, tenant list, month and trend length |
| `Revenue.BuildTrend` | backend/src/application/services/platform-admin-service.ts:1071-1080 | the trend computed with the shared cache, one snapshot after another, equals the uncached one |
| `Revenue.InterleavedIsUncached` | backend/src/application/services/platform-admin-service.ts:1071-1080 | snapshots started together on one cache: in every interleaving of their lookups each ends after two turns per tenant, with exactly its uncached figures |
| `Revenue.InterleavedTrend` | backend/src/application/services/platform-admin-service.ts:1071-1080 | hence the trend of snapshots started together is the uncached trend |
| `Revenue.TrendExplainsHeadline` | backend/src/application/services/platform-admin-service.ts:1049-1102 | the trend has the requested length between 2 and 12, its last entry is the headline, and the one before is the previous month and explains the delta |
| `Revenue.TrendMonths` | backend/src/application/services/platform-admin-service.ts:1052-1056 | trend entry k is labelled with the consecutive month exactly when that month is not in the first hundred years |
| `Revenue.TrendBeforeYear100` | backend/src/application/services/platform-admin-service.ts:73-88 | asked for 0100-01, the trend labels the month before December 1999 |
| `Csv.ReadEscaped` | backend/src/application/services/platform-admin-service.ts:92-96 | by section 2 of RFC 4180 an escaped field reads back as its safe value, whatever it contains |
| `Csv.FormulaLikeIff` | backend/src/application/services/platform-admin-service.ts:94-94 | the values that get an apostrophe are those in which `=`, `+`, `-` or `@` comes first after blanks |
| `Csv.ExportReadsBack` | backend/src/application/services/platform-admin-service.ts:1136-1150 | reading any exported table gives back header and every field, with one apostrophe before exactly the formula-like ones and none formula-like any more |
| `Csv.SafeCollisions` | backend/src/application/services/platform-admin-service.ts:92-96 | two values export alike exactly when equal or one is the other, formula-like, behind an apostrophe |
| `OtpRecovery.StepKeepsInv` | backend/src/application/services/platform-admin-service.ts:374-382 | every call keeps the accounting of codes, tokens, verifications and changes |
| `OtpRecovery.RunKeepsInv` | backend/src/application/services/platform-admin-service.ts:401-467 | the accounting holds over every serial run |
| `OtpRecovery.CountersAreHistory` | backend/src/application/services/platform-admin-service.ts:507-610 | the counters are the numbers of calls that answered with a change, a token or a reset code |
| `OtpRecovery.FatesAreHistory` | backend/src/application/services/platform-admin-service.ts:445-463 | the wrong and right guesses noted on the codes are exactly the code checks that were answered |
| `OtpRecovery.ResetsArePaidFor` | backend/src/application/services/platform-admin-service.ts:528-610 | password changes plus stored tokens never exceed verifications, and those plus the stored code never exceed the reset codes issued |
| `OtpRecovery.CodesAreGuessedAtMostFiveTimes` | backend/src/application/services/platform-admin-service.ts:445-463 | every issued code meets at most five wrong guesses and is accepted at most once |
| `OtpRecovery.CodesAcceptedIff` | backend/src/application/services/platform-admin-service.ts:445-463 | told by the calls alone: a typed code is accepted exactly when it is the latest one sent, less than 480000 ms ago, not typed since and after fewer than five wrong ones; invalid exactly when only the code differs; locked exactly after the fifth wrong one |
| `OtpRecovery.PasswordChangedIff` | backend/src/application/services/platform-admin-service.ts:582-610 | told by the calls alone: a password is changed exactly for a signed token that is the latest handed out under its id, less than 480000 ms ago and never presented before |
| `OtpRecovery.PlatformAdminAuth.IssueOtp` | backend/src/application/services/platform-admin-service.ts:374-382 | drops expired rows and stores the new code with no attempts |
| `OtpRecovery.PlatformAdminAuth.Login` | backend/src/application/services/platform-admin-service.ts:433-465 | issues a code, or answers expired, locked, invalid or accepted and leaves the store as the rules say |
| `OtpRecovery.PlatformAdminAuth.RequestPasswordReset` | backend/src/application/services/platform-admin-service.ts:507-526 | issues a reset code for the platform address only |
| `OtpRecovery.PlatformAdminAuth.AssertValidPasswordResetOtp` | backend/src/application/services/platform-admin-service.ts:528-563 | an accepted code leaves the store untouched; expiry and lock delete the code, a wrong guess is counted |
| `OtpRecovery.PlatformAdminAuth.VerifyPasswordReset` | backend/src/application/services/platform-admin-service.ts:565-580 | exchanges an accepted code for one stored token |
| `OtpRecovery.PlatformAdminAuth.ConfirmPasswordReset` | backend/src/application/services/platform-admin-service.ts:582-610 | changes the password and consumes the token exactly when it is signed, stored, unexpired and equal |
| `PdfLines.NormalizeKeepsWords` | backend/src/application/services/booking-contract-service.ts:221-221 | collapsing and trimming keeps exactly the words, one space apart, and splitting at spaces gives them back |
| `PdfLines.PackKeepsWords` | backend/src/application/services/booking-contract-service.ts:235-246 | packing keeps all words in order, and a line is over-long only when it is a single word |
| `PdfLines.WrappingIsGreedy` | backend/src/application/services/booking-contract-service.ts:230-246 | what fits in 96 units stays one line; otherwise a line ends only when the next word would exceed 96 |
| `PdfLines.WrappingKeepsEveryWord` | backend/src/application/services/booking-contract-service.ts:220-247 | before the cut the lines carry all words of title and body in order, each line at most 96 units or a single word |
| `PdfLines.PushPacked` | backend/src/application/services/booking-contract-service.ts:235-246 | the inner loop pushes the packed lines |
| `PdfLines.WrapLines` | backend/src/application/services/booking-contract-service.ts:225-247 | the wrapping loop produces the wrapped lines |
| `PdfLines.WrappedUnits` | backend/src/application/services/booking-contract-service.ts:221-247 | no wrapped line holds a line end, and ASCII text wraps to ASCII lines |
| `PdfStrings.EscapeIsOnePass` | backend/src/application/services/booking-contract-service.ts:217-218 | the three chained replacements equal a one-pass escape |
| `PdfStrings.EncodeEscapes` | backend/src/application/services/booking-contract-service.ts:217-218 | escaping text and encoding it is encoding it and escaping the bytes |
| `PdfStrings.ReaderUndoesEscape` | backend/src/application/services/booking-contract-service.ts:217-218 | the reader of section 7.3.4.2 of ISO 32000-1 gives the text back exactly when it has no carriage return |
| `PdfStream.StreamShowsLines` | backend/src/application/services/booking-contract-service.ts:250-259 | the content stream shows the lines in order, one per line of text, each between two spaces |
| `PdfStream.StreamAscii` | backend/src/application/services/booking-contract-service.ts:250-259 | the content stream is ASCII exactly when every line is |
| `PdfFile.BuildSimplePdfBuffer` | backend/src/application/services/booking-contract-service.ts:220-282 | the writer with its loops produces the file the theorems are about |
| `Text.DecodeEncode` | backend/src/application/services/booking-contract-service.ts:281-281 | for every string a UTF-8 reader (RFC 3629) gets back the encoded file's text, with U+FFFD for unpaired surrogates |
| `PdfFile.LayOut` | backend/src/application/services/booking-contract-service.ts:268-275 | the offset loop records, for each object and the table, the units written before it |
| `PdfFile.PageShowsKeptLines` | backend/src/application/services/booking-contract-service.ts:249-259 | for every text the page shows exactly the first 56 wrapped lines, one per line of text |
| `PdfFile.FirstFourOffsetsAreRight` | backend/src/application/services/booking-contract-service.ts:261-274 | for every text objects 1 to 4 stand at their recorded offsets, and `/Length` is the exact UTF-8 size of the stream that follows |
| `PdfFile.LaterOffsetsIffAscii` | backend/src/application/services/booking-contract-service.ts:269-280 | for every text the offset of object 5 and `startxref` are right exactly when every kept line is ASCII, and otherwise too small |
| `PdfFile.AccentMisplacesTable` | backend/src/application/services/booking-contract-service.ts:269-280 | a title of one accented letter already misplaces object 5 and the table |
| `PdfFile.AsciiFileIsReadable` | backend/src/application/services/booking-contract-service.ts:261-281 | for ASCII texts `startxref` leads to the table and entry k of the table to `k 0 obj` (section 7.5 of ISO 32000-1) |
| `PdfFile.EntryWidth` | backend/src/application/services/booking-contract-service.ts:276-279 | a table entry has its twenty bytes exactly when the offset has at most ten digits |
| `Dunning.WritersKeepTrialsTidy` | backend/src/application/services/tenant-subscription-service.ts:123-168 | whatever the writers of the table store, a trial end is kept only with a trial and equals the period's end |
| `Dunning.SuspensionKeepsLicence` | backend/src/application/services/billing-dunning-service.ts:91-103 | for every overdue row the writers of the table can have stored, suspension keeps every other field of the visible licence |
| `Dunning.AuditShowsLicence` | backend/src/application/services/billing-dunning-service.ts:64-75 | for the same rows the audited licence before is the visible one exactly when the row is normalised, as every upsert leaves it |
| `Dunning.PassShrinks` | backend/src/application/services/billing-dunning-service.ts:84-125 | one pass suspends as many of the rows due since an earlier cutoff as fit into a batch, before any younger one |
| `Dunning.PassRespectsGrace` | backend/src/application/services/billing-dunning-service.ts:84-91 | a pass takes only past-due Stripe rows untouched for the grace period in days, at most a batch, and all of them unless the batch is full of rows at least as old |
| `Dunning.PassesShrink` | backend/src/application/services/billing-dunning-service.ts:84-125 | after k passes exactly k batches' worth of the rows overdue at the start are suspended, or all |
| `Dunning.RowsOnlyGetSuspended` | backend/src/application/services/billing-dunning-service.ts:91-103 | over every run a row is unchanged, or was past due and is suspended |
| `Dunning.OverdueAreSuspendedIff` | backend/src/application/services/billing-dunning-service.ts:84-131 | with no new past-due rows all n overdue subscriptions are suspended exactly when passes times batch size reaches n |
| `Dunning.SuspendedOldestFirst` | backend/src/application/services/billing-dunning-service.ts:33-56 | over a whole run suspensions go from the oldest row to the youngest, none twice |
| `Dunning.FindOverduePastDueSubscriptions` | backend/src/application/services/billing-dunning-service.ts:33-56 | the query's answer: the oldest overdue rows in order, as many as fit |
| `Dunning.BillingDunningService.SuspendOverduePastDueSubscriptions` | backend/src/application/services/billing-dunning-service.ts:84-131 | one pass suspends exactly such a batch, audits each suspension with the licence before and after, and reports it |

## Left out

- Stripe, Prisma, bcrypt, JWT, Docker, curl and the file system are abstract steps with stated contracts.
- Webhook signatures, checkout and portal session creation, local checkout and funnel analytics.
- Writers that do not use the guarded write (dunning, platform licence edits) inside the concurrent Stripe model; dunning is modelled alone and serially.
- Trimming and rejecting blank identifiers in event payloads: ids are taken as present or absent.
- StripeWebhooks.BillingService.SyncSubscription: has no retry loop, because a serial run is never stale; the loop is `StripeWebhooks.RetryGuardedWrite` and the retries under interference are in `StripeDeliveries`.
- StripeWebhooks.BillingService.CompleteCheckout: has no retry loop, for the same reason.
- AuthSessions.SessionService.RefreshSession: the branch for a row consumed between lock and update is left out, since the lock makes it unreachable; anomaly alerts are left out.
- Deletion of old sessions by the retention job, and the session list.
- Concurrent calls of the login limiter, the one-time-code store and the invoice numbering, which read and then write without a lock.
- OtpRecovery.CodesAreGuessedAtMostFiveTimes: is about codes; wrong comparisons of a reset token are counted by the code but not limited.
- Trusted devices, login alerts and the limiter calls inside the one-time-code flow.
- Revenue.BuildSnapshot: rounds yearly prices on exact cents (half up) where the code rounds binary fractions with `toFixed`, and takes known plans only.
- Revenue.BuildTrend: computes the snapshots one after another; the snapshots started together are `Revenue.InterleavedTrend`.
- Building the rows of the CSV from the report: `Csv.ExportReadsBack` is about any table of fields.
- PdfFile.AsciiFileIsReadable: is conditional on `startxref` having at most ten digits, as the table format itself is.
- Contract templates, PDF layout with pdf-lib, e-mail texts, the website, the frontend and seed data: presentation or fixed data.
- OCR and document parsers, provider scripts and the staging bootstrap: heuristics or environment probes without a specification of their own.
- Money and date helpers, invoice totals and other single-expression helpers, which would only add easy members.
