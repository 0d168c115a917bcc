# LongHub control plane: a verified model

This project models the state machines behind LongHub's cloud API and its desktop agent
lifecycle, and proves what they guarantee over every input, every run and every interleaving.

| Module | What it models |
|---|---|
| `SkillAccess`, `SkillExecution`, `ExecutionLimits`, `LaggingClock`, `AdmissionOutcomes`, `AccessOutcomes` | plans, subscriptions and entitlements; admission of cloud Skill executions under a cycle quota, an aligned-minute rate and a limit on concurrent leases |
| `CloudTasks`, `TaskProtocol`, `TaskSafety`, `TaskLimits`, `TaskOutcomes`, `TaskLeases` | the task table with its compare-and-set steps, and the protocol of request handlers, workers and cancellers over it |
| `Billing`, `BillingLaws`, `BillingOutcomes` | payment and refund settlement over wallet, orders, access, idempotency indexes, frozen results and outbox |
| `BillingOutbox`, `OutboxWorker`, `OutboxOutcomes` | the leased outbox, and the worker that drains it beside other workers |
| `ModelUsage`, `UsageOutcomes` | per-device admission of model requests: a promise-chain lock, a pruned sliding window, a lease counter |
| `AgentRegistry`, `AgentLifecycle`, `LifecycleSteps`, `LifecycleLaws`, `LifecycleQueue`, `LifecycleSaga`, `RegistryOutcomes`, `LifecycleOutcomes` | the desktop's agent registry, the saga that changes registry, gateway and Core policy together, await by await, and the promise queue its operations run in |
| `ReleaseIndex`, `ReleaseOutcomes` | the signed index of desktop releases under concurrent uploads and rollout edits |
| `JsonText`, `JsonKeys`, `JsonScan`, `JsonAccept` | the grammar of RFC 8259 and the scanner for top-level keys |
| `LatencyMetrics` | latency objectives read off an hourly histogram |
| `Prelude` | optional values, counting and summing |

The in-memory store runs every method without an await between check and write, so each method is
one atomic step. Each step is a function on a value (`State`), the class beside it updates its fields
in place and is proved equal to that function, and the laws are lemmas about the function and about
runs of it. Times are integers (milliseconds); identifiers the store mints are positions in tables
whose rows are never removed; keys joined from several texts are tuples. In the task protocol a step
is what one party does between two awaits; in the model-usage and lifecycle models every outside
call can go either way. The `Outcomes` modules say what each operation answers and writes in the fields
of the state, in both directions and apart from the function that computes it.

Some properties one would expect do not hold of the code. They are stated as they are: a concrete
input where they fail, and the exact condition under which they hold.

- An exact replay of a payment returns the original result if and only if the request does not carry
  an empty provider reference (`PaymentReplay`, `EmptyReferenceBreaksReplay`).
- Under a clock that lags behind earlier calls, an admission keeps the cycle quota if and only if the
  gate's figure and the calls later than the request's clock are together below the included calls,
  and the rate likewise over its minute (`QuotaKeptExactly`, `RateKeptExactly`,
  `LaggingClockOverruns`); the concurrency limit holds under any clock (`ConcurrencyNeedsNoClock`).
- Disabling a pack switches all of it off if and only if the active version's profile was registered
  before, or nothing of the pack was (`DisableTakesEffect`, `DisableCanLeaveOn`).
- After an entitlement check everything switched on is eligible if and only if nothing had to be
  revoked or every installed, unregistered pack is eligible (`RevocationTakesEffect`,
  `RevocationCanSwitchOn`).
- A refused lifecycle operation leaves the coordinator in step with Core if and only if it did not get
  as far as a notification that threw, or the new policy is the old one anyway
  (`RefusalKeepsPolicy`, `NotifierDesynchronises`).
- A release number is signed again if and only if nothing signed since its first signature was saved
  (`SignedTwiceExactly`, `FailedSaveRepeatsNumber`); a saved number is never reused.
- The latency objective passes if and only if the percentile is strictly below the bound, although
  its target text reads "at most" (`DashboardIsExact`, `BoundaryFails`).

## Model

| member | source | states |
|---|---|---|
| ExecutionLimits.LimitsHoldInEveryRun | apps/longhub-cloud-api/src/memory-store.ts:1667-1836 | over every run of reservations, releases and access changes with a clock that keeps its direction: rows per subscription and Skill stay within the included calls, rows per caller in every aligned minute within the rate, and live leases within the concurrency limit now and at every later instant |
| ExecutionLimits.SlidingMinuteBound | apps/longhub-cloud-api/src/memory-store.ts:1762-1780 | over every run any sixty seconds, aligned or not, hold at most twice the per-minute rate |
| ExecutionLimits.HistoryKeptInEveryRun | apps/longhub-cloud-api/src/memory-store.ts:1795-1836 | usage rows are never removed or rewritten by any run, and a release mark once set never changes |
| ExecutionLimits.OneRowPerTask | apps/longhub-cloud-api/src/memory-store.ts:1696-1716 | two rows of one task are the same row, whatever the clock |
| ExecutionLimits.RetryReturnsOriginal | apps/longhub-cloud-api/src/memory-store.ts:1696-1716 | repeating an admitted request, after any run and at any instant, returns the same reservation with its original lease and adds no row |
| ExecutionLimits.RateHintSound | apps/longhub-cloud-api/src/memory-store.ts:1762-1780 | a rate refusal always carries a hint between one and sixty seconds, and waiting it out passes the rate gate |
| ExecutionLimits.ConcurrencyHintSound | apps/longhub-cloud-api/src/memory-store.ts:1782-1793 | a concurrency refusal always carries a hint, and waiting it out passes the concurrency gate; this uses that the limit was never exceeded |
| ExecutionLimits.ResolvedIsAdmissible | apps/longhub-cloud-api/src/memory-store.ts:1718-1748 | a grant found by access resolution is refused only for quota, rate, concurrency or idempotency |
| ExecutionLimits.AdmittedIsResolved | apps/longhub-cloud-api/src/memory-store.ts:1546-1574 | a fresh admission implies that access resolution finds a grant for that plan at that instant |
| ExecutionLimits.RunKeepsInv | apps/longhub-cloud-api/src/memory-store.ts:1667-1836 | reserve, release and access changes keep the limits, the task index and the terms every row was admitted under |
| ExecutionLimits.SlotFreed | apps/longhub-cloud-api/src/memory-store.ts:1782-1793 | at the first expiry among a full caller's leases, the sweep leaves it below its limit |
| LaggingClock.QuotaKeptExactly | apps/longhub-cloud-api/src/memory-store.ts:1750-1760 | under any clock, a fresh admission keeps the quota if and only if the gate's figure plus the calls later than the request's clock is below the included calls |
| LaggingClock.RateKeptExactly | apps/longhub-cloud-api/src/memory-store.ts:1762-1780 | under any clock, a fresh admission keeps the rate if and only if the gate's figure plus the caller's calls later in the same aligned minute is below the rate |
| LaggingClock.ConcurrencyNeedsNoClock | apps/longhub-cloud-api/src/memory-store.ts:1782-1793 | over every run with clocks going back and forth, no caller has more leases open than its concurrency limit, so no more are live at any instant |
| LaggingClock.QuotaGateIsExact | apps/longhub-cloud-api/src/memory-store.ts:1750-1760 | the gate's figure is the whole usage if and only if no call is later than the request's clock |
| LaggingClock.LaggingClockOverruns | apps/longhub-cloud-api/src/memory-store.ts:1750-1780 | with one call allowed and used, a request whose clock lags behind is admitted and exceeds quota and rate |
| SkillExecution.NextExpiry | apps/longhub-cloud-api/src/memory-store.ts:1782-1793 | the earliest expiry among the caller's live leases, absent exactly if there is none |
| SkillExecution.ExecutionStore.ExpireLeases | apps/longhub-cloud-api/src/memory-store.ts:1882-1889 | the sweep marks exactly the unreleased rows whose lease is over |
| SkillExecution.ExecutionStore.Usage | apps/longhub-cloud-api/src/memory-store.ts:1749-1793 | one pass yields the three usage counts and the first expiry |
| SkillExecution.ExecutionStore.FindSubscription | apps/longhub-cloud-api/src/memory-store.ts:1720-1729 | the asserted subscription if it matches, else the newest matching one |
| SkillExecution.ExecutionStore.PassGates | apps/longhub-cloud-api/src/memory-store.ts:1718-1793 | the refusal of the first gate that refuses, in the store's order |
| SkillExecution.ExecutionStore.ReserveExecution | apps/longhub-cloud-api/src/memory-store.ts:1667-1813 | outcome and whole new state of a reservation: malformed, replayed, conflicting, refused or admitted |
| SkillExecution.ExecutionStore.ReleaseExecution | apps/longhub-cloud-api/src/memory-store.ts:1815-1836 | outcome and whole new state of a release, by reservation or by task |
| AdmissionOutcomes.OutcomeExactly | apps/longhub-cloud-api/src/memory-store.ts:1667-1813 | with a clock that keeps its direction, a fresh request is admitted if and only if plan and subscription run, an entitlement covers the Skill, and calls of the cycle, calls of the minute and live leases, counted over all rows, are each below the plan's number; otherwise the first of these that fails is the reason |
| AdmissionOutcomes.FreshRowMeans | apps/longhub-cloud-api/src/memory-store.ts:1795-1813 | a fresh admission appends one row of the request's own fields, leased until `now` plus the time asked for, or plus 300 000 ms if none is, and otherwise only sweeps |
| AdmissionOutcomes.LeaseLasts | apps/longhub-cloud-api/src/memory-store.ts:187-193 | over every run that does not release the row, at every instant before that expiry the row holds its caller's slot |
| AdmissionOutcomes.FullDeviceWaits | apps/longhub-cloud-api/src/memory-store.ts:1782-1793 | a device whose leases fill its limit until some instant gets no fresh admission before it, over every run that releases none of them, and the reason is the concurrency limit if nothing earlier fails |
| AdmissionOutcomes.ReuseMeans | apps/longhub-cloud-api/src/memory-store.ts:1696-1716 | a task that has a row gets that row if every binding field agrees, an asserted subscription included, and a conflict if one differs |
| AdmissionOutcomes.MalformedExactly | apps/longhub-cloud-api/src/memory-store.ts:1670-1693 | a request is malformed exactly outside the bounds on its texts, time and lease, and then changes nothing |
| AdmissionOutcomes.NothingPicked | apps/longhub-cloud-api/src/memory-store.ts:1718-1729 | without a plan or a subscription that fits, a fresh request is a plan mismatch |
| AdmissionOutcomes.HintsAreLeast | apps/longhub-cloud-api/src/memory-store.ts:1773-1793 | the hint of a refusal is the least whole number of seconds, at least one, that reaches the next minute or the first expiry |
| AdmissionOutcomes.ReleaseExactly | apps/longhub-cloud-api/src/memory-store.ts:1815-1836 | a release that names a row with a running lease and agrees with its task, user and tenant ends it at that instant; every other release only sweeps |
| SkillAccess.Resolve | apps/longhub-cloud-api/src/memory-store.ts:1546-1574 | an answer is a granting entitlement, and there is an answer exactly if a well-named query has one |
| SkillAccess.AccessStore.ResolveAccess | apps/longhub-cloud-api/src/memory-store.ts:1546-1574 | the loop finds the newest granting entitlement |
| SkillAccess.AccessStore.UpdateSubscriptionStatus | apps/longhub-cloud-api/src/memory-store.ts:1458-1476 | leaving the active status revokes exactly the granted entitlements of the subscription |
| SkillAccess.AccessStore.GrantEntitlement | apps/longhub-cloud-api/src/memory-store.ts:1478-1516 | a grant repairs the one row of its subscription, Skill and plan or appends it; a refused grant changes nothing |
| SkillAccess.UpdateStatusKeepsValid | apps/longhub-cloud-api/src/memory-store.ts:1458-1476 | granted entitlements stay backed by an active subscription of the same user, tenant and plan, one per scope |
| SkillAccess.GrantKeepsValid | apps/longhub-cloud-api/src/memory-store.ts:1478-1516 | the same over grants |
| SkillAccess.RevokeEntitlementKeepsValid | apps/longhub-cloud-api/src/memory-store.ts:1539-1544 | the same over single revocations |
| AccessOutcomes.ResolveExactly | apps/longhub-cloud-api/src/memory-store.ts:1546-1574 | the answer is the newest entitlement that is granted, unexpired, allowed, on a plan with the Skill and under a running subscription of the same user, tenant and plan; none if there is none |
| AccessOutcomes.StatusMeans | apps/longhub-cloud-api/src/memory-store.ts:1458-1476 | one subscription gets the status, and unless it is the active one exactly its granted entitlements are revoked |
| AccessOutcomes.LeavingEndsAccess | apps/longhub-cloud-api/src/memory-store.ts:1458-1476 | a subscription that left the active status answers no query, not even after it is set active again |
| AccessOutcomes.GrantMeans | apps/longhub-cloud-api/src/memory-store.ts:1478-1516 | the entitlement a grant leaves: expiry as asked or the subscription's, a revoked one granted again if the subscription is active, one not revoked keeping its status, a new one granted exactly if the subscription is active |
| AccessOutcomes.GrantOpens | apps/longhub-cloud-api/src/memory-store.ts:1478-1516 | after an accepted grant under a running subscription the Skill resolves, unless its entitlement was withheld |
| AccessOutcomes.GrantProblemMeans | apps/longhub-cloud-api/src/memory-store.ts:1478-1493 | why a grant is refused, the first reason first |
| AccessOutcomes.RevocationMeans | apps/longhub-cloud-api/src/memory-store.ts:1539-1544 | a revoked entitlement answers no query, and nothing else changes |
| CloudTasks.LogTellsStatus | apps/longhub-cloud-api/src/memory-store.ts:2207-2217 | the last event is the status, at most one start, exactly one terminal event for a terminal task and none before, event numbers strictly increasing |
| CloudTasks.CreateKeepsValid | apps/longhub-cloud-api/src/memory-store.ts:280-318 | creation keeps the four tables in step and every log a well-formed story of its task |
| CloudTasks.DiscardKeepsValid | apps/longhub-cloud-api/src/memory-store.ts:324-336 | so does discarding |
| CloudTasks.AdmitKeepsValid | apps/longhub-cloud-api/src/memory-store.ts:338-351 | so does admission of the real input |
| CloudTasks.ClaimKeepsValid | apps/longhub-cloud-api/src/memory-store.ts:353-363 | so does the claim |
| CloudTasks.CompleteKeepsValid | apps/longhub-cloud-api/src/memory-store.ts:365-380 | so does completion from the running status |
| CloudTasks.CancelKeepsValid | apps/longhub-cloud-api/src/memory-store.ts:365-380 | so does cancellation from the pending or running status |
| CloudTasks.TaskStore.CreateTask | apps/longhub-cloud-api/src/memory-store.ts:260-318 | fresh, existing under the same fingerprint, or conflict, and the whole new state |
| CloudTasks.TaskStore.DiscardPendingTask | apps/longhub-cloud-api/src/memory-store.ts:324-336 | exactly a pending task with this placeholder disappears from all four tables |
| CloudTasks.TaskStore.AdmitPendingTaskInput | apps/longhub-cloud-api/src/memory-store.ts:338-351 | the placeholder is replaced exactly if it is still there and the task pending |
| CloudTasks.TaskStore.ClaimPendingTask | apps/longhub-cloud-api/src/memory-store.ts:353-363 | pending becomes running, nothing else is claimed |
| CloudTasks.TaskStore.TransitionIfStatus | apps/longhub-cloud-api/src/memory-store.ts:365-380 | the change happens exactly from an expected status |
| TaskOutcomes.FinishMeans | apps/longhub-cloud-api/src/server.ts:1113-1329 | a worker's ending of a running task stores success with the output, or failure or timeout with the error code, leaves the other of the two and input, owner, kind and creation time alone, and appends one event; of a task no longer running it changes nothing |
| TaskOutcomes.CancelMeans | apps/longhub-cloud-api/src/server.ts:2995-3032 | a cancel of a pending or running task changes its status and neither output nor error; of any other task it changes nothing |
| TaskOutcomes.ClaimMeans | apps/longhub-cloud-api/src/memory-store.ts:353-363 | a worker starts exactly a pending task, whose other fields stay |
| TaskOutcomes.LookMeans | apps/longhub-cloud-api/src/server.ts:1095-1112 | a worker stops exactly when it was aborted or its task is not running any more |
| TaskOutcomes.AbortMeans | apps/longhub-cloud-api/src/server.ts:3020-3021 | a cancel that took effect aborts exactly the workers at work on the task |
| TaskOutcomes.FreeMeans | apps/longhub-cloud-api/src/server.ts:3022-3028 | and ends the reservation of the task, if it is the tenant's and still open |
| TaskOutcomes.GateMeans | apps/longhub-cloud-api/src/server.ts:2703-2852 | a handler goes on exactly if its key is unused or bound to a task that still waits for this request, and then exactly with a grant, under that grant's plan and subscription |
| TaskOutcomes.AdmitMeans | apps/longhub-cloud-api/src/server.ts:2897-2939 | a handler wins its task exactly if it still waits for this request: real input, and a worker with its reservation |
| TaskOutcomes.RefusedLeavesNothing | apps/longhub-cloud-api/src/server.ts:2869-2875 | a request the execution store refuses leaves no task, no reservation and a free key |
| TaskOutcomes.LapsedLeavesNothing | apps/longhub-cloud-api/src/server.ts:2878-2895 | a lease that is over when looked at is given back, and its task is discarded |
| TaskOutcomes.ResultMatchesStatus | apps/longhub-cloud-api/src/memory-store.ts:365-380 | in every run a task has an output if and only if it succeeded, and an error if and only if it failed or timed out |
| TaskOutcomes.CreateMeans | apps/longhub-cloud-api/src/memory-store.ts:280-318 | a bound key finds its task if the fingerprints agree and conflicts otherwise; an unused key gets a new pending task, its first event and its binding |
| TaskOutcomes.UnversionedConflicts | apps/longhub-cloud-api/src/memory-store.ts:260-290 | a fingerprint of another shape conflicts, and so does every request that finds a task without one |
| TaskOutcomes.RetryFindsTask | apps/longhub-cloud-api/src/server.ts:2703-2760 | once a request is admitted, after any run the same request finds the same task and another one under its key conflicts |
| TaskOutcomes.UndisturbedRequestEnds | apps/longhub-cloud-api/src/server.ts:2703-2939 | a request with a new key, a grant and room, which nobody disturbs, is staged, reserved, admitted, executed and released: its task ends as the execution ended and its reservation is released |
| TaskLeases.NoLeaseIsLost | apps/longhub-cloud-api/src/server.ts:2853-2939 | in every reachable state an open reservation is held by a handler on its way or a worker that has not finished, so none is left behind |
| TaskLeases.AdmittedHasWorker | apps/longhub-cloud-api/src/server.ts:2897-2939 | in every reachable state an admitted task has a worker |
| TaskSafety.ExecutionIsExclusive | apps/longhub-cloud-api/src/server.ts:1062-1329 | under every interleaving: two workers never share a task, so at most one caller won its admission; the log shows at most one start; a worker that exited left its task terminal and its reservation released |
| TaskSafety.TasksSteadyInEveryRun | apps/longhub-cloud-api/src/server.ts:2703-2939 | over every run an admitted task is never discarded and keeps its input, and a terminal task keeps status, output, error and log for ever |
| TaskSafety.ReachableTasksStaySteady | apps/longhub-cloud-api/src/server.ts:2995-3032 | the same between any two points of a run from the start |
| TaskSafety.WorkerMeansWin | apps/longhub-cloud-api/src/server.ts:2897-2939 | a worker appears exactly when a handler wins the placeholder compare-and-set of that task |
| TaskSafety.TablesAgreeInEveryRun | apps/longhub-cloud-api/src/memory-store.ts:260-396 | in every reachable state of the protocol the task tables agree and the logs tell the statuses |
| TaskSafety.RunKeepsInv | apps/longhub-cloud-api/src/server.ts:1062-1329 | every step of handlers, workers and cancellers keeps the ties between tasks, workers and reservations |
| TaskLimits.WorkersWithinLimits | apps/longhub-cloud-api/src/server.ts:2855-2939 | in every timed run of the protocol, workers ever started for a Skill under a subscription stay within its included calls, and workers of a caller at work under an unexpired lease within its concurrency limit |
| TaskLimits.RunKeepsLimits | apps/longhub-cloud-api/src/server.ts:1062-1329 | every timed run of handlers, workers and cancellers keeps the execution store within all its limits |
| BillingLaws.MoneyIsConserved | apps/longhub-cloud-api/src/memory-store.ts:858-1208 | in every run a balance is non-negative, equals the sum of the user's transactions, equals paid recharges minus balance payments plus refunds plus adjustments over the order table, and each transaction reports the balance after itself |
| BillingLaws.SettlementsMatchOrders | apps/longhub-cloud-api/src/memory-store.ts:830-1207 | in every run settlements are unique per order and operation and per key, one frozen result and one outbox row each; payment settlements exist exactly for paid or refunded orders, refund settlements exactly for refunded ones |
| BillingLaws.PaymentReplay | apps/longhub-cloud-api/src/memory-store.ts:830-915 | an exact replay, after any run and even after a refund, returns the frozen original and changes nothing, if and only if the provider reference is not the empty text; otherwise it is a conflict |
| BillingLaws.EmptyReferenceBreaksReplay | apps/longhub-cloud-api/src/memory-store.ts:903-915 | a payment whose replay conflicts |
| BillingLaws.RefundReplay | apps/longhub-cloud-api/src/memory-store.ts:1075-1207 | an exact replay of a refund returns the frozen original and changes nothing |
| BillingLaws.OnlyNewSettlementsChangeState | apps/longhub-cloud-api/src/memory-store.ts:858-1208 | a refused call and a replay leave the whole state as it was |
| BillingLaws.PaymentOpensAccess | apps/longhub-cloud-api/src/memory-store.ts:966-1024 | after a monthly or yearly Skill order is paid, a query about a Skill of its plan is answered by the opened subscription if and only if it comes from the payment on and less than 31 or 366 days after it, and that subscription has exactly those days |
| BillingLaws.RefundClosesAccess | apps/longhub-cloud-api/src/memory-store.ts:1117-1129 | after a refund, over every further run, no query is answered by the refunded subscription |
| BillingLaws.EntitlementsBackedInEveryRun | apps/longhub-cloud-api/src/memory-store.ts:1458-1544 | in every run a granted entitlement has an active subscription of the same user, tenant and plan, and no two entitlements share subscription, Skill and plan |
| BillingLaws.BillingEvolvesAccess | apps/longhub-cloud-api/src/memory-store.ts:966-1024 | every billing step changes access in a way execution admission tolerates, unless it lowers a plan's limits |
| BillingLaws.RunKeepsInv | apps/longhub-cloud-api/src/memory-store.ts:858-1296 | payments, refunds, adjustments, cancellations, grants, revocations and outbox steps keep ledger, books, access and their links |
| BillingLaws.RunKeepsBooks | apps/longhub-cloud-api/src/memory-store.ts:1053-1072 | filed settlements, frozen results and index entries are never touched again |
| BillingLaws.LookupMeans | apps/longhub-cloud-api/src/memory-store.ts:830-856 | the replay check finds settlement `i` exactly if it carries this order, operation, key, hash, reference and method, and nothing exactly if no settlement has the order and operation or the key |
| Billing.BillingStore.SettlePayment | apps/longhub-cloud-api/src/memory-store.ts:858-1073 | outcome and whole new state of a payment |
| Billing.BillingStore.SettleRefund | apps/longhub-cloud-api/src/memory-store.ts:1075-1208 | outcome and whole new state of a refund |
| Billing.BillingStore.AdjustWallet | apps/longhub-cloud-api/src/memory-store.ts:1272-1296 | an adjustment happens exactly if the user exists and the balance stays non-negative |
| BillingOutcomes.PaymentSettlesExactly | apps/longhub-cloud-api/src/memory-store.ts:858-981 | a payment whose order and key are unused settles if and only if method, reference, order, time, wallet and plan raise no objection, none of which an earlier fulfilment can; a refused one changes nothing |
| BillingOutcomes.PaymentWrites | apps/longhub-cloud-api/src/memory-store.ts:903-1073 | what a payment writes, field by field: order, wallet and transaction, settlement, result, and an outbox row due at once; access changes only for a Skill order |
| BillingOutcomes.PaymentResult | apps/longhub-cloud-api/src/memory-store.ts:1026-1073 | the result of a paid Skill order shows the subscription and the entitlements written |
| BillingOutcomes.PaymentGrants | apps/longhub-cloud-api/src/memory-store.ts:1001-1024 | a paid Skill order adds one entitlement per Skill of the plan, granted until the subscription's expiry, and keeps every row there was |
| BillingOutcomes.RefundSettlesExactly | apps/longhub-cloud-api/src/memory-store.ts:1075-1130 | in every run a refund whose order and key are unused settles if and only if the order is a paid plan order, its time parses, its reference is absent or well formed, and no pack entitlement of unknown origin is in the way |
| BillingOutcomes.RefundWrites | apps/longhub-cloud-api/src/memory-store.ts:1131-1208 | what a refund writes, field by field: order, wallet and transaction, settlement, result and outbox row |
| BillingOutcomes.RefundRevokes | apps/longhub-cloud-api/src/memory-store.ts:1117-1129 | a refunded Skill order's subscription is marked and every entitlement of it revoked, and no other |
| BillingOutcomes.RefundResult | apps/longhub-cloud-api/src/memory-store.ts:1117-1208 | the result of a refund shows the marked subscription and exactly its entitlements as they then are |
| BillingOutcomes.AdjustMeans | apps/longhub-cloud-api/src/memory-store.ts:1272-1296 | an adjustment is booked for a known user whose balance stays non-negative, and nothing else happens |
| BillingOutcomes.ReferenceIsValid | apps/longhub-cloud-api/src/memory-store.ts:153-155 | a provider reference has up to 256 letters, digits and signs, a letter or digit first |
| BillingOutbox.ClaimTakesHead | apps/longhub-cloud-api/src/memory-store.ts:1216-1237 | a claim takes exactly the rows classed as pending at that instant that have fewer than `limit` pending rows before them |
| BillingOutbox.PositionIsRank | apps/longhub-cloud-api/src/memory-store.ts:1216-1237 | the position in the claim order is the number of claimable rows before |
| BillingOutbox.StaleTokenInert | apps/longhub-cloud-api/src/memory-store.ts:1239-1270 | a token that does not hold a row never holds it again: after any run its completion and failure change nothing |
| BillingOutbox.FinishedIsFinal | apps/longhub-cloud-api/src/memory-store.ts:1239-1270 | published and dead-lettered exclude each other and no run changes such a row |
| BillingOutbox.LeaseProtects | apps/longhub-cloud-api/src/memory-store.ts:1216-1270 | while a lease is unexpired, no run of others changes the row |
| BillingOutbox.WaitingRowStays | apps/longhub-cloud-api/src/memory-store.ts:1216-1270 | a row put back for later stays exactly as it is over every run whose claims come before it is due |
| BillingOutbox.Summarize | apps/longhub-cloud-api/src/admin-routes.ts:40-59 | the five counters count the five classes and add up to all rows |
| BillingOutbox.OutboxStore.ClaimRows | apps/longhub-cloud-api/src/memory-store.ts:1216-1237 | claimed rows and whole new state of a claim |
| BillingOutbox.OutboxStore.CompleteRow | apps/longhub-cloud-api/src/memory-store.ts:1239-1250 | success exactly for the unexpired holder, and the whole new state |
| BillingOutbox.OutboxStore.FailRow | apps/longhub-cloud-api/src/memory-store.ts:1252-1270 | success exactly for a well-formed report of the unexpired holder, and the whole new state |
| OutboxOutcomes.ClaimMeans | apps/longhub-cloud-api/src/memory-store.ts:1216-1237 | a claim issues one token; each claimed row carries it, one more attempt, no last error and a lease until `now` plus the time asked for, 30 000 ms if none is; every other row stays, and a malformed claim changes nothing |
| OutboxOutcomes.ClaimChooses | apps/longhub-cloud-api/src/memory-store.ts:1223-1230 | a claim takes only due rows, at most as many as asked for, 25 if nothing is, earliest first, and passes a due row over only when full of earlier ones |
| OutboxOutcomes.LeaseRoundTrip | apps/longhub-cloud-api/src/memory-store.ts:1216-1270 | from the claim through any run of others: before `now` plus the lease the holder's completion or well-formed failure takes effect on the row as claimed, from then on neither does |
| OutboxOutcomes.HolderDecides | apps/longhub-cloud-api/src/memory-store.ts:1239-1270 | in every reachable state a completion or failure takes effect exactly for the token on the row before its lease is over, and what it writes, field by field |
| OutboxOutcomes.ClassMeans | apps/longhub-cloud-api/src/admin-routes.ts:40-59 | a row is in flight exactly if some token could complete it now, pending exactly if a claim could take it now, waiting if it is only not due yet |
| OutboxWorker.RetryDelayBounds | apps/longhub-cloud-api/src/billing-outbox.ts:136-139 | the delay lies between base and maximum and never decreases with attempts |
| OutboxWorker.LostExactlyWithoutToken | apps/longhub-cloud-api/src/billing-outbox.ts:78-111 | a record is reported as lost exactly if its token no longer holds the row, and then the outbox is as the others left it |
| OutboxWorker.OwnStepsAreOthers | apps/longhub-cloud-api/src/billing-outbox.ts:78-111 | a worker's own steps are among the steps it reckons with from others, so workers can run against each other |
| OutboxWorker.Worker.Process | apps/longhub-cloud-api/src/billing-outbox.ts:78-111 | whatever the publisher and other workers, each with its own maximum of attempts, do: a published row was delivered, a dead-lettered one used up this worker's attempts, a retried one is free of tokens and not due before the base delay |
| OutboxWorker.Worker.RunOnce | apps/longhub-cloud-api/src/billing-outbox.ts:62-114 | the batch is the claim's, each record is processed once in claim order, and claimed equals published plus retried plus dead-lettered plus lost |
| OutboxOutcomes.DelayDoubles | apps/longhub-cloud-api/src/billing-outbox.ts:136-139 | the delay is the base after the first attempt and doubles with each further one up to the maximum, thirty times at most |
| OutboxOutcomes.TurnWithinLease | apps/longhub-cloud-api/src/billing-outbox.ts:78-111 | a record processed within its lease is published if its publication succeeded, else dead-lettered once its attempts are used up, else due again after the delay; the rest of the batch is untouched |
| OutboxOutcomes.BatchWithinLease | apps/longhub-cloud-api/src/billing-outbox.ts:62-114 | a worker that stays within its lease loses nothing: published are exactly the records whose publication succeeded, the others dead-lettered or retried |
| OutboxWorker.MeddleAllKeeps | apps/longhub-cloud-api/src/memory-store.ts:1216-1270 | other workers, publishing before they complete and giving up only worn-out rows, keep every published row delivered and every dead row worn out |
| ModelUsage.LockIsFifo | apps/longhub-cloud-api/src/model-usage.ts:71-97 | in every run, aborted waiters included: never two requests of a device in the lock, entry in arrival order, and no lock entry means every request of the device has finished |
| ModelUsage.CounterIsExact | apps/longhub-cloud-api/src/model-usage.ts:99-140 | in every run the counter equals the granted, unreleased leases, absent means zero, and it never exceeds the limit |
| ModelUsage.WindowIsExact | apps/longhub-cloud-api/src/model-usage.ts:108-125 | in every run the pruned list decides as the full admission history would, and no sixty seconds hold more admissions than the rate |
| ModelUsage.PrunedListIsFaithful | apps/longhub-cloud-api/src/model-usage.ts:108-125 | inside the lock the pruned list counts every later window exactly as the history does |
| ModelUsage.ReleaseIsIdempotent | apps/longhub-cloud-api/src/model-usage.ts:126-140 | releasing again, by call or by abort, frees no second slot |
| ModelUsage.RunKeepsInv | apps/longhub-cloud-api/src/model-usage.ts:71-140 | every step keeps the promise chain, the lock table, the counter, the list and the window |
| ModelUsage.UsageMaps.TryAdmit | apps/longhub-cloud-api/src/model-usage.ts:108-125 | both gates decide, and only an admission writes the two maps |
| ModelUsage.UsageMaps.PruneBefore | apps/longhub-cloud-api/src/model-usage.ts:111-112 | the recent admissions, in order |
| ModelUsage.UsageMaps.FreeOne | apps/longhub-cloud-api/src/model-usage.ts:128-135 | the device's count drops by one when positive, no other device changes, and no entry is left at zero |
| UsageOutcomes.DecideExactly | apps/longhub-cloud-api/src/model-usage.ts:108-125 | in every run a request inside the lock is admitted if and only if it is not aborted, has tokens left, fewer admissions of its device lie in the last 60 000 ms than the rate, and fewer slots are held than the limit; then it takes one slot and counts, else it leaves no trace |
| UsageOutcomes.AcquireExactly | apps/longhub-cloud-api/src/model-usage.ts:71-97 | a waiting request enters the lock if and only if it is not aborted and every earlier request of its device has left |
| UsageOutcomes.LeaveExactly | apps/longhub-cloud-api/src/model-usage.ts:71-97 | an aborted waiter hands its place on only when every earlier request has left |
| UsageOutcomes.ArriveMeans | apps/longhub-cloud-api/src/model-usage.ts:76-79 | an arrival waits for the last request of its device that came before, or for nobody if all have left |
| UsageOutcomes.TableIsExact | apps/longhub-cloud-api/src/model-usage.ts:76-86 | a device has a lock entry if and only if one of its requests has not left, and the entry is its last arrival |
| UsageOutcomes.LeaseMeans | apps/longhub-cloud-api/src/model-usage.ts:126-140 | an admitted request gets a lease after the lock, or gives its slot back if aborted meanwhile; release and abort give exactly one slot of its device back |
| UsageOutcomes.UndisturbedRequestEnds | apps/longhub-cloud-api/src/model-usage.ts:99-140 | wherever a run has got to, a request that finds its device idle ends with a lease if and only if there was room when it arrived |
| AgentRegistry.SortIsStable | apps/longhub-desktop/src/agent-registry.ts:222-233 | committing entries already in order keeps them as they are, ties included |
| AgentRegistry.StoredKeeps | apps/longhub-desktop/src/agent-registry.ts:142-184 | storing an entry sets its profile, changes no other profile's entry, and keeps order and distinctness |
| AgentRegistry.SwitchPackKeeps | apps/longhub-desktop/src/agent-registry.ts:195-208 | switching flips exactly the pack's entries |
| AgentRegistry.Registry.Register | apps/longhub-desktop/src/agent-registry.ts:142-184 | a refusal or failed write changes nothing; an identical entry costs no revision |
| AgentRegistry.Registry.SetPackEnabled | apps/longhub-desktop/src/agent-registry.ts:195-208 | refused for a pack without entries; otherwise the switched registry |
| AgentRegistry.Registry.Restore | apps/longhub-desktop/src/agent-registry.ts:127-140 | a restore keeps the same entries under a higher revision, in the same order if that was the commit order |
| RegistryOutcomes.WantedExactly | apps/longhub-desktop/src/agent-registry.ts:142-170 | a pack may have its profile unless it is invalid, asks for `main`, or another pack owns it; the entry has the pack's own two versions, a known profile keeps agent and switch unless told otherwise, a new one is on |
| RegistryOutcomes.RegisterExactly | apps/longhub-desktop/src/agent-registry.ts:142-184 | a registration succeeds exactly if the pack may have the profile and any needed write does; the revision rises by one exactly if the entry was not there already |
| RegistryOutcomes.SwitchExactly | apps/longhub-desktop/src/agent-registry.ts:195-208 | a switch is refused exactly for a pack without entries or a failed write, costs a revision exactly if an entry stood the other way, and then sets all of them and no other |
| RegistryOutcomes.RestoreExactly | apps/longhub-desktop/src/agent-registry.ts:127-140 | a restore is accepted exactly if every agent is the derived one and not `main`, and no profile or agent comes twice |
| AgentLifecycle.ActivationKeeps | apps/longhub-desktop/src/agent-runtime-activation.ts:61-87 | activation keeps owner, agent and switch of every known profile, switches on exactly the installed profiles it did not know, and leaves each installed pack owning its profile |
| AgentLifecycle.EnableTakesEffect | apps/longhub-desktop/src/agent-lifecycle-coordinator.ts:112-151 | after enabling, the pack's profile is registered to it and on, through the activation that follows |
| AgentLifecycle.DisableTakesEffect | apps/longhub-desktop/src/agent-lifecycle-coordinator.ts:153-172 | after disabling nothing of the pack is on, if and only if the active version's profile was registered or nothing of the pack was |
| AgentLifecycle.DisableCanLeaveOn | apps/longhub-desktop/src/agent-lifecycle-coordinator.ts:153-172 | a pack that stays on after being disabled |
| AgentLifecycle.RevocationTakesEffect | apps/longhub-desktop/src/agent-lifecycle-coordinator.ts:174-202 | after a revocation everything on is eligible, if and only if every installed, unregistered pack is |
| AgentLifecycle.RevocationCanSwitchOn | apps/longhub-desktop/src/agent-lifecycle-coordinator.ts:174-202 | a revocation that switches an ineligible pack on |
| LifecycleOutcomes.RegisterAllExactly | apps/longhub-desktop/src/agent-runtime-activation.ts:61-87 | activation goes through if and only if every installed pack may have its profile before it starts and no two ask for the same one |
| LifecycleOutcomes.ActivationExactly | apps/longhub-desktop/src/agent-runtime-activation.ts:61-87 | activation leaves each installed pack's entry with that pack's versions and every other entry as it was |
| LifecycleOutcomes.TargetExactly | apps/longhub-desktop/src/agent-lifecycle-coordinator.ts:112-202 | an operation has a target registry if and only if the packs it names are installed or registered and every installed pack may have its profile |
| LifecycleSteps.PreparedMeans | apps/longhub-desktop/src/agent-lifecycle-coordinator.ts:237-252 | with any file write failing half-way, a prepared plan is the plan of the target registry, and with all files written it is missing only if there is none |
| LifecycleLaws.OperationIsAtomic | apps/longhub-desktop/src/agent-lifecycle-coordinator.ts:227-305 | with any call failing and failed writes possibly in effect: registry, gateway and Core are all new or all old unless the rollback is reported as failed, Core untouched if no policy write was tried; success exactly if the notification is reached and does not throw; a rollback fails only for a cause; the revision never goes back |
| LifecycleOutcomes.SucceedsExactly | apps/longhub-desktop/src/agent-lifecycle-coordinator.ts:227-265 | an operation succeeds if and only if the configuration is read, a plan prepared, both writes acknowledged, the read-back shows `main` and the plan's agents, and the notification goes through |
| LifecycleOutcomes.SmoothOperation | apps/longhub-desktop/src/agent-lifecycle-coordinator.ts:227-265 | when nothing goes wrong outside, an operation succeeds if and only if its request is sensible, every installed pack may have its profile and the profiles that are on have a plan; registry, gateway and Core are then that plan's |
| LifecycleOutcomes.ActivatesExactly | apps/longhub-desktop/src/agent-runtime-activation.ts:61-87 | an activation gets through if and only if each pack in turn may have its profile, the registry file is written if its entry changes, and its workspace files if it is on |
| LifecycleOutcomes.MutatesExactly | apps/longhub-desktop/src/agent-lifecycle-coordinator.ts:112-172 | enabling needs the agent's workspace files, disabling does not; both need the registry file exactly if an entry changes |
| LifecycleLaws.RefusalKeepsPolicy | apps/longhub-desktop/src/agent-lifecycle-coordinator.ts:266-288 | after a refused operation the remembered policy is the old one, and in step with Core, if and only if no notification threw or the new policy is the old one |
| LifecycleLaws.NotifierDesynchronises | apps/longhub-desktop/src/agent-lifecycle-coordinator.ts:266-288 | enabling an installed pack whose notification throws: Core enforces the policy without its tools and the coordinator remembers the one with them |
| LifecycleLaws.MicroStands | apps/longhub-desktop/src/agent-lifecycle-coordinator.ts:227-305 | what holds at each await of an operation, forward and back, is kept by every step |
| LifecycleQueue.OneAtATimeInCallOrder | apps/longhub-desktop/src/agent-lifecycle-coordinator.ts:307-314 | in every run, calls arriving while others run: never two operations under way, and whoever has started came after all earlier calls had ended |
| LifecycleQueue.RejectionLetsNextStart | apps/longhub-desktop/src/agent-lifecycle-coordinator.ts:307-314 | the next call starts once its predecessor has ended, whether that succeeded, was refused or failed |
| LifecycleQueue.RunIsSequential | apps/longhub-desktop/src/agent-lifecycle-coordinator.ts:307-314 | however calls and awaits interleave, outcomes and world are those of the operations one after the other in call order |
| LifecycleQueue.EveryCallEnds | apps/longhub-desktop/src/agent-lifecycle-coordinator.ts:307-314 | no run gets stuck: a call joins the queue, and from any point there are steps, none a new call, after which every operation called has ended |
| LifecycleQueue.ConsistentInEveryRun | apps/longhub-desktop/src/agent-lifecycle-coordinator.ts:227-314 | in every run of the queue, while rollbacks succeed, gateway and Core show what the registry says, for the packs installed at the last success |
| LifecycleSaga.Coordinator.ApplyMutation | apps/longhub-desktop/src/agent-lifecycle-coordinator.ts:227-288 | the coordinator's code carries out exactly that operation: all new, all old, or a reported rollback failure |
| LifecycleSaga.Coordinator.Activate | apps/longhub-desktop/src/agent-runtime-activation.ts:61-87 | the profiles returned are the installed packs that are on in the final registry |
| LifecycleSaga.Coordinator.SyncEntitlements | apps/longhub-desktop/src/agent-lifecycle-coordinator.ts:174-202 | without an answer nothing changes; otherwise exactly the packs that are on without being eligible are revoked |
| ReleaseIndex.SequenceOrderIsVersionOrder | apps/longhub-cloud-api/src/client-release-routes.ts:381-436 | under every interleaving of uploads and edits: versions and sequences are distinct, and in a channel the later sequence is the newer version and back |
| ReleaseIndex.LatestIsHighest | apps/longhub-cloud-api/src/client-release-routes.ts:246-252 | the first release of a channel is its newest version |
| ReleaseIndex.SequencesNeverReused | apps/longhub-cloud-api/src/client-release-routes.ts:381-436 | whatever is signed after a saved sequence is higher, so no sequence reaches the index twice |
| ReleaseIndex.SignedTwiceExactly | apps/longhub-cloud-api/src/client-release-routes.ts:398-436 | signed sequences never fall, and one is signed again if and only if nothing signed since was saved |
| ReleaseIndex.FailedSaveRepeatsNumber | apps/longhub-cloud-api/src/client-release-routes.ts:398-443 | an upload whose save fails, after which the next upload signs the same number |
| ReleaseIndex.SigningsOnlyGrow | apps/longhub-cloud-api/src/client-release-routes.ts:261-283 | no run forgets a signature |
| ReleaseIndex.ArtifactsAreImmutable | apps/longhub-cloud-api/src/client-release-routes.ts:418-436 | the installer at a release's path is the one its manifest signs, and stays it |
| ReleaseIndex.VersionsStay | apps/longhub-cloud-api/src/client-release-routes.ts:246-283 | no published version is lost by a later step |
| ReleaseIndex.StaleReadBreaks | apps/longhub-cloud-api/src/client-release-routes.ts:381-396 | publishing from the index read before the stream would reuse a sequence and lose a release |
| ReleaseIndex.LoadOrdered | apps/longhub-cloud-api/src/client-release-routes.ts:100-100 | loading an index kept in order changes nothing |
| ReleaseIndex.CompareIsOrder | packages/longhub-pack-schema/src/client-update.ts:94-102 | version comparison is a strict total order |
| ReleaseIndex.ReleaseStore.BeginUpload | apps/longhub-cloud-api/src/client-release-routes.ts:334-350 | an upload streams exactly if no check refuses it |
| ReleaseIndex.ReleaseStore.FinishUpload | apps/longhub-cloud-api/src/client-release-routes.ts:381-436 | a refused or failed publication leaves index and files as they were |
| ReleaseIndex.ReleaseStore.EditRollout | apps/longhub-cloud-api/src/client-release-routes.ts:246-283 | an edit puts exactly the channel's newest release in front; a refused one, or one whose save fails, changes no index |
| ReleaseOutcomes.FinishExactly | apps/longhub-cloud-api/src/client-release-routes.ts:381-443 | in every run an upload is published if and only if streamed, linked and saved and its version by then still new and later than all of its channel; it goes in front, paused at zero basis points, under the number after all saved ones |
| ReleaseOutcomes.BeginExactly | apps/longhub-cloud-api/src/client-release-routes.ts:334-350 | an upload streams if and only if its version is new and later than every release of its channel; a leftover installer never stands in the way |
| ReleaseOutcomes.EditExactly | apps/longhub-cloud-api/src/client-release-routes.ts:246-283 | a rollout edit takes effect if and only if the release is the newest of its channel, the rollout differs and the index is saved; it moves to the front with a new number and nothing else changes |
| ReleaseOutcomes.RefusedExactly | apps/longhub-cloud-api/src/client-release-routes.ts:336-344 | an upload is refused as existing if and only if its version is there, and as a rollback if and only if it is not and a release of the channel is not older |
| JsonScan.ScannerListsNames | apps/longhub-cloud-api/src/server.ts:551-632 | on every well-formed object text (section 4 of RFC 8259) the scanner returns the decoded member names in order, duplicates included |
| JsonScan.NamesAreUnambiguous | apps/longhub-cloud-api/src/server.ts:551-632 | a text has one list of member names, however it is derived |
| JsonAccept.AcceptsExactly | apps/longhub-cloud-api/src/server.ts:551-632 | on every text, well-formed or not, the scanner lists names if and only if the text starts with an object of those names: JSON strings, colons, and values whose strings are closed and brackets balanced, with white space between |
| JsonAccept.OthersAreRefused | apps/longhub-cloud-api/src/server.ts:604-606 | a JSON text that is not an object is refused |
| JsonScan.FeedValue | apps/longhub-cloud-api/src/server.ts:573-602 | a whole value, whatever it nests and quotes, brings the value automaton back to where it was, at every depth |
| JsonScan.StringEndItems | apps/longhub-cloud-api/src/server.ts:556-572 | a string literal ends at its own closing quote, whatever escapes it holds |
| JsonScan.UnescapeInverts | apps/longhub-cloud-api/src/server.ts:612-618 | reading a literal back gives the string it denotes |
| JsonKeys.SkipWhitespace | apps/longhub-cloud-api/src/server.ts:552-555 | the first index that is not white space |
| JsonKeys.ReadStringEnd | apps/longhub-cloud-api/src/server.ts:556-572 | one past the first unescaped quote |
| JsonKeys.SkipValue | apps/longhub-cloud-api/src/server.ts:573-602 | where the value automaton stops |
| JsonKeys.TopLevelKeys | apps/longhub-cloud-api/src/server.ts:604-632 | the loop computes the recursive scan that the grammar results are about |
| LatencyMetrics.DashboardIsExact | apps/longhub-cloud-api/src/admin-routes.ts:226-234 | for every run of requests, one route or several, any window of hours and any way to round the rank: request and failure counts are exact, the bucket shown is the bucket of the exact percentile, and the objective passes exactly if that percentile is below the bound |
| LatencyMetrics.BoundaryFails | apps/longhub-cloud-api/src/admin-routes.ts:226-234 | one request of exactly 300 ms meets the 300 ms target and fails the objective |
| LatencyMetrics.HistogramFindsRank | apps/longhub-cloud-api/src/admin-routes.ts:190-214 | for every rank, not just the percentile's: the cumulative count reaches it by a bucket exactly if the value of that rank lies in a bucket up to it |
| LatencyMetrics.HistogramFindsPercentile | apps/longhub-cloud-api/src/admin-routes.ts:184-214 | the first bucket reaching the percentile's rank is the percentile's bucket |
| LatencyMetrics.AggregateIsFaithful | apps/longhub-cloud-api/src/memory-store.ts:2139-2146 | totals over rows, by any condition on their keys, are counts of requests |
| LatencyMetrics.BuildHttpRouteMetric | apps/longhub-cloud-api/src/admin-routes.ts:190-224 | counters and buckets are totals over the selected rows, and the bucket is the first to reach the rank |
| LatencyMetrics.BucketOf | apps/longhub-cloud-api/src/http-route-metrics.ts:10-20 | a duration lies in the first `k` buckets exactly if it is below the bound of bucket `k` |

## Left out

- PostgreSQL store: the same protocols as SQL and row locks; its settlement replay reloads current rows instead of a frozen result, so nothing is claimed about it.
- Model gateway circuit breaker, cloud artifact uploads, live event delivery to clients: other protocols with other guarantees.
- Signatures, digests, encryption, HTTP and environment parsing, React and Electron code, telemetry posting, device pairing, handoff tokens, activation codes: library behaviour, input and output, or single-use state that would only add easy members.
- Feature policy, release checks and Agent-Skill bindings on the way to a task: one answer per request (`refuse`), since they are decided elsewhere.
- ExecutionLimits.LimitsHoldInEveryRun: assumes a clock that keeps its direction and plans whose limits are not lowered; quota and rate are shown to need the first, concurrency not to.
- SkillExecution.ExecutionStore.ReserveExecution: an asserted subscription identifier is a position or a garbled text; identifiers of subscriptions that do not exist are positions past the table.
- SkillExecution.ExecutionStore.ReleaseExecution: an empty reservation text is not modelled apart from an unknown one.
- TaskSafety.ExecutionIsExclusive: development tasks without a grant hold no reservation and are not modelled; a store call that throws is not modelled; the placeholder is distinct from every real input, which could only equal it by containing its own digest.
- Billing.BillingStore.SettlePayment: the pack entitlement rows of old pack orders are not modelled, whether such a refund is ambiguous is part of the request; Skills of a plan are staged in plan order, not sorted.
- Billing.BillingStore.SettleRefund: the pack entitlement rows of old pack orders are not modelled.
- BillingLaws.PaymentOpensAccess: for queries that name a user and a Skill, since a query naming nobody never resolves.
- OutboxWorker.Worker.RunOnce: the clock always returns a valid time, and a store call does not throw.
- OutboxWorker.Worker.Process: a store call does not throw.
- ModelUsage.WindowIsExact: requests carry non-decreasing arrival times; the daily and monthly token quotas are one yes or no per request.
- AgentRegistry.Registry.Register: collation and the agent identifier derived from a profile are functions given from outside; the schema checks when the file is read are not modelled.
- LifecycleLaws.OperationIsAtomic: agent configuration and tool policy are functions of the enabled profiles given from outside; the gateway's base hash is part of whether a write is refused; nobody else edits the agent list meanwhile; refreshing the policy constraint on its own is not modelled.
- LifecycleQueue.RunIsSequential: eligibility and pack verification before an operation are not modelled.
- LifecycleSaga.Coordinator.SyncEntitlements: the sorted order of the revoked packs is not modelled.
- ReleaseIndex.ReleaseStore.FinishUpload: sizes, digests and signatures are the identity of the upload; old index records without a rollout, which loading skips, are not modelled.
