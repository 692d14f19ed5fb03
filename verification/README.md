# Verified model of the Jules supervisor

This project models the parts of the supervisor in which several processes share rows, clocks or budgets, and proves what
they guarantee over every run. `dafny verify dfyconfig.toml` checks all of it.

- **Durable execution** (`ExecutionGate`, `OutboxRepository`, `ExecutionAttemptRepository`, `OperatorReview`, `Durable*`,
  `OutboxDispatcher`, `Reconciler`, `LedgerProgress`, `JulesClient`). Pipeline runs, the operator's transaction, dispatcher
  passes and reconciler sweeps form one transition system over the decision, approval, outbox and attempt tables. Each SQL
  statement is one atomic step; each run, pass or sweep is a program counter with locals; a crash or an escaping exception drops the locals.
  Clock readings, leases, AI proposals, effect outcomes and error categories are parameters of the steps. No lock is
  assumed to be exclusive. The table statements are functions; the repository classes perform them in place, each method
  promises its guard, its frame and what the row means afterwards, and lemmas show that these promises fix exactly those
  functions. The route is proved to be the transition system's review step. `OutboxDispatcher` and `Reconciler` are the
  two passes as methods over the repositories, for the case that nobody else moves.
- **AI routing and budget** (`CircuitBreaker`, `ProviderError`, `ProviderRouter`, `ProviderEffects`, `AiBudget`). Failover and retries over
  circuit breakers, and the call accounting of a session whose workers may crash. The budget's steps contain the router
  itself.
- **Rate limiters** (`TokenBucket`, `FixedWindow`). A token bucket over real numbers, and the bounded fixed-window table
  against an unbounded reference.
- **Selections** (`Precedents`, `MemoryRecall`). Greedy selection under nested quotas, shown optimal position by position,
  and greedy selection under type caps, shown locally optimal and of exact size.
- **Smaller state machines** (`CorrectionLedger`, `TtlLock`, `ConfigSync`, `RepositoryId`).

Identifiers and tokens generated at random are taken to be fresh; digests are opaque. Where a property named by the
code's comments or by its design fails, a lemma gives the run that breaks it, and another the exact condition under which
it holds.

## Where the code and its comments differ

The model follows the code in each case.

- `packages/db/src/schema.ts:266-270` describes a reconciler that re-drives attempts with the same client token, relying
  on an idempotent Jules API. The reconciler never replays: it re-leases and escalates
  (`apps/worker/src/reconciler.ts:55-110`), and the client never retries a mutation
  (`packages/jules-client/src/client.ts:84-126`).
- `packages/db/src/repositories/outbox.repository.ts:19-21` says that fencing tokens and leases prevent duplicate external
  dispatches. They fence the marks, not the calls: a row can be dispatched on every attempt
  (`DurableScenarios.EveryAttemptCanCall`).
- `apps/worker/src/outbox-dispatcher.ts:148-150` marks the attempt under the outbox row's token. The attempt has a token of
  its own, which is 2, so the marks of any later claim miss and the reconciler escalates a dispatch that succeeded:
  `Reconciler.SuccessAfterRetryIsEscalated`.
- An operator may edit the text of a plan approval; the request that approves a plan has no text
  (`packages/jules-client/src/client.ts:260`): `DurableScenarios.EditedPlanLosesText`.
- The attempt limit is in the scan only, not in the claim (`packages/db/src/repositories/outbox.repository.ts:55` and
  `80-91`), so overlapping passes exceed it: `DurableScenarios.LimitHoldsExactlyForOneSlot`.
- `apps/web/src/lib/rate-limit.ts:30` speaks of pruning expired buckets; a full table is pruned of at most the bucket
  inserted first: `FixedWindow.NoRoomExactlyWhen`, `FixedWindow.FullOfExpired`.
- `apps/web/src/app/api/settings/route.ts:432-433` calls the revision monotonically advancing; it is a clock reading in
  milliseconds and may repeat: `ConfigSync.SyncHoldsExactlyWhen`.
- `packages/shared/src/repository-id.ts:130-133` says that two unidentifiable inputs are the same repository; the code
  answers no: `RepositoryId.SameRepositoryIsEquivalence`.
- `packages/ai/src/provider-error.ts:59-62` says that a permanent error must not fall back to another provider; the router does
  fall back (`packages/ai/src/provider-router.ts:250-261`): `ProviderRouter.DecidesExactlyWhen`.
- `packages/core/src/memory.ts:115-118` says that unknown classes fall back to the least-trusted rank; the fallback is the
  rank of an unknown outcome. The classes are closed, so the fallback is never taken and not modelled.

## Model

| member | source | states |
|---|---|---|
| `DurableTheorems.PipelineMutatesAtMostOnce` | apps/worker/src/pipeline.ts:231-826 | in every run (any interleaving of workers, crashes, redeliveries, no exclusive lock) the pipeline mutates Jules at most once per idempotency key |
| `DurableTheorems.PipelineFetchesAtMostOnce` | packages/jules-client/src/client.ts:74-167 | each of those mutations is one request of the client that is not a read, so at most one POST per key leaves the process, whatever the replies and retries |
| `DurableTheorems.OneActorPerDecision` | apps/worker/src/pipeline.ts:524-826 | a decision the pipeline mutated for has no approval, no outbox row and no dispatcher call; a dispatched one was reviewed and never mutated by the pipeline |
| `DurableTheorems.ExecutedMeansMutated` | apps/worker/src/outbox-dispatcher.ts:136-153 | a decision is never marked EXECUTED without an external mutation for it |
| `DurableTheorems.OutboxExactlyWhenSanctioned` | apps/web/src/app/api/approvals/[id]/route.ts:94-192 | per decision at most one approval and one outbox row, and an outbox row exists exactly when the approval is APPROVED or EDITED |
| `DurableExecutions.ExecutedAloneMeansSucceeded` | apps/worker/src/pipeline.ts:714-834 | in every run a decision that ran alone is EXECUTED only with exactly one attempt, number 1, which is SUCCEEDED, or for a human once a reconciler took it, and exactly SUCCEEDED without reconcilers; and with a request that left for it |
| `DurableExecutions.SettledRunsSucceeded` | apps/worker/src/pipeline.ts:828-831 | in every run, a pipeline run past its acknowledged request holds an attempt of its decision that is SUCCEEDED or NEEDS_RECONCILIATION, exactly SUCCEEDED without reconcilers; the decision is EXECUTING, then EXECUTED |
| `DurableExecutions.FailureEndsAttempt` | apps/worker/src/pipeline.ts:860-884 | in every run, an attempt under way when its run noted a failure is UNKNOWN_EFFECT after an ambiguous one and FAILED after any other, or for a human, the latter only with reconcilers |
| `DurableExecutions.GivingUpFailsDecision` | apps/worker/src/pipeline.ts:885 | a run that gives up leaves its decision EXECUTION_FAILED |
| `DurableExecutions.PostedAsProposed` | apps/worker/src/pipeline.ts:757-812 | every request of the pipeline is for a decision that runs alone: the plan approved, or the proposed response, which is not empty, as a message |
| `DurableExecutions.RedeliveryStops` | apps/worker/src/pipeline.ts:231-256 | a redelivered event stops at the lookup and changes nothing |
| `DurableTheorems.ReviewedAsProposed` | apps/worker/src/pipeline.ts:678-693 | in every run an approval has the session, action and response of its decision, which asks for review and does not run alone |
| `DurableSendings.RequestsAreSanctioned` | apps/worker/src/outbox-dispatcher.ts:138-147 | in every run, every request of the dispatcher is for a sanctioned approval of its decision: the plan approved, or as a message the operator's edit, and the proposal only where there is no edit |
| `DurableSendings.TextSentOnlyWhen` | packages/jules-client/src/client.ts:233-270 | in no run does a text reach Jules for a plan approval, an empty text, or any text but the operator's edit, else the proposal |
| `DurableSendings.EmptyTextIsNeverExecuted` | packages/jules-client/src/schemas.ts:195-203 | a sanctioned message without text is never sent and its decision never marked EXECUTED |
| `DurableTheorems.UniqueIndexHolds` | packages/db/src/schema.ts:295-298 | no run ever violates the unique index on (decision, attempt number) |
| `DurableTheorems.AttemptsAreBounded` | packages/db/src/repositories/outbox.repository.ts:44-95 | with W passes in flight: token is attempts + 1, attempts <= maxAttempts + W - 1, and external calls for a row never exceed its attempts |
| `DurableTheorems.FetchesAreBounded` | packages/jules-client/src/client.ts:74-167 | the client makes at most one fetch for each attempt of an outbox row |
| `DurableTheorems.TokenGrantedExactlyOnce` | packages/db/src/repositories/outbox.repository.ts:62-95 | each token from 2 to the current one was granted to exactly one claim, no other token ever was |
| `DurableTheorems.OneTerminalMark` | packages/db/src/repositories/outbox.repository.ts:121-195 | over a whole run exactly one terminal mark succeeds on a terminal row and none on any other |
| `DurableTheorems.TerminalMarkIsNewest` | packages/db/src/repositories/outbox.repository.ts:121-195 | a terminal mark succeeds only for the pass that made the newest claim of the row |
| `DurableTheorems.TerminalRowsAreFrozen` | packages/db/src/repositories/outbox.repository.ts:121-195 | COMPLETED, FAILED and UNCERTAIN are absorbing: the whole row is frozen for the rest of the run |
| `DurableTheorems.ReviewIsQueuedHeldOrStranded` | apps/worker/src/pipeline.ts:603-712 | a decision awaiting approval has an approval row, or a live run about to write it, or lost its run in between; the three exclude each other |
| `DurableTheorems.StrandedForever` | apps/worker/src/pipeline.ts:231-256 | a stranded review stays without approval, outbox row and dispatch for the rest of the run, redelivery included |
| `DurableTheorems.AbandonedForever` | packages/db/src/repositories/outbox.repository.ts:44-60 | a row in flight at the attempt limit that no pass holds or is about to claim is never claimed again: it stays in flight for the rest of the run |
| `DurableTheorems.RunKeepsInv` | apps/worker/src/pipeline.ts:231-912 | the eleven-part invariant of the protocol holds in every state of every run |
| `DurableScenarios.ReviewCanBeStranded` | apps/worker/src/pipeline.ts:603-693 | a run exists that ends with a decision awaiting approval for which no approval will ever be queued |
| `DurableScenarios.OvershootIsAttained` | packages/db/src/repositories/outbox.repository.ts:80-91 | for every positive number W of passes a run reaches attempts = maxAttempts + W - 1 |
| `DurableScenarios.LimitHoldsExactlyForOneSlot` | packages/db/src/repositories/outbox.repository.ts:44-95 | attempts <= maxAttempts in every reachable state if and only if there is exactly one dispatcher pass |
| `DurableScenarios.TextReachesExactlyWhen` | apps/worker/src/outbox-dispatcher.ts:138-147 | for every sanctioned approval and every text: some run carries the text to Jules if and only if it is not a plan approval, the text is not empty, and it is the operator's edit or the unedited proposal |
| `DurableScenarios.EditedPlanLosesText` | packages/jules-client/src/client.ts:252-270 | every plan approved with an edit has a run that ends COMPLETED and EXECUTED with one request, which carries none of the edit |
| `DurableScenarios.EveryAttemptCanCall` | apps/worker/src/outbox-dispatcher.ts:109-147 | the bound on calls is reached: a sanctioned row can be dispatched once on every one of its attempts |
| `DurableScenarios.LastAttemptCanDie` | packages/db/src/repositories/outbox.repository.ts:44-60 | a run leaves a row at its limit, dispatched three times, in flight, and held by no pass; AbandonedForever then applies |
| `DurableEndings.RowEndsByItsFault` | apps/worker/src/outbox-dispatcher.ts:165-191 | in every run a row is terminal exactly when a mark succeeded: COMPLETED without a fault, UNCERTAIN after an ambiguous one, FAILED after a permanent one or a transient one at the limit |
| `DurableEndings.CallsAfterTheEnd` | packages/db/src/repositories/outbox.repository.ts:62-95 | in every run, after a row is terminal only passes that had claimed it before and not yet called can still call, once each |
| `DurableEndings.CalledAgainExactlyWhen` | packages/db/src/repositories/outbox.repository.ts:121-195 | a terminal row is called for again in some continuation if and only if such a pass exists and its request is one that leaves |
| `DurableEndings.UncertainIsNotSentAgain` | apps/worker/src/outbox-dispatcher.ts:175-179 | a row that ended after an ambiguous call stays UNCERTAIN and is never called for again, when no other pass still holds a claim on it |
| `DurableUndisturbed.ItemAlone` | apps/worker/src/outbox-dispatcher.ts:109-196 | an undisturbed item in the transition system, for every fault: the exact row, attempt, decision, calls and result, value by value |
| `DurableUndisturbed.AttemptAlone` | apps/worker/src/reconciler.ts:67-110 | an undisturbed attempt of a sweep: taken exactly when lapsed or pending, then for a human, or failed when its decision is gone |
| `DurableReview.ReviewKeepsInv` | apps/web/src/app/api/approvals/[id]/route.ts:94-192 | the operator transaction keeps the whole protocol invariant |
| `DurableDispatch.PassKeepsInv` | apps/worker/src/outbox-dispatcher.ts:60-193 | every statement of a dispatcher pass keeps the whole protocol invariant |
| `DurablePipeline.PipeKeepsInv` | apps/worker/src/pipeline.ts:231-912 | every statement of a pipeline run, its exceptions and its crashes keep the whole protocol invariant |
| `DurableReview.SweepKeepsInv` | apps/worker/src/reconciler.ts:55-110 | every statement of a reconciler sweep keeps the whole protocol invariant |
| `OutboxRepository.Repository.Create` | packages/db/src/repositories/outbox.repository.ts:26-42 | inserts the fresh row with token 1 and no attempts, or fails on a taken id |
| `OutboxRepository.Repository.FindClaimable` | packages/db/src/repositories/outbox.repository.ts:44-60 | distinct scannable rows, at most the limit, and all of them when they fit |
| `OutboxRepository.Repository.ClaimRow` | packages/db/src/repositories/outbox.repository.ts:62-95 | granted exactly on a pending or lapsed row; the new holder is the only one, every earlier token is fenced, nobody can claim the row again before the lease ends and everybody can after; one more attempt, order columns and all other rows untouched |
| `OutboxRepository.ClaimIsDetermined` | packages/db/src/repositories/outbox.repository.ts:62-95 | that promise holds of exactly one table and answer, the claim step of the transition system |
| `OutboxRepository.Repository.MarkExecuting` | packages/db/src/repositories/outbox.repository.ts:97-119 | succeeds exactly for the holder of a claimed row, who keeps it under the same token, lease and attempts; no other row changes |
| `OutboxRepository.StartIsDetermined` | packages/db/src/repositories/outbox.repository.ts:97-119 | that promise holds of exactly one table and answer, the start step of the transition system |
| `OutboxRepository.Repository.MarkCompleted` | packages/db/src/repositories/outbox.repository.ts:121-143 | succeeds exactly for the holder; afterwards nobody holds the row or can ever claim it; no other row changes |
| `OutboxRepository.Repository.MarkFailed` | packages/db/src/repositories/outbox.repository.ts:145-169 | the same for a failure, whose error is recorded |
| `OutboxRepository.Repository.MarkUncertain` | packages/db/src/repositories/outbox.repository.ts:171-195 | the same for an unknown effect, whose error is recorded |
| `OutboxRepository.EndIsDetermined` | packages/db/src/repositories/outbox.repository.ts:121-195 | that promise holds of exactly one table and answer, the terminal step of the transition system |
| `ExecutionAttemptRepository.Repository.Create` | packages/db/src/repositories/execution-attempt.repository.ts:31-45 | inserts an attempt unless the (decision, number) pair or the id is taken |
| `ExecutionAttemptRepository.Repository.ClaimPending` | packages/db/src/repositories/execution-attempt.repository.ts:47-62 | granted exactly on a pending attempt; marks then work for this owner and token only, and no reconciler finds the attempt before the lease ends; the attempt stays the same one, no other changes |
| `ExecutionAttemptRepository.Repository.RecoverStale` | packages/db/src/repositories/execution-attempt.repository.ts:69-97 | the same lease, granted exactly on a lapsed or pending attempt |
| `ExecutionAttemptRepository.LeaseIsDetermined` | packages/db/src/repositories/execution-attempt.repository.ts:47-97 | what a lease promises holds of exactly one table, the step of the transition system |
| `ExecutionAttemptRepository.Repository.MarkExecuting` | packages/db/src/repositories/execution-attempt.repository.ts:99-115 | succeeds exactly on a claimed attempt whose owner and, if given, token match; only its status changes |
| `ExecutionAttemptRepository.Repository.MarkSucceeded` | packages/db/src/repositories/execution-attempt.repository.ts:117-146 | succeeds exactly on an attempt in flight whose owner and token, as far as given, match; it keeps its lease and is never stale again |
| `ExecutionAttemptRepository.Repository.MarkFailed` | packages/db/src/repositories/execution-attempt.repository.ts:148-179 | the same for a failure |
| `ExecutionAttemptRepository.Repository.MarkUnknownEffect` | packages/db/src/repositories/execution-attempt.repository.ts:181-212 | the same for an unknown effect |
| `ExecutionAttemptRepository.EndIsDetermined` | packages/db/src/repositories/execution-attempt.repository.ts:117-212 | that promise holds of exactly one table and answer, the step of the transition system |
| `ExecutionAttemptRepository.Repository.MarkNeedsReconciliation` | packages/db/src/repositories/execution-attempt.repository.ts:214-220 | changes the status of an existing attempt whatever it was, and nothing else |
| `ExecutionAttemptRepository.Repository.FindStaleAttempts` | packages/db/src/repositories/execution-attempt.repository.ts:232-253 | exactly the in-flight attempts past their lease and the old pending ones |
| `OutboxDispatcher.ProcessItem` | apps/worker/src/outbox-dispatcher.ts:109-196 | undisturbed, by literal values: when an item is skipped or clashes; which fault gives which result (uncertain iff ambiguous, retry iff transient below the limit, final iff permanent or transient at it); what each result leaves in row, attempt and decision; what is sent; the attempt follows exactly under the row's first claim |
| `OutboxDispatcher.DispatchOnce` | apps/worker/src/outbox-dispatcher.ts:60-107 | undisturbed: every scanned row gets its turn and ends as its result says, no other row changes, counters add up, each row is sent for at most once, and a success was sent; nothing happens unless RUNNING |
| `Reconciler.ReconcileOnce` | apps/worker/src/reconciler.ts:55-116 | undisturbed: exactly the stale attempts are resolved, each for a human or as failed when its decision is gone; all are counted as recovered and escalated, none re-driven |
| `Reconciler.Resolve` | apps/worker/src/reconciler.ts:67-110 | one stale attempt: recovered exactly when lapsed or pending, then resolved under a new token |
| `Reconciler.SuccessAfterRetryIsEscalated` | apps/worker/src/outbox-dispatcher.ts:131-150 | a success under a later claim of its row leaves the row COMPLETED, the decision EXECUTED and the attempt to be escalated by the reconciler; only under the first claim does the attempt end SUCCEEDED |
| `LedgerProgress.StatementProgresses` | packages/db/src/repositories/execution-attempt.repository.ts:47-221 | every statement but the escalation leaves a row alone or moves it strictly forward in (resolved, token, stage); a resolved row stays resolved |
| `LedgerProgress.RecoveredOncePerLease` | packages/db/src/repositories/execution-attempt.repository.ts:69-98 | under one monotone clock, two recoveries of an attempt are more than the first one's lease apart, however many reconcilers interleave |
| `LedgerProgress.ResolvedNeverStale` | packages/db/src/repositories/execution-attempt.repository.ts:232-253 | a resolved attempt is never stale or recovered again, whatever follows and whatever the clock says |
| `ExecutionGate.Evaluate` | packages/policy/src/engine.ts:24-68 | the policy verdict over any rule list: any hard block blocks, any review request reviews, risk is raised accordingly |
| `ExecutionGate.DecideGate` | apps/worker/src/pipeline.ts:511-600 | for every input, the first state exactly: executing, blocked, dry or awaiting approval, each by a condition on mode, action, risks, rules, confidence, degradation and payload |
| `ExecutionGate.AutoExecutesExactlyWhen` | packages/core/src/execution-mode.ts:12-174 | the exact condition, over mode, flags, risks, rules, confidence, degradation and payload, for execution without a human |
| `ExecutionGate.StatesExactlyWhen` | apps/worker/src/pipeline.ts:524-600 | the four first states in closed form, over all inputs; review is asked for exactly in AWAITING_APPROVAL |
| `ExecutionGate.GateExactly` | packages/core/src/execution-mode.ts:12-174 | over all inputs, when the gate allows, when it blocks, and when it asks for a human in place of the proposed action |
| `ExecutionGate.AutoExecutionExcludesReview` | apps/worker/src/pipeline.ts:524-591 | executing alone excludes review and block through the whole chain |
| `ExecutionGate.HardBlockDominates` | apps/worker/src/pipeline.ts:535-545 | a failed hard-block rule ends in BLOCKED whatever the rest says |
| `ExecutionGate.StricterNeverExecutesMore` | apps/worker/src/pipeline.ts:511-591 | raising a risk, adding a rule or degrading never turns a refusal into an execution |
| `OperatorReview.DecisionRepository.Create` | packages/db/src/repositories/decision.repository.ts:42-60 | conflict-do-nothing insert: own id comes back exactly when the key was free, else a row with the key |
| `OperatorReview.DecisionRepository.FindByIdempotencyKey` | packages/db/src/repositories/decision.repository.ts:16-23 | finds a row with the key exactly when there is one |
| `OperatorReview.DecisionRepository.MarkExecuted` | packages/db/src/repositories/decision.repository.ts:62-90 | writes the execution state of an existing row and touches no other |
| `OperatorReview.ApprovalRepository.UpdateStatus` | packages/db/src/repositories/approval.repository.ts:43-62 | takes a verdict exactly on a pending row |
| `OperatorReview.Post` | apps/web/src/app/api/approvals/[id]/route.ts:49-192 | on the three tables, the route performs exactly the review step of the transition system, or nothing; a sanctioned action is staged once, with the operator's edit, else the proposal, and the decision is DISPATCH_REQUESTED or BLOCKED |
| `OperatorReview.PositiveEvidenceNeedsSanction` | apps/web/src/app/api/approvals/[id]/route.ts:27-47 | a successful decision becomes positive precedent evidence exactly when the verdict sanctioned its dispatch |
| `JulesClient.Request` | packages/jules-client/src/client.ts:74-167 | the fetches of one request: a non-GET fetches at most once, a GET at most maxRetries + 1 times; exactly which replies are repeated, and what the last one tells the caller |
| `ProviderRouter.RouteWithSignal` | packages/ai/src/provider-router.ts:164-276 | the nested loops over breakers and health agree with the routing function |
| `ProviderRouter.OneTurn` | packages/ai/src/provider-router.ts:172-263 | one provider's turn: breaker asked once, then the retry loop |
| `ProviderRouter.Eligible` | packages/ai/src/provider-router.ts:124-130 | exactly the providers that can satisfy the request, in order |
| `ProviderRouter.RouteSettles` | packages/ai/src/provider-router.ts:172-275 | a decision or an abort is the doing of the first admitted provider that does not give up; exhaustion means all gave up |
| `ProviderRouter.DecidesExactlyWhen` | packages/ai/src/provider-router.ts:172-275 | absent aborts, a decision comes back exactly when some admitted provider yields one within its attempts: the first such provider, at its first valid attempt |
| `ProviderRouter.RouteLogs` | packages/ai/src/provider-router.ts:172-275 | the exact shape of the attempt log of a run that is not aborted |
| `ProviderRouter.CallsAreLogged` | packages/ai/src/provider-router.ts:188-263 | every call is logged except one an abort interrupts; at most N * (1 + maxRetries) calls |
| `ProviderRouter.RouteExhausts` | packages/ai/src/provider-router.ts:186-263 | that number of calls is reached |
| `ProviderRouter.ChargedExactly` | apps/worker/src/pipeline.ts:399-481 | the budget is charged exactly the calls made, unless an abort interrupted a routing that had called |
| `ProviderRouter.PermanentEndsTurn` | packages/ai/src/provider-router.ts:250-261 | a provider whose answer was unreadable, or whose error is permanent, is not called again in that routing |
| `ProviderEffects.RouteFeeds` | packages/ai/src/provider-router.ts:164-276 | after any routing, aborted or not, the breaker of every provider represents its history plus the logged failures and successes at their clock readings, and its health is what its last log entry makes it |
| `ProviderRouter.EligibleExactly` | packages/ai/src/provider-router.ts:124-130 | a provider is eligible exactly when it supports structured decisions and has a context window, or nothing is to be sent |
| `ProviderError.ClassifyProviderFailure` | packages/ai/src/provider-error.ts:46-73 | unreadable output wins over a permanent status; retryable exactly when neither |
| `CircuitBreaker.RefinesHistory` | packages/ai/src/circuit-breaker.ts:54-115 | after any run under a monotone clock the lazy, pruned breaker answers, trips and keeps failures as a full-history reference does |
| `CircuitBreaker.ReadsAreUnobservable` | packages/ai/src/circuit-breaker.ts:54-75 | runs with the same outcomes and different reads cannot be told apart |
| `CircuitBreaker.TripNeedsThreshold` | packages/ai/src/circuit-breaker.ts:105-113 | a trip since the last success needs as many failures as the threshold |
| `CircuitBreaker.WithinExactly` | packages/ai/src/circuit-breaker.ts:88-96 | a failure counts exactly while it is less than a window old |
| `CircuitBreaker.CircuitBreaker.RefreshState` | packages/ai/src/circuit-breaker.ts:54-61 | OPEN exactly when the reference refuses |
| `CircuitBreaker.CircuitBreaker.IsAllowed` | packages/ai/src/circuit-breaker.ts:72-75 | allowed exactly when no trip since the last success is younger than the cooldown |
| `CircuitBreaker.CircuitBreaker.OnFailure` | packages/ai/src/circuit-breaker.ts:88-115 | trips exactly when the reference trips, and appends the failure to the represented history |
| `CircuitBreaker.CircuitBreaker.OnSuccess` | packages/ai/src/circuit-breaker.ts:78-82 | closes the circuit and forgets all failures |
| `CircuitBreaker.CircuitBreaker.Reset` | packages/ai/src/circuit-breaker.ts:118-122 | closes the circuit and forgets all failures |
| `AiBudget.EvaluateBudgetExhaustion` | packages/core/src/budget.ts:43-67 | exceeded exactly when some ceiling is reached; the reasons are those ceilings, in order |
| `AiBudget.BudgetRepository.IncrementUsage` | packages/db/src/repositories/budget.repository.ts:26-61 | the upsert sets or raises each of the five counters by its own amount, leaves corrections alone, and touches no other session |
| `AiBudget.BudgetRepository.IncrementCorrections` | packages/db/src/repositories/budget.repository.ts:66-83 | the upsert adds one correction to one session |
| `AiBudget.RunInvariant` | apps/worker/src/pipeline.ts:317-481 | in every run: calls made = charged + pending + lost, and the counter with everything that may still be charged stays within maxAiCalls - 1 + W * N * (1 + maxRetries) |
| `AiBudget.ExclusiveBound` | apps/worker/src/pipeline.ts:317-332 | with an exclusive lock the AI-call counter never passes maxAiCalls - 1 + N * (1 + maxRetries) |
| `AiBudget.ExclusiveBoundIsReached` | apps/worker/src/pipeline.ts:317-481 | a run reaches that bound |
| `AiBudget.CounterIsExact` | apps/worker/src/pipeline.ts:399-481 | without crashes, aborts and lost increments, the counter of a resting session equals the calls made |
| `AiBudget.CountersAreSums` | apps/worker/src/pipeline.ts:399-481 | in every run the token and cost counters are the sums of what was charged, column by column |
| `AiBudget.ClearedExactlyWhen` | apps/worker/src/pipeline.ts:317-332 | a worker is cleared exactly when it is idle, a slot is free, and calls, corrections and the charged tokens and cost are all below their ceilings |
| `AiBudget.SpendingIsBounded` | apps/worker/src/pipeline.ts:317-481 | with W workers the token and cost counters stay within ceiling - 1 + W charges, so within one charge of the ceiling under an exclusive lock |
| `CorrectionLedger.CanSubmitCorrection` | packages/core/src/correction-loop.ts:45-65 | allowed exactly below the ceiling with a new fingerprint; the ceiling is reported first |
| `CorrectionLedger.CorrectionRepository.Record` | packages/db/src/repositories/correction.repository.ts:26-45 | inserts exactly when the (session, fingerprint) pair is new, keeping rows distinct |
| `CorrectionLedger.CorrectionRepository.FingerprintsForSession` | packages/db/src/repositories/correction.repository.ts:48-54 | exactly the fingerprints of that session |
| `CorrectionLedger.LedgerIsDistinct` | packages/db/src/repositories/correction.repository.ts:26-45 | in every run the ledger holds distinct fingerprints and every in-memory cache is a subset of it |
| `CorrectionLedger.LedgerIsBounded` | apps/worker/src/pipeline.ts:785-826 | with W tasks at once the ledger holds at most maxCorrections + W - 1 rows, so at most maxCorrections with an exclusive lock |
| `CorrectionLedger.CheckSeesLedger` | apps/worker/src/pipeline.ts:785-805 | with an exclusive lock, the union of durable set and cache equals the ledger at every check, across crashes; refused exactly on a full ledger or a known fingerprint |
| `CorrectionLedger.CheckExactly` | apps/worker/src/pipeline.ts:785-805 | a check looks at the loaded ledger together with the process cache: allowed exactly below the ceiling with a new fingerprint |
| `CorrectionLedger.CountExactly` | apps/worker/src/pipeline.ts:820-826 | counting adds one to the counter and the fingerprint to the own process cache |
| `CorrectionLedger.SendsAreDistinct` | apps/worker/src/pipeline.ts:806-826 | with an exclusive lock and no unrecorded send, corrections reach Jules pairwise distinct and at most maxCorrections times; the budget counter lags the ledger by exactly the corrections not counted |
| `CorrectionLedger.OvershootIsAttained` | apps/worker/src/pipeline.ts:785-826 | for every ceiling and every number W of tasks at once, a run records maxCorrections + W - 1 corrections |
| `CorrectionLedger.CeilingHoldsExactlyWhenExclusive` | apps/worker/src/pipeline.ts:785-826 | for every configuration: the ceiling holds in every reachable state if and only if at most one task holds the session, or nothing may be sent |
| `TokenBucket.LevelInRange` | packages/jules-client/src/rate-limiter.ts:15-20 | the level stays within [0, capacity] |
| `TokenBucket.RateIsBounded` | packages/jules-client/src/rate-limiter.ts:22-34 | every interval [s, t] of every run grants at most capacity + refillRatePerSecond * (t - s) / 1000 tokens |
| `TokenBucket.AboveCapacityIsNeverGranted` | packages/jules-client/src/rate-limiter.ts:22-34 | a request above the capacity is never granted |
| `TokenBucket.TokenBucketRateLimiter.Acquire` | packages/jules-client/src/rate-limiter.ts:22-34 | any request, any clock, watched for any number of passes: tokens are taken at the first pass that finds enough, unless aborted before; the first pass finds min(capacity, level + rate * idle milliseconds / 1000) |
| `TokenBucket.TokenBucketRateLimiter.RefillNow` | packages/jules-client/src/rate-limiter.ts:15-20 | the level after any idle time is min(capacity, level + rate * milliseconds / 1000) |
| `TokenBucket.FoundExactly` | packages/jules-client/src/rate-limiter.ts:15-34 | with a clock that advances, every pass finds min(capacity, first level + rate * milliseconds since / 1000) |
| `TokenBucket.WaitIsLeast` | packages/jules-client/src/rate-limiter.ts:30-32 | the wait is the least number of whole milliseconds that makes up for what is missing |
| `TokenBucket.ServedExactlyWhen` | packages/jules-client/src/rate-limiter.ts:22-34 | with a clock that advances, an undisturbed requester is served at some pass if and only if it asks for no more than the capacity |
| `TokenBucket.ServedWithin` | packages/jules-client/src/rate-limiter.ts:30-32 | and then no later than the wait that the first pass computes |
| `FixedWindow.SameAnswers` | apps/web/src/lib/rate-limit.ts:43-58 | every answer is that of an unbounded, unpruned limiter on the same history minus the requests refused for room; the table never exceeds MAX_BUCKETS |
| `FixedWindow.RefusesExactlyWhen` | apps/web/src/lib/rate-limit.ts:43-58 | that limiter refuses exactly when the window of the key opened less than 60 seconds ago and has seen 120 requests, or 10 of the authentication kind |
| `FixedWindow.NoRoomExactlyWhen` | apps/web/src/lib/rate-limit.ts:31-53 | refused for room exactly when the table is full, the key is new and the bucket inserted first has not expired |
| `FixedWindow.FullOfExpired` | apps/web/src/lib/rate-limit.ts:30-37 | a full table whose buckets are expired, all but two, still refuses a new key |
| `FixedWindow.AdmitsAtMostTwice` | apps/web/src/lib/rate-limit.ts:43-58 | no key is admitted more than 2 * limit times in any interval of one window's length, both ends included |
| `FixedWindow.Limiter.PruneExpired` | apps/web/src/lib/rate-limit.ts:31-37 | the pruning loop, bucket by bucket in insertion order |
| `FixedWindow.Limiter.IsRateLimited` | apps/web/src/lib/rate-limit.ts:43-58 | one call keeps the table representing the history and answers as the table function |
| `Precedents.Classify` | packages/core/src/memory.ts:87-113 | each class by its exact outcomes and human actions; positive evidence exactly for a success with human approval, negative exactly for FAILED or REJECTED |
| `Precedents.TrustExactly` | packages/core/src/memory.ts:115-143 | the trust order in full: edited, approved, automated, unknown, rejected, failed; then the later observation, then the larger identifier |
| `Precedents.FeasibleExactly` | packages/core/src/memory.ts:171-204 | what the three quotas allow, class by class |
| `Precedents.OrderSorts` | packages/core/src/memory.ts:133-143 | the result is in trust order |
| `Precedents.OrderPermutes` | packages/core/src/memory.ts:133-143 | the order loses and invents no row |
| `Precedents.OrderIsInputIndependent` | packages/core/src/memory.ts:133-143 | with distinct ids the order of the input does not matter |
| `Precedents.SelectPrecedentsWithinBounds` | packages/core/src/memory.ts:171-204 | the greedy pass returns a legal selection in trust order that dominates every legal selection, position by position |
| `Precedents.SelectTakesBest` | packages/core/src/memory.ts:171-204 | the counts of the selection in closed form, for every sorted input and so for every prefix |
| `Precedents.SelectionIsOptimal` | packages/core/src/memory.ts:171-204 | no legal selection is longer, and its i-th row is no more trusted |
| `Precedents.SelectionIsInputIndependent` | packages/core/src/memory.ts:171-204 | with distinct ids the selection does not depend on input order |
| `MemoryRecall.LoadCandidates` | packages/ai/src/memory-recall.ts:231-272 | exactly the hits whose canonical row passes every check, in order |
| `MemoryRecall.HitBecomesCandidate` | packages/ai/src/memory-recall.ts:231-272 | every hit whose row is in scope, active, current and above threshold becomes a candidate |
| `MemoryRecall.RankedDescends` | packages/ai/src/memory-recall.ts:272-273 | the ranking is by descending relevance |
| `MemoryRecall.RankedIsStable` | packages/ai/src/memory-recall.ts:272-273 | the ranking loses and invents nothing, and keeps equal scores in order |
| `MemoryRecall.MaxSimilarityToSelected` | packages/ai/src/memory-recall.ts:168-185 | 1 exactly when a like item is already selected |
| `MemoryRecall.SelectDiverse` | packages/ai/src/memory-recall.ts:135-166 | the items at distinct positions, each the first best with room when picked, until topK is reached or nothing has room |
| `MemoryRecall.DiverseIsUnique` | packages/ai/src/memory-recall.ts:135-166 | that description determines the selection |
| `MemoryRecall.PickIsBest` | packages/ai/src/memory-recall.ts:135-185 | nothing with room scored higher than a pick, doubles of earlier picks having lost lambda, and nothing equal ranked before it |
| `MemoryRecall.CapsAreRespected` | packages/ai/src/memory-recall.ts:148-152 | no type exceeds its cap |
| `MemoryRecall.ExactSize` | packages/ai/src/memory-recall.ts:135-166 | the selection has exactly min(topK, sum of min(cap, count)) items |
| `MemoryRecall.RecallIsSound` | packages/ai/src/memory-recall.ts:231-289 | every recalled item is the row its hit was looked up as: in scope, active, current, above threshold |
| `MemoryRecall.Recall` | packages/ai/src/memory-recall.ts:231-289 | filter, ranking and selection composed |
| `TtlLock.OverlapNeedsExpiry` | apps/worker/src/lock.ts:24-63 | a body that still runs when another acquires has no unexpired lease left |
| `TtlLock.MutualExclusion` | apps/worker/src/lock.ts:24-63 | two running bodies never both hold unexpired leases |
| `TtlLock.StaleForever` | apps/worker/src/lock.ts:33-63 | a token that lost the lock never regains it, and renewing or releasing with it never changes the lock |
| `TtlLock.InMemoryDistributedLock.Acquire` | apps/worker/src/lock.ts:130-139 | granted exactly when no live lock is held |
| `TtlLock.InMemoryDistributedLock.Release` | apps/worker/src/lock.ts:141-148 | removes exactly the holder's own lock |
| `TtlLock.RedisDistributedLock.Acquire` | apps/worker/src/lock.ts:24-30 | set-if-absent with expiry; refused for a non-positive time to live |
| `TtlLock.RedisDistributedLock.Renew` | apps/worker/src/lock.ts:52-63 | extends exactly a live lock that holds the token |
| `TtlLock.RedisDistributedLock.Release` | apps/worker/src/lock.ts:32-44 | deletes exactly a live lock that holds the token |
| `ConfigSync.SyncHolds` | apps/worker/src/runtime-config.ts:20-56 | without overlapping passes, a resting worker with the stored revision has the stored settings applied and live, whatever failed |
| `ConfigSync.SyncHoldsExactlyWhen` | apps/web/src/app/api/settings/route.ts:420-443 | that holds in every run exactly when a repeated revision means unchanged settings and the boot missed nothing |
| `ConfigSync.OnePassSyncs` | apps/worker/src/runtime-config.ts:20-56 | once transactions stop: in every continuation of a resting run by pass moves that do not fail, once a pass has read the revision and all passes are done, the stored revision and settings are applied and live |
| `ConfigSync.OnePassCompletes` | apps/worker/src/runtime-config.ts:20-56 | one pass without failure, appended to any resting run, is such a continuation |
| `ConfigSync.InSyncStays` | apps/worker/src/runtime-config.ts:20-30 | and without further transactions the worker stays there, whatever fails |
| `ConfigSync.OverlapSyncsExactlyWhen` | apps/worker/src/index.ts:264-269 | with two or more passes that may overlap, sync holds in every run if and only if the settings never change once versioned and the boot missed nothing |
| `ConfigSync.RuntimeConfigSynchronizer.SyncOnce` | apps/worker/src/runtime-config.ts:20-56 | one pass, as the composition of its moves; revision and reload reported |
| `RepositoryId.OutputsAreCanonical` | packages/shared/src/repository-id.ts:98-128 | every identifier produced matches the canonical pattern |
| `RepositoryId.LocalExactlyWhen` | packages/shared/src/repository-id.ts:34-46 | what counts as a local path: a drive letter, a doubled slash or backslash, a file URI in any case, a dot or a tilde at the start |
| `RepositoryId.LocalPathHasNoId` | packages/shared/src/repository-id.ts:8-11 | a local path is never a repository |
| `RepositoryId.RejectedExactlyWhen` | packages/shared/src/repository-id.ts:98-115 | which texts are rejected as too long, as the placeholder or as a local path |
| `RepositoryId.IdempotentExactlyWhen` | packages/shared/src/repository-id.ts:98-128 | normalizing an output again returns it exactly when it is not the placeholder and does not end in .git |
| `RepositoryId.FixedPointExactlyWhen` | packages/shared/src/repository-id.ts:52-128 | the same for any canonical identifier; one that ends in .git loses the ending |
| `RepositoryId.SpellingsAgree` | packages/shared/src/repository-id.ts:52-128 | SSH, http(s) with any host, host-qualified, leading-slash and bare spellings, in any case, with or without .git and slash, map to one id |
| `RepositoryId.SameRepositoryIsEquivalence` | packages/shared/src/repository-id.ts:134-142 | an equivalence on identifiable inputs; never true for an unidentifiable one |

## Left out

- Kill-switch reads: in the pipeline they are one more reason to escalate or to throw before the mutation, and in the
  dispatcher one more way for a pass to do nothing; both outcomes are steps of the model already.
- Loop detection, risk patterns and policy rule bodies: arbitrary inputs of the gate chain.
- OutboxDispatcher.DispatchOnce: nobody else moves during the pass, and neither the lock nor the database refuses; both ends
  of a pass, and all interleavings, are steps of the transition system.
- Reconciler.ReconcileOnce: nobody else moves during the pass; the interleavings are steps of the transition system.
- ExecutionAttemptRepository.Repository.MarkFailed: the error columns of an attempt are not modelled.
- Session rows, activities, audit records and metrics: no guarantee above depends on them.
- Provider answers, HTTP, SQL, Redis and the vector index: arbitrary outcomes of the steps that call them.
- DurableExecutions.FailureEndsAttempt: a database statement that throws has had no effect; one that takes effect and still
  throws is not a step of the model.
- AiBudget.RunInvariant: a routing is one step and a crash during it may follow any number of its calls; the interleaving
  of single calls of two routings is not modelled, because neither reads what the other writes before it charges.
- AiBudget.CounterIsExact: about calls only; token and cost charges take a maximum of two estimates and are not exact.
- AiBudget.EvaluateBudgetExhaustion: cost is counted in whole micro-dollars instead of rounded floating point.
- CorrectionLedger.SendsAreDistinct: covers the pipeline's corrections; a correction that an operator approves is sent by
  the dispatcher and never enters the ledger, and an operator's rejection also raises the correction counter.
- CorrectionLedger.CanSubmitCorrection: works on fingerprints; trimming, lower-casing and hashing an instruction are not modelled.
- TokenBucket.TokenBucketRateLimiter.Acquire: nobody else takes tokens meanwhile, and the length of a sleep only shows in
  the clock readings; runs of many requesters are the subject of TokenBucket.RateIsBounded.
- FixedWindow.Limiter.IsRateLimited: the distributed variant on Redis is not modelled.
- Precedents.OrderSorts: an identifier is its position in the collation order, so two identifiers that collate as equal
  count as one.
- MemoryRecall.LoadCandidates: the score is an arbitrary function of hit and row; its weights and penalties are not modelled.
- MemoryRecall.RecallIsSound: does not exclude duplicates; an index that returns one memory twice can have it recalled twice.
- TtlLock.OverlapNeedsExpiry: one clock decides expiry for all clients of a store, and a lock expires at the millisecond
  it was set to expire; the renewal timer and the abort signal only decide when a body asks, not what the store answers.
- The in-memory lock's ten retries: each is another acquire event.
- ConfigSync.SyncHolds: a runtime status row written by a pass is not an admin setting and is ignored.
- JulesClient.Request: backoff durations, headers and response parsing are not modelled.
- RepositoryId.SpellingsAgree: a host written before a path without a scheme is made of letters, digits, `_`, `.` and `-`.
- ProviderRouter.DecidesExactlyWhen: the breakers change through this routing only; other routings of the same process may
  change them between its steps.
- Lower-casing in RepositoryId: ASCII and the Kelvin sign; any other character is rejected by the canonical pattern
  in either case.
- Web pages, authentication, health servers, memory admission and consolidation, poller pagination: input, output and
  bounded loops without shared state.
