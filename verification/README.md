# MPCKit: a verified model of the backend's protocols

MPCKit signs on behalf of users who pay in credits. The backend keeps a pool of presigns, each
backed by a cap object on the Sui chain that one signature burns; it charges a user when a
signature is prepared, submits one transaction per signature through a gas station, waits for
the coordinator, and refunds what fails. This project models that pipeline, the billing ledger
under it, and the smaller protocols and transformations around it, and proves what they keep.

`dafny verify dfyconfig.toml` checks everything.

## How the project is laid out

| file | content |
|---|---|
| Common | options, results, networks |
| Ledger, Billing | the charge, refund and deposit calls as functions on the tables, their laws, and the service as a class proved against them |
| LedgerTransactions | the same calls as database transactions interleaved statement by statement, and serializability |
| TxExecutor | the gas-station executor and the soundness of its failure phases |
| SignPipeline, SignInvariant, SignRuns, SignTheorems | presigns, requests, ledger, queue, jobs and chain as one transition system; its invariant; the main theorems over every run |
| SignEffects | what each call writes and answers, read off the tables before and after |
| SignTiming | what depends on timing or on the gas station's answers, with counterexamples |
| SignService | the sign service, its sweep loop and the reconciliation script as a class proved against the transition functions |
| PresignStatements | the presign table one SQL statement at a time, with no timing assumption |
| Discover | back-filling the presign table from the chain |
| RedisLock, InProcessLock | the two locks |
| CryptoRpc, InlineEngine | the web-worker proxy, the worker behind it, and the engine's methods at their awaits |
| Pricing, DepositCredit | the price feed and deposit verification |
| MoveToml, Codecs | the Move.toml patcher, the ULEB128 prefix, percent-encoding |

Code that computes is written as functions and lemmas. Code that changes state step by step is
written as methods with loops and classes with fields, each proved equal to such a function.

## What is assumed

These are guards of the steps, not conclusions.

- **Step size.** In SignPipeline one service call on one row is one step. A sign job splits at
  the executor call and at the coordinator wait; the executor's outcome and the table writes that
  follow it are one step. A job may die at either split. LedgerTransactions and PresignStatements
  drop this assumption for their tables.
- **One job.** A request has at most one running job (apps/backend/src/worker.ts:6-7).
- **Timing.** The predicate `SignPipeline.Timely`: a presign sweep rescues no presign that a
  prepared or queued request links, and reconciliation runs once no transaction on the cap is
  unsettled. The code does not check either. `SweepKeepsExactly` and `ReconcileKeepsExactly` prove
  that they are exactly what the two need, and SignTiming shows what happens without them.
- **Truthful chain.** A cap read as missing is gone, and the gas station's answers are true
  (`TxExecutor.Consistent` lists the fates each observation allows, so a lost answer allows all).
- **Unique indexes.** (network, opType, opId, kind) in
  apps/backend/src/shared/db/schema/billing-charges.ts, the deposit digest in billing-deposits.ts,
  the presign's object in presigns.ts and (user, network, idempotency key) in sign-requests.ts,
  all declared there.
- **Positive price.** A sign price of zero would make every prepare fail at its charge; the
  invariant over rows is stated for positive prices and is vacuous of rows otherwise.
- **Exact numbers.** Prices are exact reals until they are rounded to microUSD.

## Where the code is weaker than its intent

Each item is a lemma with the exact condition or a concrete case.

- The two sweeps use the same age limit but different clocks: `allocatedAt` for presigns, every
  minute; `updatedAt` of the request, every two minutes (apps/backend/src/worker.ts:116-121). So the
  presign sweep can return a presign its request still links, and a second request can claim it:
  `SignTiming.EarlySweepHappens`.
- A prepare retried on a key whose first attempt died before linking a presign charges the user
  and then fails on the unique index, with no refund then or later: `SignTheorems.OrphanedChargeExactly`,
  `SignTheorems.OrphansAreNeverRefunded`.
- The sweep of prepared requests acts on rows as it first read them. One that has moved on may be
  running, spent, or failed with its presign already claimed by another request; expiring it then
  takes the presign away: `SignTiming.StaleExpiryKeepsExactly`. It may also overwrite a settled row:
  `SignTiming.StaleExpirySettlesExactly`.
- Submit reads a row as prepared and then writes and enqueues by id alone. Landing late, it sends a
  refunded request to the worker, or revives a submitted or completed one, whose job aborts on the
  burned cap, puts it back in the pool and refunds a delivered signature:
  `SignTiming.LateSubmitKeepsExactly`, `SignTiming.RevivedCompletionGoesWrong`. The step-size
  assumption rules this and the item before it out of the runs.
- The promotion of pending presigns does not check the status again when it writes:
  `SignTiming.LatePromotionKeepsExactly`, and a run in `PresignStatements.StalePromotionClaimsTwice`.
- Reconciliation takes a cap that is alive for a transaction that never landed, also while that
  transaction may still land: `SignTiming.ReconcileKeepsExactly`,
  `SignTiming.EarlyReconcileReadiesABurnedCap`.
- A response block without a status makes the executor return an aborted transaction as done; the
  presign then leaves the pool although its cap is alive, for good unless an earlier unknown
  request links it too: `SignTiming.UnreportedAbortReturnsExactly`.
- A failure to take the executor's lock carries no phase, so the worker treats a transaction that
  was never sent as unknown; only reconciliation brings the presign back:
  `TxExecutor.RollbackExactlyWhenUntouched`.
- The per-coin digest keeps eight characters of the coin type, so a deposit of two coins with equal
  tails is refused each time: `Billing.CreditedExactlyWhenTailsDiffer`.
- A deposit credited as several coins is stored only under suffixed digests, which the duplicate
  check on the bare digest misses. If it later verifies to one coin, because the list of accepted
  coins has shrunk, declaring it again credits that coin a second time:
  `Billing.ReplayMovesNothingExactly`, `Billing.ReplayAsOneCoinCreditsAgain`.
- The deposit minimum applies to each transaction, so parts of a sum may be refused that would be
  credited together: `DepositCredit.SplitDepositsLoseExactly`.
- The price feed logs that it keeps the prior price of a rejected coin; the code puts the coin back
  on its static price: `Pricing.PriorPricesAreNotKept`. The model follows the code. A deviation
  bound below 1, which the configuration accepts, switches the feed off for coins with a static
  price: `Pricing.FeedIsUsableExactly`.
- A transaction can pay two users, but its digest is stored once. Declared by the first, it is
  refused to the second for good if it was one coin, and whenever their coins end alike if it was
  several: `Billing.SecondPayeeCreditedExactly`, `Billing.TakenForGood`.
- Two declarations of one deposit that list its coins in opposite orders can wait for each other;
  only the database's deadlock detection ends that: `LedgerTransactions.SomeoneMovesExactly`,
  `LedgerTransactions.CrossedDepositsStick`.
- A web-worker call whose post throws stays registered, and is rejected a second time when the proxy is cleared:
  `CryptoRpc.UnpostedSettlesTwiceExactlyWhenCleared`. A call made after terminate waits for ever
  unless the proxy is cleared again: `CryptoRpc.StrandedSettlesExactlyWhenCleared`.
- The length prefix takes the length modulo 2^32 from its second byte on:
  `Codecs.LengthRoundTripsExactly`. Its one caller passes a fixed name of 33 bytes
  (apps/backend/src/features/presigns/service.ts:660-661), so no failing length reaches it.
- The in-process lock has no timeout, although the options describe one for every lock:
  `InProcessLock.GrantedExactly`, `InProcessLock.WaitsForever`.

## Model

| member | source | states |
|---|---|---|
| `SignTheorems.OneClaimPerPresign` | apps/backend/src/features/sign/service.ts:188-242 | In every reachable world a presign is linked by at most one prepared or queued request; that request is its recorded owner, the row is `allocated`, and its cap is alive with no unsettled transaction that could burn it |
| `SignTheorems.NoJobOnASharedOrBurnedCap` | apps/backend/src/features/sign/service.ts:381-436 | No job is about to hand the executor a burned cap, a cap an unsettled transaction may burn, or a cap of another running job; the presign is owned by the job's request |
| `SignTheorems.SpentRequestsBurnedTheirOwnCap` | apps/backend/src/features/sign/service.ts:460-512 | Two submitted or completed requests burned two different caps, each its own |
| `SignTheorems.NetCost` | apps/backend/src/features/sign/service.ts:158-166 | In every run each request row carries exactly one charge of the price, and one refund of the same amount exactly when it is failed; the whole ledger balances at all times |
| `SignTheorems.OrphanedChargeExactly` | apps/backend/src/features/sign/service.ts:113-183 | A prepare leaves a charge with neither a row nor a refund if and only if it retries a key whose row has no presign, on an active dwallet, with a positive price and a balance of at least the price: the charge commits before the insert hits the unique index |
| `SignTheorems.OrphansAreNeverRefunded` | apps/backend/src/features/sign/service.ts:657-686 | Such a charge stays without a row and without a refund through every later event of every run |
| `SignTheorems.PoolEmptyIsFree` | apps/backend/src/features/sign/service.ts:197-223 | A prepare refused for want of a presign leaves rows, presigns and balances as they were |
| `SignTheorems.RunPersists` | apps/backend/src/features/sign/service.ts:657-676 | Over any stretch of any run a row keeps its key and its presign link, never returns to prepared, and presign rows keep cap and bucket |
| `SignTheorems.SettledForever` | apps/backend/src/features/sign/service.ts:344-365 | Completed and failed rows never change again |
| `SignTheorems.PrepareIsIdempotent` | apps/backend/src/features/sign/service.ts:99-131 | Once a key has its presign, every later prepare with it charges nothing, claims nothing and touches no request; an answer names the same request and cap; the pool is as before but for presigns with a dead cap, which only turn failed |
| `SignTheorems.FreshClaimIsNeverGone` | apps/backend/src/features/sign/service.ts:231-234 | A presign just claimed is never reported as `PRESIGN_CAP_GONE`: only a retried key can see that error |
| `SignTheorems.EnqueuedOnce` | apps/backend/src/features/sign/service.ts:274-312 | However often submit is retried, a request is enqueued at most once in a run, and never while prepared |
| `SignEffects.PrepareLinks` | apps/backend/src/features/sign/service.ts:158-242 | An admitted prepare whose picked row is ready and of the request's network, curve, algorithm and key: exactly one charge, one new prepared row that links it, the presign allocated to the request, nothing else; the answer names the request and that presign's cap |
| `SignEffects.PrepareWithdraws` | apps/backend/src/features/sign/service.ts:197-223 | An admitted prepare whose picked row is not such a row, or that picked none: PRESIGN_POOL_EMPTY, requests, presigns and balances as before, and a charge and refund that cancel out |
| `SignEffects.PrepareHalts` | apps/backend/src/features/sign/service.ts:188 | A key lookup that throws leaves the charge and a row without a presign |
| `SignEffects.PrepareRefuses` | apps/backend/src/features/sign/service.ts:133-183 | A prepare that is not admitted writes no request and no presign, and answers the first reason: dwallet missing, inactive, price, funds, or the key in use |
| `SignEffects.PrepareRetries` | apps/backend/src/features/sign/service.ts:99-131 | A retried key is answered with its own request and cap if the cap is alive and readable; a dead cap quarantines exactly its row |
| `SignEffects.LinksMatchThroughout` | apps/backend/src/features/presigns/service.ts:63-89 | In every run each presign is linked only by requests of its own network, curve and algorithm |
| `SignEffects.FreshLinkMatches` | apps/backend/src/features/presigns/service.ts:63-89 | A link that a prepare makes is to the picked row, which was ready and of the request's network, curve, algorithm and key |
| `SignEffects.SubmitByAnotherIsRefused` | apps/backend/src/features/sign/service.ts:260-272 | A submit by any user but the owner, on any other network, or for a missing row writes nothing and answers SIGN_NOT_FOUND |
| `SignEffects.SubmitDoes` | apps/backend/src/features/sign/service.ts:274-312 | For the owner: the answer for each status; the world changes if and only if the row is prepared with a presign, and then only that row is queued and signed and the job enqueued |
| `SignEffects.BeginDoes` | apps/backend/src/features/sign/service.ts:344-418 | A job is dropped unless its row is queued, fails with its code and one refund for each early reason, or goes to the executor with the row's own presign |
| `SignEffects.RunSubmits` | apps/backend/src/features/sign/service.ts:460-480 | A return with a sign id: the row is submitted, its presign consumed, its cap burned, and the job waits; no money moves |
| `SignEffects.RunFails` | apps/backend/src/features/sign/service.ts:437-475 | Every other answer: the row fails with the code of that answer and is refunded, the job is gone, and its presign is ready again without an owner after preflight or reverted, else used |
| `SignEffects.PollDoes` | apps/backend/src/features/sign/service.ts:482-512 | A signature completes its row and leaves the book alone; a timeout fails and refunds it; either way its presign is used and the job gone |
| `SignEffects.PolledIsSettled` | apps/backend/src/features/sign/service.ts:482-512 | In every run, from its poll on a submitted request is completed, or failed and refunded, for good, its presign used and its cap burned by it |
| `SignEffects.ExpireDoes` | apps/backend/src/features/sign/service.ts:548-558 | A prepared row is failed, refunded once, and its presign is ready without an owner; any other row is left alone |
| `SignEffects.MarkFailedDoes` | apps/backend/src/features/sign/service.ts:657-686 | Failing a row sets its status and code, touches no other row, and pays the refund once |
| `SignEffects.SweepDoes` | apps/backend/src/features/presigns/service.ts:714-742 | Exactly the rescued rows become ready and unowned, exactly the parked ones failed |
| `SignEffects.ReconcileDoes` | apps/backend/scripts/reconcile-unknown-signs.ts:73-146 | The presign is put back if and only if its request failed with an unknown outcome and it is out of stock with a live cap |
| `SignEffects.TrackDoes` | apps/backend/src/features/presigns/service.ts:278-297 | A minted cap enters the pool once, pending and unowned, in the bucket the chain gives it |
| `SignEffects.PromoteDoes` | apps/backend/src/features/presigns/service.ts:337-340 | Promotion makes a pending row ready |
| `SignRuns.NextKeeps` | apps/backend/src/features/sign/service.ts:94-521 | Every event - mint, track, promote, prepare, submit, job start, executor outcome, poll, crash, settlement, expiry, sweep, reconcile, other billing - keeps the whole invariant of pool, rows, chain, jobs and money |
| `SignRuns.InvThroughout` | apps/backend/src/features/sign/service.ts:94-564 | The invariant holds in every world of every run from the empty start |
| `SignInvariant.RunKeeps` | apps/backend/src/features/sign/service.ts:435-475 | All executor outcomes, with every fate the chain may have chosen, keep ownership and live-cap facts |
| `SignInvariant.UntouchedByRollback` | apps/backend/src/features/sign/service.ts:444-447 | A worker rolls a presign back only if its own transaction neither burned the cap nor may still burn it, and nothing else did |
| `SignInvariant.SweepKeepsExactly` | apps/backend/src/features/presigns/service.ts:720-742 | A presign sweep keeps the invariant if and only if no rescued presign is linked by a prepared or queued request |
| `SignInvariant.ReconcileKeeps` | apps/backend/scripts/reconcile-unknown-signs.ts:112-146 | Re-readying after an unknown outcome keeps the invariant once no transaction on the cap is unsettled |
| `SignTiming.ReconcileKeepsExactly` | apps/backend/scripts/reconcile-unknown-signs.ts:112-146 | Reconciling keeps the invariant if and only if no transaction is unsettled on a presign it would put back |
| `SignTiming.EarlyReconcileReadiesABurnedCap` | apps/backend/scripts/reconcile-unknown-signs.ts:126-146 | The failing case: reconciled while its transaction is out, a presign is ready with a cap that the transaction then burns |
| `SignInvariant.ExpireKeeps` | apps/backend/src/features/sign/service.ts:548-558 | Expiring a prepared row, with its unconditional rollback, keeps the invariant |
| `SignInvariant.PollKeeps` | apps/backend/src/features/sign/service.ts:482-512 | Both outcomes of the coordinator wait keep the invariant |
| `SignRuns.PrepareKeeps` | apps/backend/src/features/sign/service.ts:94-242 | A prepare keeps pool, row, index and chain facts on every branch |
| `SignRuns.NextMoney` | apps/backend/src/features/sign/service.ts:657-686 | Every event keeps one charge per row, one refund per failed row and the balanced book |
| `SignTiming.EarlySweepShares` | apps/backend/src/features/presigns/service.ts:720-731 | If a sweep rescues a presign a live request still links, the next prepare that picks it shares it between two live requests |
| `SignTiming.EarlySweepHappens` | apps/backend/src/worker.ts:116-121 | A concrete run from the empty start, allowed but for the timing assumption, in which two prepared requests link one presign |
| `SignTiming.NoPresignIsLost` | apps/backend/scripts/reconcile-unknown-signs.ts:73-146 | If every returned response carries its status, a presign with a live cap is at all times in stock or recoverable by reconciliation |
| `SignTiming.UnreportedAbortReturnsExactly` | apps/backend/src/shared/sui/tx-executor.ts:187-196 | With no status in the response an aborted transaction is reported as done: the presign ends used with its cap alive, and reconciliation can bring it back if and only if some earlier request with an unknown outcome links it too |
| `SignTiming.StaleExpiryKeepsExactly` | apps/backend/src/features/sign/service.ts:537-557 | The sweep does not re-read the rows it selected: expiring a row that has since moved on, to any status, keeps the invariant if and only if no job runs for it and, if it was selected with a presign, that presign's cap is untouched and no other live request has claimed it, or, if selected without one, its own transaction is settled |
| `SignTiming.StaleExpirySettlesExactly` | apps/backend/src/features/sign/service.ts:537-557 | Such an expiry leaves a settled row as it is if and only if the row was not completed and had not failed for another reason |
| `SignTiming.LateSubmitKeepsMoneyExactly` | apps/backend/src/features/sign/service.ts:283-310 | The submit's update names only the id: landing late, it keeps one charge per row and refunds for failed rows only, if and only if the row has not failed meanwhile |
| `SignTiming.LateSubmitKeepsCoreExactly` | apps/backend/src/features/sign/service.ts:283-310 | It keeps pool, rows, chain and jobs right if and only if the row's presign is still allocated to it |
| `SignTiming.LateSubmitCoreByStatus` | apps/backend/src/features/sign/service.ts:283-310 | By status: for a row that has not failed, if and only if it is still prepared or queued, with a presign; never for a submitted or completed one |
| `SignTiming.LateSubmitKeepsExactly` | apps/backend/src/features/sign/service.ts:283-310 | It keeps the whole invariant if and only if the row is still prepared or queued, with a presign |
| `SignTiming.LateSubmitEnqueuesOnceExactly` | apps/backend/src/features/sign/service.ts:304-310 | It leaves every request enqueued at most once if and only if this one was not enqueued before |
| `SignTiming.RevivedCompletionGoesWrong` | apps/backend/src/features/sign/service.ts:435-457 | A completed request revived by a late submit: its job aborts, and ends with its burned cap ready in the pool and the refund of the delivered signature in the ledger |
| `SignTiming.LatePromotionKeepsExactly` | apps/backend/src/features/presigns/service.ts:337-340 | Setting a presign ready without looking again keeps the invariant if and only if its row has no owner, so that no live request links it, and its cap is untouched |
| `SignService.Service.Allocate` | apps/backend/src/features/presigns/service.ts:63-89 | The claim takes exactly a ready row of the asked bucket for the asked request, or nothing |
| `SignService.Service.FetchPresignBytes` | apps/backend/src/features/sign/service.ts:570-612 | A missing cap moves exactly its own row to failed and is reported; otherwise no write |
| `SignService.Service.PrepareSignRequest` | apps/backend/src/features/sign/service.ts:94-242 | The method computes the specified new state and answer of a prepare on every path |
| `SignService.Service.ReservePresign` | apps/backend/src/features/sign/service.ts:188-242 | From the inserted row on: link a presign, or delete the row and refund |
| `SignService.Service.SubmitPreparedSign` | apps/backend/src/features/sign/service.ts:256-313 | The method computes the specified new state and answer of a submit |
| `SignService.Service.FailRequest` | apps/backend/src/features/sign/service.ts:657-694 | Mark a row failed and refund its charge; a missing row is left alone |
| `SignService.Service.BeginSignJob` | apps/backend/src/features/sign/service.ts:344-418 | Everything before the executor call, with each early failure and its code |
| `SignService.Service.AfterExecute` | apps/backend/src/features/sign/service.ts:435-475 | The writes that follow the executor's answer |
| `SignService.Service.AfterPoll` | apps/backend/src/features/sign/service.ts:482-512 | The writes that follow the coordinator wait |
| `SignService.Service.SweepStuckPrepared` | apps/backend/src/features/sign/service.ts:533-564 | The loop equals expiring the selected rows one by one, and counts them all |
| `SignService.Service.ReconcileRow` | apps/backend/scripts/reconcile-unknown-signs.ts:112-146 | One row is classified as specified, and its presign put back exactly when that is called for |
| `SignService.Service.ReconcileUnknownSigns` | apps/backend/scripts/reconcile-unknown-signs.ts:148-190 | Each counter is the number of listed rows with its verdict, each read once those before it are handled; they add up to the rows listed; a dry run changes nothing |
| `SignService.RecoverableCountsPresigns` | apps/backend/scripts/reconcile-unknown-signs.ts:163-190 | An applied run counts as recoverable exactly the presigns it puts back, two rows that link one presign counting once |
| `SignService.SweepKeepsInvariant` | apps/backend/src/features/sign/service.ts:548-558 | A whole sweep, of any length, keeps the invariant |
| `SignService.ReconcileSettles` | apps/backend/scripts/reconcile-unknown-signs.ts:112-146 | After a reconciliation no listed request is recoverable any more |
| `SignService.ReconcileIsIdempotent` | apps/backend/scripts/reconcile-unknown-signs.ts:112-146 | Reconciling the same list again changes nothing |
| `PresignStatements.AnyRun` | apps/backend/src/features/presigns/service.ts:63-120 | Statement by statement and with no timing assumption: ready-writes = claims + ready rows overwritten + (1 if ready now); the owner is the latest claimer; a claimed row keeps the claimer's network, curve, algorithm and key for good |
| `PresignStatements.ClaimsNeverExceedReadyWrites` | apps/backend/src/features/presigns/service.ts:63-120 | Claims so far, plus one if ready, never exceed the writes that set the row ready |
| `PresignStatements.StalePromotionClaimsTwice` | apps/backend/src/features/presigns/service.ts:312-341 | The promotion writes `ready` without re-checking the status: five statements after which two requests have claimed one presign |
| `TxExecutor.AnswersExactly` | apps/backend/src/shared/sui/tx-executor.ts:128-197 | When each answer is given: preflight, reverted, unknown, a plain error, and a return, which carries the block's own digest |
| `TxExecutor.RollbackExactlyWhenUntouched` | apps/backend/src/shared/sui/tx-executor.ts:128-197 | A failure is classified preflight or reverted if and only if the lock was taken and no fate consistent with what was seen touches the inputs |
| `TxExecutor.DoneMeansExecutedExactlyWithStatus` | apps/backend/src/shared/sui/tx-executor.ts:180-196 | A clean return proves execution if and only if the response carries a status |
| `TxExecutor.GasStationExecutor.ExecuteLocked` | apps/backend/src/shared/sui/tx-executor.ts:120-197 | The staged call gives the specified outcome; what is posted carries the wallet or the caller's own sender and exactly the reserved gas |
| `Ledger.ChargeDoes` | apps/backend/src/features/billing/service.ts:200-270 | A charge answers the row it finds; else it succeeds if and only if the balance covers it, takes exactly its amount from its own account and leaves one row that says so; refused, it moves nothing |
| `Ledger.RefundDoes` | apps/backend/src/features/billing/service.ts:286-378 | A refund answers the row it finds; else it credits exactly its amount if and only if that fits the recorded charge, with one row that says so, and otherwise says which of the two is wrong |
| `Ledger.ChargeKeeps` | apps/backend/src/features/billing/service.ts:200-270 | A charge keeps: balance = deposits + signed rows, never negative, unique keys, refunds within charges |
| `Ledger.RefundKeeps` | apps/backend/src/features/billing/service.ts:286-378 | A refund keeps the same, whatever it answers |
| `Ledger.RefundExactly` | apps/backend/src/features/billing/service.ts:305-348 | A refund succeeds if and only if it repeats an earlier one or fits inside a recorded charge |
| `Ledger.RefundUndoesCharge` | apps/backend/src/features/billing/service.ts:396-440 | A refund right after its charge restores every balance |
| `Ledger.OthersUntouched` | apps/backend/src/features/billing/service.ts:221-268 | A charge or refund changes no balance but its own holder's |
| `Ledger.FindAfter` | apps/backend/src/features/billing/service.ts:206-378 | A charge or refund writes at most its own row; every other key reads as before |
| `Ledger.DepositKeeps` | apps/backend/src/features/billing/service.ts:138-177 | A deposit keeps the balanced book: the balance moves by the sum of the rows inserted |
| `Ledger.InsertableExactly` | apps/backend/src/features/billing/service.ts:138-159 | The rows go in together if and only if their digests are new and pairwise distinct |
| `Ledger.InsertableUnique` | apps/backend/src/features/billing/service.ts:138-159 | The same, as uniqueness of digests in the table that would result |
| `Ledger.SerialKeeps` | apps/backend/src/features/billing/service.ts:87-377 | Any call of the service keeps the balanced book |
| `Billing.BillingService.GetOrCreateAccount` | apps/backend/src/features/billing/service.ts:23-57 | Creates a zero account only if there is none |
| `Billing.BillingService.ChargeCredits` | apps/backend/src/features/billing/service.ts:200-270 | The method computes the specified book and answer of a charge |
| `Billing.SumRows` | apps/backend/src/features/billing/service.ts:309-343 | The summing loop over the rows of one operation |
| `Billing.BillingService.RefundCredits` | apps/backend/src/features/billing/service.ts:286-378 | Both sums and the clamp compute the specified book and answer of a refund |
| `Billing.BillingService.CreditRows` | apps/backend/src/features/billing/service.ts:138-177 | The crediting loop inserts all rows and credits their sum, or rolls every row back |
| `Billing.BillingService.RecordDeposit` | apps/backend/src/features/billing/service.ts:87-186 | The method computes the specified book and answer of a declared deposit |
| `Billing.BillingService.ChargeWithRefund` | apps/backend/src/features/billing/service.ts:396-440 | Returns exactly when the charge and the wrapped operation succeed; otherwise every balance is as before, unless the refund itself fails, which leaves the charge standing |
| `Billing.RepeatDoes` | apps/backend/src/features/billing/service.ts:94-115 | A stored digest: its own account is told the balance, any other that the deposit is taken; nothing moves |
| `Billing.RefusalDoes` | apps/backend/src/features/billing/service.ts:117-134 | A new digest that does not verify or falls short: its error, and nothing moves |
| `Billing.CreditDoes` | apps/backend/src/features/billing/service.ts:136-177 | A new digest, verified and large enough: refused if a row is stored already or two would be stored alike, else one row for each coin under its digest and tail, and the sum credited |
| `Billing.RecordKeeps` | apps/backend/src/features/billing/service.ts:87-186 | Declaring a deposit keeps the balanced book on every path |
| `Billing.DeclarationMovesNothingExactly` | apps/backend/src/features/billing/service.ts:94-177 | A declaration on an existing account moves nothing if and only if its bare digest is stored, or verification refuses it or finds too little, or one of its rows is already credited, or its own coins end alike |
| `Billing.ReplayMovesNothingExactly` | apps/backend/src/features/billing/service.ts:94-177 | Declaring a credited deposit again, whatever it verifies to by then, moves nothing if and only if it was credited as one coin, or the new verification is refused or falls short, or a row it now asks for is taken: by an earlier deposit, or, when it is several coins again, by a credited coin with the same tail |
| `Billing.SecondPayeeCreditedExactly` | apps/backend/src/features/billing/service.ts:94-177 | A transaction that pays two users: after the first has declared it, the second is credited if and only if the first was credited as several coins, and the second is one coin, or several that end unlike each other and unlike the first's; after a single-coin first it is DEPOSIT_TAKEN |
| `Billing.TakenForGood` | apps/backend/src/features/billing/service.ts:94-115 | A digest taken by another account stays taken, however the table grows |
| `Billing.SameCoinsReplayCreditsNothing` | apps/backend/src/features/billing/service.ts:94-177 | If it verifies to as many coins again, the first of them included, in any order and at any price, it moves nothing |
| `Billing.ReplayAsOneCoinCreditsAgain` | apps/backend/src/features/billing/service.ts:94-177 | The failing case: a deposit credited as several coins that later verifies to one of them is credited for that coin a second time |
| `Billing.CreditedExactlyWhenTailsDiffer` | apps/backend/src/features/billing/service.ts:485-492 | A verified deposit with unused digests is credited if and only if it moved one coin or the last eight characters of its coin types all differ |
| `LedgerTransactions.Serializable` | apps/backend/src/features/billing/service.ts:138-377 | For every interleaving of statements, the committed tables are those of the committed calls run one at a time in commit order, each with the answer it would have had alone |
| `LedgerTransactions.BooksBalance` | apps/backend/src/features/billing/service.ts:206-377 | In every reachable database the book is balanced, non-negative, and free of double keys |
| `LedgerTransactions.RacerLeavesNoTrace` | apps/backend/src/features/billing/service.ts:249-268 | A racer whose row was committed first aborts at its insert: tables and log stay, it holds no row lock and no uncommitted key or digest, and every other transaction holds what it held |
| `LedgerTransactions.SomeoneMovesExactly` | apps/backend/src/features/billing/service.ts:138-268 | Deadlock exactly: in every reachable database some open transaction can take its next statement if and only if one of them is not a deposit waiting for a digest that a rival open deposit has claimed |
| `LedgerTransactions.RowsNeverDeadlock` | apps/backend/src/features/billing/service.ts:206-377 | While a charge or refund is open, some transaction can move, whatever deposits wait for |
| `LedgerTransactions.CrossedDepositsStick` | apps/backend/src/features/billing/service.ts:138-159 | The failing case: two declarations of one two-coin deposit that insert its rows in opposite orders each claim one row, and neither can move |
| `LedgerTransactions.ChargeFinishes` | apps/backend/src/features/billing/service.ts:206-269 | Left alone, a charge ends within five statements as the call would: committed with its answer, or refused without a trace |
| `LedgerTransactions.RefundFinishes` | apps/backend/src/features/billing/service.ts:292-377 | Left alone, a refund ends so within six |
| `LedgerTransactions.DepositFinishes` | apps/backend/src/features/billing/service.ts:138-177 | Left alone, a deposit ends so within three statements more than it has coins |
| `LedgerTransactions.CommitIsSerial` | apps/backend/src/features/billing/service.ts:206-377 | Each commit writes what its call would write alone at that instant |
| `LedgerTransactions.NextKeeps` | apps/backend/src/features/billing/service.ts:138-377 | Every statement, start and abort keeps the database invariant |
| `RedisLock.AttemptDoes` | apps/backend/src/shared/redis/lock.ts:67-74 | An attempt gets in if and only if its deadline is ahead and no unexpired lease is on its key, with a lease of its own for its ttl; otherwise the store stays as it was |
| `RedisLock.LeaseLasts` | apps/backend/src/shared/redis/lock.ts:67-74 | A lease left alone keeps its key for exactly its ttl |
| `RedisLock.OverlapMeansOverrun` | apps/backend/src/shared/redis/lock.ts:56-82 | With no timing assumption: of two callers inside one key, one has outlived its lease |
| `RedisLock.MutualExclusion` | apps/backend/src/shared/redis/lock.ts:27-82 | If every critical section ends within its ttl, at most one caller is inside a key at any instant |
| `RedisLock.ReleaseSparesOthers` | apps/backend/src/shared/redis/lock.ts:76-95 | A release, however late, leaves every other caller's lease as it was |
| `RedisLock.ReleaseInTimeFrees` | apps/backend/src/shared/redis/lock.ts:84-95 | A delivered release in time frees the key |
| `RedisLock.OverrunOverlaps` | apps/backend/src/shared/redis/lock.ts:67-74 | A section that overruns its ttl can be joined: a concrete run |
| `RedisLock.Acquire` | apps/backend/src/shared/redis/lock.ts:56-74 | The polling loop ends; it returns true at the first free attempt, and false only when the deadline passed with every attempt refused |
| `InProcessLock.InProcessQueue.Acquire` | apps/backend/src/shared/redis/lock.ts:101-111 | Grants a free key at once, else joins the end of the line |
| `InProcessLock.InProcessQueue.Release` | apps/backend/src/shared/redis/lock.ts:112-117 | Hands the key to the first waiter, else frees it |
| `InProcessLock.FirstComeFirstServed` | apps/backend/src/shared/redis/lock.ts:97-119 | For every sequence of acquires and paired releases: grants are the arrivals in arrival order, one owner at most, and waiters only while the key is held |
| `InProcessLock.ReleaseWakesTheLongestWaiter` | apps/backend/src/shared/redis/lock.ts:112-117 | No wake-up is lost: a release with waiters makes the longest one the next owner |
| `InProcessLock.GrantedExactly` | apps/backend/src/shared/redis/lock.ts:97-119 | The k-th to arrive is granted the key if and only if k owners have left: there is no timeout and no other way out of the line |
| `InProcessLock.WaitsForever` | apps/backend/src/shared/redis/lock.ts:97-119 | The failing case: behind an owner that never leaves, the second caller is never granted the key, whatever else happens |
| `CryptoRpc.WebWorkerCryptoEngine.Call` | packages/sdk-ts/src/crypto/web-worker.ts:109-118 | Registers under the next number and posts; if the post throws, the promise rejects and the entry stays |
| `CryptoRpc.WebWorkerCryptoEngine.OnMessage` | packages/sdk-ts/src/crypto/web-worker.ts:120-137 | Settles exactly the call the reply names, if it is open |
| `CryptoRpc.WebWorkerCryptoEngine.RejectPending` | packages/sdk-ts/src/crypto/web-worker.ts:99-107 | Rejects every open call in insertion order and forgets them |
| `CryptoRpc.RefinesInlineEngine` | packages/sdk-ts/src/crypto/worker-impl.ts:19-69 | Over every ordering of posts, dispatches, replies, errors and terminate, a call that gets a reply gets the inline engine's answer to its own request, each request taking effect at one instant and once |
| `CryptoRpc.SettlesAtMostOnce` | packages/sdk-ts/src/crypto/web-worker.ts:109-148 | A posted call settles at most once, exactly when it stops being pending; while pending, its message is with a live worker, its reply is on its way, or its worker is dead |
| `CryptoRpc.UnpostedSettlesTwiceExactlyWhenCleared` | packages/sdk-ts/src/crypto/web-worker.ts:99-148 | A call whose post throws is rejected at once, and a second time if and only if an error or terminate clears the proxy at some later point; it never gets a reply |
| `CryptoRpc.UnpostedCount` | packages/sdk-ts/src/crypto/web-worker.ts:109-118 | At any moment such a call has been settled once while it is registered, twice when it no longer is |
| `CryptoRpc.NumbersAreNeverReused` | packages/sdk-ts/src/crypto/web-worker.ts:109-118 | A number never changes its request, and a closed call never reopens |
| `CryptoRpc.CallAfterTerminateIsStranded` | packages/sdk-ts/src/crypto/web-worker.ts:99-118 | A call after terminate is posted to a dead worker |
| `CryptoRpc.StrandedSettlesExactlyWhenCleared` | packages/sdk-ts/src/crypto/web-worker.ts:99-148 | Such a call never gets a reply, and is settled, by a rejection, if and only if the proxy is cleared again |
| `InlineEngine.EffectIsAtomic` | packages/sdk-ts/src/crypto/inline.ts:46-83 | A method that waits takes effect at one instant: opening a session on a miss does, when its keys arrive, what opening it whole at that moment would do, whatever ran in between |
| `InlineEngine.InterleavingIsSerial` | packages/sdk-ts/src/crypto/worker-impl.ts:19-69 | However dispatches interleave at their awaits, cache and replies are those of the requests served whole, one at a time, in the order in which they took effect; each dispatched request is waiting or has taken effect once, as it was dispatched |
| `InlineEngine.SessionsOpenAndClose` | packages/sdk-ts/src/crypto/inline.ts:46-162 | In every run an id is in the cache if and only if it is open, and each request is answered by the sessions open when it took effect: a use works with the keys of the last open of its id, and fails as unknown from a close to the next open |
| `InlineEngine.OpenExactly` | packages/sdk-ts/src/crypto/inline.ts:46-67 | Open, by position: some successful open of the id has no close of it after |
| `InlineEngine.WorkerStepRefines` | packages/sdk-ts/src/crypto/worker-impl.ts:19-69 | A step of the waiting worker is, for the proxy, the whole request served at once where it takes effect, and nothing where it starts to wait |
| `InlineEngine.WaitingWorkerRefines` | packages/sdk-ts/src/crypto/web-worker.ts:99-148 | Proxy and waiting worker together: in every run a call that gets a reply gets what the engine, serving whole requests one at a time, answers to that call's own request |
| `MoveToml.PatchLine` | apps/backend/scripts/deploy.ts:163-208 | The body of the loop, on its three flags, computes the specified step |
| `MoveToml.PatchLines` | apps/backend/scripts/deploy.ts:158-213 | The loop computes the specified rewriting |
| `MoveToml.RulesAreSound` | apps/backend/scripts/deploy.ts:165-203 | The published-at line written is recognised as one and is no section header, and the address line is no header wherever it can be written |
| `MoveToml.AnyHeaderExactly` | apps/backend/scripts/deploy.ts:183 | A line is a section header if and only if it splits as the pattern does: bracket, a name without a closing bracket, bracket, spaces |
| `MoveToml.PublishedAtExactly` | apps/backend/scripts/deploy.ts:194 | A line is a published-at line if and only if it splits as the pattern does |
| `MoveToml.ZeroAddressExactly` | apps/backend/scripts/deploy.ts:202 | A line maps a name to "0x0" if and only if it splits as the pattern does, with that name as the capture |
| `MoveToml.PatchIsIdempotent` | apps/backend/scripts/deploy.ts:158-214 | Patching twice is patching once, for every file, package and address |
| `MoveToml.InsertsAtMostOne` | apps/backend/scripts/deploy.ts:158-213 | At most one line is inserted; every other line stays in order, unchanged unless it is a published-at line in [package] or the package's own "0x0" address |
| `MoveToml.AddressIsPublished` | apps/backend/scripts/deploy.ts:168-213 | If the file has a [package] section, some line in one of the patched file is published-at with the address between quotes |
| `MoveToml.ZeroAddressIsFilled` | apps/backend/scripts/deploy.ts:201-208 | In [addresses] the package's own zero line becomes its name and its address between quotes; every other line stays |
| `MoveToml.PackageEndsUpPublished` | apps/backend/scripts/deploy.ts:168-213 | A file with a [package] section ends up with the published-at line inside one |
| `Codecs.EncodeVectorU8` | apps/backend/src/features/presigns/service.ts:676-688 | The bytes written are the length prefix and then the payload |
| `Codecs.UlebDecodes` | apps/backend/src/features/presigns/service.ts:676-683 | A ULEB128 decoder (section 7.6 of DWARF version 5) reads back the length modulo 2^32 and exactly the prefix, whatever follows |
| `Codecs.LengthRoundTripsExactly` | apps/backend/src/features/presigns/service.ts:676-688 | The decoder recovers the length if and only if it is below 2^32; the rest is the payload |
| `Codecs.UlebIsShortest` | apps/backend/src/features/presigns/service.ts:676-683 | No byte string that decodes to a length is shorter than its encoding |
| `Codecs.EncodingIsPrefixFree` | apps/backend/src/features/presigns/service.ts:676-688 | No encoding is a proper prefix of another, and equal encodings have equal payloads |
| `Codecs.UrlEncode` | packages/sdk-rust/src/client.rs:577-592 | The byte loop computes the percent-encoding |
| `Codecs.PercentRoundTrip` | packages/sdk-rust/src/client.rs:577-592 | A strict decoder, accepting only unreserved characters and uppercase triplets (sections 2.1 and 2.3 of RFC 3986), accepts every output and returns the input |
| `Codecs.PercentInjective` | packages/sdk-rust/src/client.rs:577-592 | Distinct ids give distinct path segments |
| `Codecs.PercentLength` | packages/sdk-rust/src/client.rs:577-592 | The output is as long as the input if and only if every byte is unreserved, and never more than three times as long |
| `Codecs.PercentIsOneSegment` | packages/sdk-rust/src/client.rs:577-581 | No slash, hash, question mark or space survives in a segment |
| `Discover.ListCaps` | apps/backend/src/features/presigns/service.ts:458-476 | The page loop collects the caps up to the first page with no successor, and says whether it came to one |
| `Discover.FetchAll` | apps/backend/src/features/presigns/service.ts:507-537 | The batched reads give each position exactly the answer of the one fifty-wide batch that covers it; a failed batch misses all of its ids |
| `Discover.AnswerOfBatch` | apps/backend/src/features/presigns/service.ts:507-515 | Position start + j is asked in the batch at start, at place j |
| `Discover.PresignTable.TryInsert` | apps/backend/src/features/presigns/service.ts:573-627 | One attempt inserts, finds a conflict, or fails, and counts itself once |
| `Discover.PresignTable.TrackScanned` | apps/backend/src/features/presigns/service.ts:476-644 | From the scanned ids on, the method computes the specified rows and counters |
| `Discover.PresignTable.Discover` | apps/backend/src/features/presigns/service.ts:448-644 | A listing that breaks off is an error and writes nothing; otherwise the method computes the specified rows and counters of a whole pass |
| `Discover.PassConserves` | apps/backend/src/features/presigns/service.ts:478-644 | scanned = alreadyTracked + inserted + failed whatever fails or races; no existing row is touched; no cap gets two rows |
| `Discover.ScannedExactly` | apps/backend/src/features/presigns/service.ts:458-474 | An id is scanned if and only if a page lists it as a cap, with no last page before |
| `Discover.ResolvesExactly` | apps/backend/src/features/presigns/service.ts:576-602 | An attempt has a row to insert if and only if every read of its cap, the read of its session and that of its key came back |
| `Discover.AttemptsCount` | apps/backend/src/features/presigns/service.ts:573-634 | The failures counted are exactly the attempts without a complete answer, and the table grew by what was inserted plus what others wrote |
| `Discover.ScannedCapIsTrackedOrFailed` | apps/backend/src/features/presigns/service.ts:573-634 | After a pass every scanned cap has a row, unless an attempt at it was counted as failed |
| `Discover.NoFailureTracksAll` | apps/backend/src/features/presigns/service.ts:573-634 | A pass that reports no failure leaves every scanned cap with a row |
| `Discover.SecondPassInsertsNothing` | apps/backend/src/features/presigns/service.ts:482-489 | After such a pass, no later pass over the same caps inserts anything, whatever it is told |
| `Discover.InsertedRowsAreTheChains` | apps/backend/src/features/presigns/service.ts:591-618 | If the node answers truthfully, every row a pass adds carries the chain's own curve, algorithm and network key |
| `Pricing.PriceFeed.BuildRegistry` | apps/backend/src/features/pricing/price-feed.ts:98-144 | The three passes apply the built-in coins and then every override in turn |
| `Pricing.RegistryIsClosedForm` | apps/backend/src/features/pricing/price-feed.ts:98-144 | For overrides in any order and kinds mixed in any way, each field of a coin is its own last override, else the built-in value, else the default |
| `Pricing.OrderDoesNotMatter` | apps/backend/src/features/pricing/price-feed.ts:110-111 | For keys distinct after normalising, the registry does not depend on the order of entries or passes |
| `Pricing.PriceFeed.StaticPrices` | apps/backend/src/features/pricing/price-feed.ts:146-159 | The snapshot prices exactly the coins with a static price |
| `Pricing.PriceFeed.FeedPrices` | apps/backend/src/features/pricing/price-feed.ts:247-277 | The loop leaves each coin its accepted feed price, else its static one, and finds exactly the accepted coins |
| `Pricing.PriceFeed.RefreshNow` | apps/backend/src/features/pricing/price-feed.ts:221-293 | A failed request changes nothing; otherwise prices, last success and source are as specified |
| `Pricing.PricedIsRefresh` | apps/backend/src/features/pricing/price-feed.ts:247-293 | What a refresh stores is one determined price map |
| `Pricing.RefreshedPrice` | apps/backend/src/features/pricing/price-feed.ts:255-279 | The price left is the feed's own if and only if the coin is polled and the answer has a positive price for it within the bound of the static one, if any; else the static one, if any |
| `Pricing.BuiltInCoins` | apps/backend/src/features/pricing/price-feed.ts:98-109 | With nothing configured: SUI at nine decimals and one dollar, IKA, once its type is known, at nine and five cents |
| `Pricing.MicroUsdIsNearest` | apps/backend/src/features/pricing/price-feed.ts:161-163 | The rounded price is within half a unit of a million times the price |
| `Pricing.NarrowBoundRejectsAll` | apps/backend/src/features/pricing/price-feed.ts:261-274 | A deviation bound below 1 rejects every feed price of a coin with a static one |
| `Pricing.FeedIsUsableExactly` | apps/backend/src/features/pricing/price-feed.ts:261-274 | Some feed price of such a coin is accepted if and only if the bound is at least 1 |
| `Pricing.PricesStayInBand` | apps/backend/src/features/pricing/price-feed.ts:146-293 | After any run of refreshes, answered or failed, for any positive bound: a coin with a static price has a price, inside the band around it (the static price itself if the bound is below 1) |
| `Pricing.PriorPricesAreNotKept` | apps/backend/src/features/pricing/price-feed.ts:263-277 | A rejected feed value puts a coin back on its static price, whatever was accepted before |
| `Pricing.ConversionScales` | apps/backend/src/features/pricing/price-feed.ts:363-375 | With no decimals an amount is worth its price each; each further decimal divides by ten |
| `Pricing.WholeCoinIsItsPrice` | apps/backend/src/features/pricing/price-feed.ts:363-375 | One whole coin of nine decimals is worth its price |
| `Pricing.SplittingLosesLessThanParts` | apps/backend/src/features/pricing/price-feed.ts:363-375 | At a fixed price, k parts credited apart never earn more than their merged amount, and lose less than k microUSD |
| `DepositCredit.SumCredits` | apps/backend/src/features/billing/verifier.ts:59-67 | The summing loop: a coin is in the map if and only if something positive in it reached the recipient, with its exact total |
| `DepositCredit.OtherChangesDoNotCount` | apps/backend/src/features/billing/verifier.ts:60-67 | A change to another address, in a coin not on the list, or not positive, leaves the sums as they are, wherever it stands |
| `DepositCredit.PaymentCounts` | apps/backend/src/features/billing/verifier.ts:60-67 | A positive change to the recipient in a coin on the list raises that coin's sum by its amount, and no other |
| `DepositCredit.NothingCredited` | apps/backend/src/features/billing/verifier.ts:59-73 | No changes, no sums |
| `DepositCredit.VerifyDeposit` | apps/backend/src/features/billing/verifier.ts:27-75 | Which error for which transaction, and otherwise exactly the sums |
| `DepositCredit.OrderDoesNotMatter` | apps/backend/src/features/billing/verifier.ts:60-67 | Any rearrangement of the balance changes credits the same |
| `DepositCredit.SplittingDoesNotMatter` | apps/backend/src/features/billing/verifier.ts:60-67 | Splitting an incoming amount in two, anywhere in the list, credits the same |
| `DepositCredit.RecordEachEarns` | apps/backend/src/features/billing/service.ts:124-177 | Amounts of one coin declared in separate transactions with fresh digests raise the balance by the conversions of exactly those that reach the minimum |
| `DepositCredit.SplitDepositsLoseExactly` | apps/backend/src/features/billing/service.ts:124-177 | At one price, k declared transactions never leave a higher balance than one of the same total; if the total reaches the minimum they leave it lower by the rounding, less than k microUSD, plus all that parts below the minimum are worth, so that rounding is the only loss if and only if every part worth anything reaches the minimum |
| `DepositCredit.PartsBelowMinimumEarnNothing` | apps/backend/src/features/billing/service.ts:124-134 | Parts that all stay below the minimum earn nothing |
| `DepositCredit.HalfDollarsEarnNothing` | apps/backend/src/features/billing/service.ts:124-134 | At a minimum of one dollar, one dollar is credited and two half dollars are not |
| `DepositCredit.EqualCreditsEqualSums` | apps/backend/src/features/billing/verifier.ts:59-75 | Lists that credit every coin alike verify to the same map |

## Left out

- HTTP routes, authentication, rate limits, the dashboard, SDK clients other than the named helpers: plumbing.
- Cryptography, address derivation and key management: foreign calls.
- Crashes between the chain's acceptance of a transaction and the presign write, and several processes inside one service call: the ownership theorems do not hold there. PresignStatements states what does hold.
- The refill queue, singleton keys, retries and dead letters of the job queue: a job is enqueued, started, and may die.
- Timestamps of rows: ages enter only through the timing assumption; the touch of `updatedAt` on a presign at the end of `markFailed` changes no modelled column.
- Gas-station HTTP, Sui reads and CoinGecko requests: their possible answers are parameters.
- A price change between a charge and its refund: one sign price per run.
- The boot step that gives the IKA coin its CoinGecko id, the staleness gate and the gauges: the price theorems hold for every registry.
- Coin-type normalisation: an arbitrary function from strings to coin types; BuildRegistry applies it once where the source applies it twice, which agrees because normalising is idempotent.
- JavaScript number rounding, NaN and infinities: a feed answer that is not a finite number counts as absent.
- The worker's argument unwrapping per method, and what its methods compute: the engine is one function of its cache and a request. That session ids of different seeds do not collide is an assumption of InlineEngine.
- Table order of presigns in allocation: the model lets the claiming statement pick any ready row of the bucket, so the theorems hold for the oldest one.
- Discover.PresignTable.Discover: rows other processes insert are parameters of the pass, a null or empty presign id counts as no answer, and a listing whose pages never end, which never returns, is not modelled.
- CryptoRpc.WebWorkerCryptoEngine.RejectPending: stands for both the error handler and terminate, which differ in the error they reject with; the cause is a parameter.
- DepositCredit.SplitDepositsLoseExactly: starts from deposits that verify to one coin; what verification sums is stated by DepositCredit.SumCredits.
- The database's own deadlock detection: `Abort` may end any transaction at any time, and SomeoneMovesExactly says when nothing else can.
- Sweeping of deposits to the treasury, the audit log and event decoding: they would only add easy members.
- Files, directories and the cache walk around the Move.toml patcher: the model is of the lines of one file.
