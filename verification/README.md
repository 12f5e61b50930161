# Verified model of the commercial core

This project models the parts of the platform that handle money, credits, consent, secrets and access, and
proves what they promise over every run. Each service of the original is a class whose fields stand for its
tables; each transaction is one atomic step, and an error is a rollback. Every method is proved to compute
exactly a function from the old tables to the new ones and an answer; the laws are then proved about those
functions, over all inputs and all runs.

- **AI credits** (`Credits`, `CreditLaws`, `CreditAnswers`, `CreditService`): accounts, holds and the append-only ledger.
- **Inference requests** (`Inference`, `InferenceLaws`, `InferenceAnswers`, `InferenceGuards`, `InferenceService`):
  begin, complete, fail, cancel, read and reconcile, racing on one request, over the credit book.
- **Credit adjustments** (`Adjustments`, `AdjustmentLaws`, `AdjustmentAnswers`, `AdjustmentService`): two-person
  corrections of a balance.
- **Commercial ledger** (`Ledger`, `LedgerLaws`, `LedgerAnswers`, `LedgerService`, `Decimal`, `DecimalLaws`):
  double-entry posting, wallets and their versions, and decimal amounts.
- **Membership** (`Membership`, `MembershipLaws`, `MembershipRuns`, `MembershipGuards`, `MembershipWallet`,
  `MembershipBooks`, `MembershipQueue`, `MembershipTerms`, `MembershipRows`, `MembershipConsent`,
  `MembershipService`, `Renewal`, `Idempotency`): orders, evidence, two-person approval, payment from the wallet,
  renewals and trials, over ledger and credits.
- **Disclosure** (`Disclosure`, `ProductIdentity`, `LetterCase`, `DisclosureLaws`, `DisclosureAnswers`,
  `DisclosureService`): publishing legal documents, and consent.
- **Secret commands** (`SecretBroker`, `SecretTurns`): leases and fencing tokens, with workers that crash, stall and
  come back.
- **Canonical JSON** (`Json`, `Canonical`, `CanonicalStability`): the text behind every idempotency hash.
- **JSON scanner** (`JsonScanner`, `JsonScannerLaws`): cutting the first object out of a model's answer.
- **Rate limiter** (`RateLimit`): buckets with a window and a block.
- **Access** (`AccessScope` with `Rbac`, `EffectiveAccess` with `Texts`): the manager walk and its SQL twin, and
  the fold of permission rows.
- **Audit chain** (`AuditAnchor`, `AuditAnchorLaws`): hash chain, anchors and signed exports.
- **Feature flags** (`FeatureFlag`, `FeatureFlagLaws`): normalisation and evaluation.

Identifiers, clocks, hashes, signatures and random numbers are parameters. Hash functions are arbitrary; a lemma
that needs them collision-free says so in its precondition, and only there. Amounts are unbounded integers, in
credits or in units of 10^-18.

## Where the code is not what one might expect

- *Requires review.* The anomaly of a settled hold without a result, for which
  the documentation of cancelling and retrying asks for a review, cannot arise from the modelled steps.
  The review answer is nevertheless reachable: `failClientAiInference` stores whatever code it is given, and a
  caller may give it the review code. `InferenceLaws.ReviewOnlyWhenDeclared` gives the exact condition, and
  `DeclaredReviewIsGiven` the input.
- *Key order.* The canonical printer sorts keys with `localeCompare`. Where that ties two different keys, the
  hash depends on their order: the precomposed "é" and the letter "e" with a combining accent are such a pair.
  `Canonical.TieBreaksOrder` shows the difference, `CanonicalStability.StableIffStrict` gives the exact condition.
- *Product identity.* A support address is checked to be within 254 characters before it is put in lower case, and
  stored after. The capital I with a dot becomes two characters, so an address with it can be accepted and then
  fail the integrity check of every decision, to reject as well as to approve; as there is one pending request at
  a time, the queue then stands still (`DisclosureLaws.LongSubmissionJams`, `JamIsForEver`). `SubmissionJamsIff`
  gives the exact condition, which could be checked at the submission.
- *Rate limiter.* An interval as long as the window can straddle two windows, so up to 2M - 1 calls can be allowed
  where M is the maximum; the bound is tight (`SlidingWindowBoundIsTight`).
- *Organization scopes.* In memory an actor always sees themself; the SQL predicate shows only the organization.
  And the walk trusts a manager id that no user has. `WalkAgreesWithQuery` has exactly these two exceptions.
- *Renewals.* A current membership without an expiry date that is not a lifetime one gets a finite expiry from a
  finite order. `ExpiryNeverMovesBack` shows that no other approval moves an expiry back. A payment from the wallet
  counts from its own time, so it does whenever more is left than it brings (`MembershipTerms.PaymentMovesBackIff`).
- *Lifetime memberships.* The guard of the payment from the wallet compares the lifetime plan's code with the id of
  the plan version in the row, so for ids like `membership_lifetime_v1` it never fires, and a finite order paid from
  the wallet ends a lifetime membership. `LifetimeStaysIff` shows that nothing else does;
  `PaymentsNeverRefusedForLife` and `PaymentDowngradeRefused` say when the guard works.
- *Evidence and the wallet.* An order with recorded evidence is said to stay on the path of that evidence, but until
  it is submitted it can be paid from the wallet all the same (`MembershipWallet.PaymentIgnoresEvidence`). It is
  still paid only once.
- *Orders in review.* To reject takes evidence of exactly the price, just as to approve does, while to submit takes
  any evidence. An order submitted with evidence of another amount, say 27 for a price of 28, is accepted and can
  then never be decided (`MembershipQueue.WrongAmountsStick`). `StuckIffNothingFits` gives the exact condition, and
  `SubmissionSticksIff` shows that it can be told at the submission.
- *One membership each.* An approval looks at the current rows of a customer and a payment at the active and waiting
  ones. Where the only row is of the other sort they open a second one, and with two current rows no order of the
  customer is ever approved again (`MembershipRows.OneEachIff`, `NeverApprovedAgain`). `ApprovalBesideTrialJams` and
  `PaymentBesideLapsedJams` are the runs that lead there.
- *Audit checks.* Deleting the tail of the log together with its anchors passes both checks inside the database;
  only an export taken before reports it (`TruncationIsCaughtOnlyByExport`). And whether a signature is asked for is
  a field of the exported document itself: with a key at hand, a document that calls itself unsigned is judged by
  its anchors alone (`AuditAnchorLaws.UnsignedNeedsNoKey`); `SignatureCountsIff` gives the exact condition.
- *Adjustments.* The range check after the pattern in `normalizeDelta` never fires (`Adjustments.DeltaInRange`).

## Model

| member | source | states |
|---|---|---|
| CreditLaws.Conservation | lib/ai-credit-service.ts:102-155 | After any run of grants, holds, settlements, releases and adjustments: balances are non-negative, equal the sums of the ledger deltas and the sum stored in each row at its position; `reserved` is the sum of the open holds; granted + adjusted = available + reserved + consumed |
| CreditLaws.ExecKeepsInv | packages/domain/src/credits/credit-ledger.ts:68-77 | Each operation, whether it succeeds or rolls back, keeps balances, ledger prefix sums, hold sums and row counts per reservation in agreement |
| CreditLaws.RunKeepsInv | lib/ai-credit-service.ts:35-162 | The same over every run |
| CreditLaws.RowsConserve | packages/domain/src/credits/credit-ledger.ts:40-62 | Rows that pass the domain rule for their kind only move credit between granted, adjusted, available, reserved and consumed |
| CreditLaws.ClientViewBalances | lib/client-credit-view.ts:16-41 | The figures shown to a client account for every credit ever granted or adjusted, the lifetime consumption is the sum of the settled reservations, and the version is the number of entries or one more |
| CreditLaws.EndsOnce | lib/ai-credit-service.ts:281-500 | A reservation leaves the reserved state at most once, to settled (at most its estimate) or released, is then final, and the ledger holds exactly the rows of that one ending |
| CreditLaws.HoldIsCovered | lib/ai-credit-service.ts:164-246 | An open hold never exceeds the reserved balance of its account |
| CreditLaws.OpenHoldCanBeFreed | packages/domain/src/credits/credit-ledger.ts:124-126 | An open hold can always be released under an unused key, and gives back its whole estimate |
| CreditLaws.OpenHoldCanBeCharged | packages/domain/src/credits/credit-ledger.ts:111-121 | Metered usage settles an open hold if and only if it is within the estimate, and refunds exactly the unused part |
| CreditLaws.SuccessCommits | lib/ai-credit-service.ts:102-155 | Each successful call leaves the record that answers its repetition |
| CreditLaws.StaysCommitted | lib/ai-credit-service.ts:324-356 | That record stays, whatever runs next |
| CreditLaws.ReplayIsQuiet | lib/ai-credit-service.ts:178-207 | A repeated call changes nothing and, adjustments apart, is answered as not new |
| CreditAnswers.RepeatIsAnswered | lib/ai-credit-service.ts:178-207 | However much later, a repeated grant, hold, settlement or release is answered with the very balance, reservation or amount of the first answer, marked as not new, and changes nothing |
| CreditAnswers.AnswersTheBalance | lib/ai-credit-service.ts:102-155 | A new ledger row is answered with the balance it leaves, which is stored in the row; it moves its own user's balance by its delta and nobody else's |
| CreditAnswers.GrantAcceptedIff | lib/ai-credit-service.ts:35-162 | A grant under an unused key and for an unused source is accepted exactly if it is positive, and adds just that |
| CreditAnswers.SourceIsGrantedOnce | postgres/migrations/0023_commercial_membership_settlement.sql:285-290 | One source is granted to at most once, under whatever key |
| CreditAnswers.HoldAcceptedIff | lib/ai-credit-service.ts:164-246 | A first hold is accepted exactly if it is positive and available, and moves just that from available to reserved; the answer tells the two refusals apart |
| CreditAnswers.ChargedOnlyIf | lib/ai-credit-service.ts:281-400 | Only metered usage of a known reservation that is not released is charged, within the estimate, and the answer states the amount |
| CreditAnswers.FreedOnlyIf | lib/ai-credit-service.ts:416-500 | Only a known reservation that is not settled is released |
| CreditLaws.RetriesStutter | lib/ai-credit-service.ts:444-475 | A run with retries ends in the same accounts, reservations and ledger as the run with the retries removed |
| CreditLaws.ReusedKeyRejected | lib/ai-credit-service.ts:71-101 | One key, one call, across all kinds: once a call has succeeded, every other call that would write under its ledger key, of the same or another kind and for the same or another reservation, is refused at any later time and changes nothing; the reason is the key itself whenever the call gets as far as that check |
| CreditLaws.OtherContextRejected | lib/ai-credit-service.ts:324-356 | A call repeated on its key or its reservation with other arguments is refused as a collision, even under a new key |
| CreditService.AiCreditService.MutateAiCredits | lib/ai-credit-service.ts:35-162 | Exact new state and answer of a ledger mutation, or an unchanged state and the error |
| CreditService.AiCreditService.Reserve | lib/ai-credit-service.ts:164-246 | Exact new state and answer of a hold, or an unchanged state and the error |
| CreditService.AiCreditService.Settle | lib/ai-credit-service.ts:281-400 | Exact new state and answer of a settlement, or an unchanged state and the error |
| CreditService.AiCreditService.ReleaseHold | lib/ai-credit-service.ts:416-500 | Exact new state and answer of a release, or an unchanged state and the error |
| CreditService.AiCreditService.ApplyAdjustment | lib/credit-adjustment-service.ts:123-147 | Exact effect on balance, version and ledger of an approved adjustment, or an unchanged state and the error |
| InferenceLaws.OneOutcomeChargedOnce | lib/client-ai-inference-service.ts:222-363 | In every interleaving of begin, complete, fail, cancel, reconcile and read: a processing request has an open hold, a succeeded one a settled hold, a failed one a released hold, shared with no other request; its ledger charge is its cost (at most the estimate) or nothing; a terminal outcome is final |
| InferenceLaws.RunKeepsInv | lib/client-ai-inference-service.ts:93-147 | The invariant behind it over every run, with any credit operation of other callers in between: grants, holds, settlements, releases and adjustments, under keys outside this service's prefix and not ending a reservation of a request |
| InferenceLaws.UsageChargedOnce | lib/client-ai-inference-service.ts:298-363 | One metered provider request pays for at most one inference of a model revision |
| InferenceLaws.ReviewOnlyWhenDeclared | lib/client-ai-inference-service.ts:415-489 | An answer that review is required is given exactly when the owner cancels a request whose stored failure code is the review code, and then some earlier fail call of the run was carried out with that code |
| InferenceLaws.ReviewCanBeDeclared | lib/client-ai-inference-service.ts:365-408 | Such a fail call is carried out on every processing request of every reachable state |
| InferenceLaws.DeclaredReviewIsGiven | lib/client-ai-inference-service.ts:415-489 | After it, at any later time, the owner's cancellation is answered with review and changes nothing |
| InferenceLaws.KeysIdentify | lib/client-ai-inference-service.ts:274-327 | The keys this service derives tell request and purpose apart, whatever the identifiers contain |
| InferenceLaws.EndingKeysUnused | lib/client-ai-inference-service.ts:395-399 | While a request is processing no key that could end it is taken in the ledger |
| InferenceLaws.CancelAlwaysReleases | lib/client-ai-inference-service.ts:415-489 | In every reachable state the owner of a processing request can cancel it and gets the whole hold back |
| InferenceLaws.CompletionChargesUpToEstimate | lib/client-ai-inference-service.ts:298-363 | In every reachable state a well-formed completion succeeds if and only if its cost is within the estimate, and charges exactly that cost |
| InferenceLaws.RetriesStutter | lib/client-ai-inference-service.ts:240-270 | A run ends in the same requests, reservations, balances and ledger as the run without its retries |
| InferenceLaws.BeginReplays | lib/client-ai-inference-service.ts:77-91 | Once a key has started a request, every later begin under it changes nothing and tells how the request stands: its result, its failure, or that it is in progress; or it is refused when the payload differs |
| InferenceAnswers.CompletedIsAnswered | lib/client-ai-inference-service.ts:77-91 | Once a completion has been carried out with a result, whatever runs after it, every later begin, read or completion of the request is answered with that very result and changes nothing |
| InferenceAnswers.FailureIsAnswered | lib/client-ai-inference-service.ts:77-91 | Once a request has failed, by whichever call, they are answered with the very failure that was stored |
| InferenceAnswers.FailStores | lib/client-ai-inference-service.ts:365-408 | A recorded fail call stores its own code and message, trimmed and cut, and its status |
| InferenceAnswers.CancelStores | lib/client-ai-inference-service.ts:415-489 | A cancellation stores the cancellation failure |
| InferenceAnswers.ReconcileStores | lib/client-ai-inference-service.ts:93-147 | A stale release stores the stale failure |
| InferenceAnswers.ProcessingAnswers | lib/client-ai-inference-service.ts:77-91 | While a request is processing, its begin and an unexpired read are told that it is in progress |
| InferenceAnswers.FailAgain | lib/client-ai-inference-service.ts:365-395 | A repeated fail call is confirmed for the same failure, refused for another, and told the result of a succeeded request |
| InferenceAnswers.CancelAgain | lib/client-ai-inference-service.ts:415-455 | Cancelling a request that has ended tells its owner which way it ended, and changes nothing |
| InferenceGuards.StartedIff | lib/client-ai-inference-service.ts:222-296 | In every reachable desk, with new identifiers, a first begin is started exactly if it is well formed and the estimate is available; then the estimate is held for ten minutes and the request is processing |
| InferenceGuards.CarriedOutIff | lib/client-ai-inference-service.ts:298-363 | In every reachable desk a completion changes anything if and only if it is well formed and within the estimate |
| InferenceGuards.FailedOnlyIf | lib/client-ai-inference-service.ts:365-408 | A failure is recorded only for a processing request of the caller's and only if code, message and status are well formed |
| InferenceGuards.OthersCannotCancel | lib/client-ai-inference-service.ts:415-440 | Nobody but the owner can cancel a request or learn of it by trying |
| InferenceGuards.UnknownReads | lib/client-ai-inference-service.ts:188-220 | Reading an unknown key says that nothing is stored, and another payload is a collision |
| InferenceGuards.MalformedKeysAreRefused | lib/client-ai-inference-service.ts:188-197 | A read under a malformed key is refused before anything else |
| InferenceGuards.NothingBeforeExpiry | lib/client-ai-inference-service.ts:93-147 | Reconciliation leaves everything alone until the hold has expired |
| InferenceService.ClientAiInferenceService.BeginInference | lib/client-ai-inference-service.ts:222-296 | Exact new state and answer of a begin |
| InferenceService.ClientAiInferenceService.CompleteInference | lib/client-ai-inference-service.ts:298-363 | Exact new state and answer of a completion |
| InferenceService.ClientAiInferenceService.FailInference | lib/client-ai-inference-service.ts:365-408 | Exact new state and answer of a failure |
| InferenceService.ClientAiInferenceService.CancelInference | lib/client-ai-inference-service.ts:415-489 | Exact new state and answer of a cancellation |
| InferenceService.ClientAiInferenceService.ReconcileStale | lib/client-ai-inference-service.ts:93-147 | Exact new state and answer of the reconciliation of one request |
| InferenceService.ClientAiInferenceService.ReconcileExpired | lib/client-ai-inference-service.ts:149-186 | The loop over candidates reaches the fold of single reconciliations, with its three counters |
| InferenceService.StaleIsCleaned | lib/client-ai-inference-service.ts:93-147 | Reconciliation always releases a stale request, never needs review, and makes no other request stale |
| InferenceService.BatchCleansUp | lib/client-ai-inference-service.ts:149-186 | A batch leaves none of its candidates stale, sends none to review, and counts each stale candidate once, in any order and with repetitions |
| SecretBroker.RunKeepsInv | lib/ai-secret-broker-repository.ts:24-182 | Every run of claims, completions, failures, worker turns and queued commands keeps rows, receipts, secrets and the history of events in agreement |
| SecretBroker.TokensStrictlyIncrease | lib/ai-secret-broker-repository.ts:24-76 | Each claim of a command carries a higher fencing token than all earlier ones, and there are at most five |
| SecretBroker.OnlyLatestLease | lib/ai-secret-broker-repository.ts:78-182 | Only the worker and token of the latest claim can complete or fail a command; a command completes at most once |
| SecretBroker.StaleWorkerIsHarmless | lib/ai-secret-broker-worker.ts:16-46 | Once a command was claimed again or has succeeded, nothing an older lease does, its error path included, changes the store |
| SecretBroker.SuccessIsFinal | lib/ai-secret-broker-repository.ts:118-167 | A succeeded command never changes again; its envelope is erased and its single receipt agrees with its row |
| SecretBroker.CustodyIsConsistent | lib/ai-secret-broker-repository.ts:78-167 | Succeeded rows, erased envelopes, receipts and completions are the same thing, and a connection revision holds the secret of the last completed command that targets it |
| SecretBroker.ClaimIsGranted | lib/ai-secret-broker-repository.ts:28-54 | A claim is granted exactly when some unlocked command is claimable, raises that command's token by one, and lasts at least five seconds |
| SecretBroker.FirstCandidateIsFirst | lib/ai-secret-broker-repository.ts:32-41 | The command taken is the first claimable one in order |
| SecretTurns.ClaimTakes | lib/ai-secret-broker-repository.ts:24-76 | A claim takes an unlocked command that waits, has failed or was abandoned, and was tried fewer than five times, and leases it for 30 seconds unless asked otherwise, between 5 seconds and 2 minutes |
| SecretTurns.WaitingIsClaimed | lib/ai-secret-broker-repository.ts:28-41 | A claim is granted whenever such a command is there |
| SecretTurns.LeaseIsExclusive | lib/ai-secret-broker-repository.ts:28-54 | Until it runs out, a lease keeps everybody else away from its command, whatever they try |
| SecretTurns.TimelyTurn | lib/ai-secret-broker-worker.ts:16-46 | A worker who finishes before the lease runs out succeeds with a receipt for the command, and otherwise leaves it waiting with its error |
| SecretTurns.CompletedIff | lib/ai-secret-broker-repository.ts:78-167 | A completion is accepted if and only if the command is held under that lease and the receipt fits it in every column; it stores the receipt's secret and erases the envelope |
| SecretTurns.FailedIff | lib/ai-secret-broker-repository.ts:169-182 | A failure is recorded exactly for the lease in force, with its code if that has the pattern and a general one otherwise |
| SecretTurns.MismatchFails | lib/ai-secret-broker-worker.ts:30-46 | A receipt that does not fit ends the turn with a fence mismatch |
| SecretBroker.SecretCommandStore.ClaimSecretCommand | lib/ai-secret-broker-repository.ts:24-76 | Exact new queue and answer of a claim |
| SecretBroker.SecretCommandStore.CompleteSecretCommand | lib/ai-secret-broker-repository.ts:78-167 | Exact new queue and answer of a completion |
| SecretBroker.SecretCommandStore.FailSecretCommand | lib/ai-secret-broker-repository.ts:169-182 | Exact new queue and answer of a failure |
| SecretBroker.SecretCommandStore.ProcessNextSecretCommand | lib/ai-secret-broker-worker.ts:10-47 | A turn of the worker is one claim followed by one completion or one failure |
| Canonical.CanonicalDecidesMeaning | lib/commercial-idempotency.ts:6-11 | Two payloads whose keys the comparator tells apart have the same canonical text if and only if they differ at most in the order of object keys, at any depth |
| Canonical.CanonicalIsInjective | lib/commercial-idempotency.ts:6-11 | Equal canonical texts mean equal payloads, for every comparator |
| Canonical.CanonicalPrintsNorm | lib/commercial-idempotency.ts:6-10 | The canonical text is the ordinary JSON text of the value with its keys sorted at every depth |
| Canonical.NormKeepsMeaning | lib/commercial-idempotency.ts:9-9 | Sorting keys does not change what a value means |
| Canonical.NormUnique | lib/commercial-idempotency.ts:9-9 | Values that mean the same have the same sorted form |
| Canonical.OrderIndependentIffNoTies | lib/commercial-idempotency.ts:9-9 | The order of an object's own keys is irrelevant exactly when the comparator ties no two of them |
| CanonicalStability.StableIffStrict | lib/commercial-idempotency.ts:6-11 | The text of a payload depends on its meaning alone exactly when the comparator ties no two keys of any object inside it, at any depth |
| CanonicalStability.SameMeaningStrict | lib/commercial-idempotency.ts:9-9 | Payloads of one meaning satisfy that condition together |
| Canonical.TieBreaksOrder | lib/commercial-idempotency.ts:9-9 | Two tied keys in either order give two different texts, whatever the values |
| Json.PrintUnique | lib/commercial-idempotency.ts:7-10 | JSON texts are uniquely readable: equal texts up to where each value stops come from equal values and leave equal rests |
| Json.QuoteUnique | lib/commercial-idempotency.ts:7-9 | String escaping is uniquely readable |
| JsonScanner.ExtractFirstJsonObject | lib/ai-strategy-generation.ts:68-91 | The result is the shortest text from the first opening brace that balances outside string literals; each error is returned exactly on its own condition |
| JsonScanner.ScanObject | lib/ai-strategy-generation.ts:72-90 | The loop finds the first position at which the object closes, or that none exists |
| JsonScanner.OutcomeUnique | lib/ai-strategy-generation.ts:68-91 | That description determines the result |
| JsonScanner.ObjectComesBack | lib/ai-strategy-generation.ts:68-91 | Any object text of the JSON grammar (sections 2 to 7 of RFC 8259), with any white space and escapes, after a prefix without an opening brace and before any suffix, comes back exactly |
| JsonScannerLaws.PrintedObjectComesBack | lib/ai-strategy-generation.ts:68-91 | In particular the printed form of every object comes back |
| JsonScanner.BracesAreCut | lib/ai-strategy-generation.ts:75-89 | So does any braced text in which quotes and braces are matched |
| JsonScanner.TextLoops | lib/ai-strategy-generation.ts:75-89 | The scanner passes over every JSON text without leaving its depth |
| RateLimit.ServiceBound | lib/auth-rate-limit.ts:44-107 | Whatever other buckets calls name beside a bucket, under whatever policies of their own and with whatever clearing of other buckets between, at most twice the maximum less one of the calls on it are granted in any half-open interval of the window's length |
| RateLimit.SlidingWindowBound | lib/auth-rate-limit.ts:52-92 | The same bound for one bucket under any sequence of calls with a non-decreasing clock |
| RateLimit.SlidingWindowBoundIsTight | lib/auth-rate-limit.ts:52-92 | A sequence of calls that reaches the bound, for every policy |
| RateLimit.WindowEpochBound | lib/auth-rate-limit.ts:58-80 | At most the maximum is allowed between one window start and the next |
| RateLimit.BlockHolds | lib/auth-rate-limit.ts:69-77 | Once a block is set, no call before its end is allowed or moves it |
| RateLimit.Recovers | lib/auth-rate-limit.ts:58-88 | With its block over, a bucket allows the next call exactly when as many seconds as the window is long have passed since it began, or attempts are left |
| RateLimit.ExcessBlocks | lib/auth-rate-limit.ts:69-91 | One call too many in a window blocks for exactly the stated number of seconds: it is told to wait that long, and every call before then is refused |
| RateLimit.PolicyAcceptedIff | lib/auth-rate-limit.ts:34-37 | A policy is accepted exactly if its three numbers are at least one; otherwise the first that is not is named |
| RateLimit.HitIsLive | lib/auth-rate-limit.ts:85-91 | A stored block has never elapsed for the call that stored it, so a call is allowed exactly when its wait is 0 |
| RateLimit.WaitIsShortest | lib/auth-rate-limit.ts:88-90 | The wait is the least whole number of seconds after which the block is over |
| RateLimit.ReduceIsStrictest | lib/auth-rate-limit.ts:94-95 | The combined verdict allows exactly when every bucket does and otherwise asks for the longest wait |
| RateLimit.CallAllowedIffAllAllow | lib/auth-rate-limit.ts:44-96 | The same for a whole call against the stored rows |
| RateLimit.GrantedAtMostAllowed | lib/auth-rate-limit.ts:44-107 | In a run of calls, each with its own policy, and clearings, the calls on a bucket are granted no more often than that bucket allows on its own |
| RateLimit.KeysAre | lib/auth-rate-limit.ts:39-42 | The bucket keys of a call are the trimmed non-empty ones, each once |
| RateLimit.IdsDistinct | lib/auth-rate-limit.ts:39-42 | Different keys of a call use different rows |
| RateLimit.AuthRateLimiter.BucketHashes | lib/auth-rate-limit.ts:39-42 | The rows of a call, in order |
| RateLimit.AuthRateLimiter.ConsumeAuthRateLimit | lib/auth-rate-limit.ts:44-96 | Exact new rows and verdict of a call; a bad policy is refused without change |
| RateLimit.AuthRateLimiter.ClearAuthRateLimit | lib/auth-rate-limit.ts:98-107 | Exactly the rows of the call disappear |
| AccessScope.CanAccessInternalUser | lib/access-center-scope.ts:24-48 | The walk with its seen-set and depth cap answers true exactly when the actor is the target or one of its first 32 managers, on every reporting graph; the other scopes as described |
| AccessScope.CycleStays | lib/access-center-scope.ts:38-47 | Once a manager repeats, a longer walk meets nobody new, so stopping there loses nothing |
| AccessScope.AncestorsAre | lib/access-center-scope.ts:77-91 | Round n of the recursive query yields exactly the manager at level n, if the table has them |
| AccessScope.TeamTreeAgrees | lib/access-center-scope.ts:77-91 | The recursive query selects a row exactly when the actor is the row or a known manager within the cap |
| AccessScope.WalkAgreesWithQuery | lib/access-center-scope.ts:50-91 | Walk and query agree for every scope and graph, with exactly two exceptions, both named |
| AccessScope.ActorsScopesAgree | lib/access-center-scope.ts:50-91 | For an actor in the table, SELF, DIRECT_REPORTS, TEAM_TREE and PLATFORM agree outright |
| AccessScope.StrangersByOrganization | lib/access-center-scope.ts:35-37 | Within organizations a stranger is seen exactly if they are in a listed organization or, without a list, in the actor's own; the empty string is none |
| AccessScope.TopIsNobodys | lib/access-center-scope.ts:38-47 | Whoever has no manager, or an empty one, is in nobody's team but their own |
| EffectiveAccess.RbacAccess | lib/effective-access.ts:48-78 | The fold yields the specified access: per key the widest scope among surviving rows, with the sorted union of bounded ids over exactly the rows of that class |
| EffectiveAccess.FoldRow | lib/effective-access.ts:50-71 | One row of the fold |
| EffectiveAccess.StepIsAccess | lib/effective-access.ts:50-71 | One row more keeps the specification |
| EffectiveAccess.BoundedOrganizationIds | lib/effective-access.ts:38-46 | An id is kept exactly when the columns of the row admit it: it is in the assignment's list, or is its single organization where the list has none; it is in the permission's list; where neither side names anything, nothing is kept |
| EffectiveAccess.GrantUnique | lib/effective-access.ts:48-78 | The specification determines a grant |
| EffectiveAccess.AccessUnique | lib/effective-access.ts:48-78 | The specification determines the whole result |
| EffectiveAccess.OrderDoesNotMatter | lib/effective-access.ts:48-78 | Two orders of the same rows give the same access |
| EffectiveAccess.IdsAreBounded | lib/effective-access.ts:38-46 | No organization is granted beyond what the assignment and permission columns of some row that grants it admit |
| EffectiveAccess.AssignmentListBinds | lib/effective-access.ts:38-46 | Where the assignment lists organizations, none outside that list is reached |
| EffectiveAccess.OrganizationGrantsAreBound | lib/effective-access.ts:51-56 | An organization grant names at least one organization; a platform grant none |
| EffectiveAccess.MoreRowsMoreAccess | lib/effective-access.ts:48-78 | A further row never narrows what a user may do |
| Texts.IncreasingUnique | lib/effective-access.ts:33-36 | A sorted list without repetition is determined by its members |
| LedgerLaws.RunKeepsInv | lib/commercial-ledger-service.ts:47-123 | After any run of posts: debits equal credits per transaction and per currency, keys and sources are unique, wallets are non-negative, and each newest balance version equals its wallet, versions strictly increasing |
| LedgerLaws.FromEmpty | postgres/migrations/0022_ledger_approval_invariants.sql:76-101 | The same from an empty ledger over any accounts; every transaction passes the condition of the database's balance trigger |
| LedgerLaws.NextKeepsInv | lib/commercial-ledger-service.ts:47-123 | One post keeps it |
| LedgerLaws.WalletIsSumOfMovements | lib/commercial-ledger-service.ts:98-110 | A wallet's available and frozen amounts are the sums of the movements of the posts carried out |
| LedgerLaws.ReplayFindsFirst | lib/commercial-ledger-service.ts:63-74 | A repeated request, however much later, returns the first transaction and changes nothing |
| LedgerLaws.ReusedKeyRefused | lib/commercial-ledger-service.ts:63-74 | A key reused for anything else is refused, and the books stay |
| LedgerAnswers.PayloadIff | lib/commercial-ledger-service.ts:63-74 | Two readable requests have the same payload exactly if they post the same amounts to the same accounts however spelled and ordered, move the same wallet alike, reverse the same transaction and have the same attachments |
| LedgerAnswers.PostedIff | lib/commercial-ledger-service.ts:47-123 | Under an unused key a post goes through exactly if it is balanced, its accounts are open and of its currency, it is new in every unique column, and its wallet covers it |
| LedgerAnswers.PostWrites | lib/commercial-ledger-service.ts:82-97 | It writes the transaction as asked for and one row for each posting, in order, with its account, side and amount |
| LedgerAnswers.UniqueColumns | postgres/migrations/0022_ledger_approval_invariants.sql:31-35 | No two transactions share an id, a key, a source of their kind and currency, or the transaction they reverse |
| LedgerAnswers.RunCounts | lib/commercial-ledger-service.ts:98-110 | Over every run each reversal names an earlier transaction, and each wallet's version counts its movements |
| LedgerLaws.SpellingDoesNotMatter | lib/commercial-ledger-service.ts:63-64 | Amounts spelled differently make the same payload |
| LedgerLaws.EnsureKeepsInv | lib/commercial-ledger-service.ts:17-46 | Opening a platform account or a customer's account keeps the invariant and finds the account the second time |
| LedgerService.CommercialLedger.AssertBalancedPostings | packages/ledger/src/ledger.ts:38-51 | The loop reports the first bad amount, else an imbalance, else nothing |
| LedgerService.CommercialLedger.EnsurePlatformAccount | lib/commercial-ledger-service.ts:17-31 | Exact new accounts |
| LedgerService.CommercialLedger.EnsureUserAvailableAccount | lib/commercial-ledger-service.ts:33-46 | Exact new accounts |
| LedgerService.CommercialLedger.WriteRows | lib/commercial-ledger-service.ts:92-97 | The loop appends exactly one row for each posting, in order |
| LedgerService.CommercialLedger.UpdateWallet | lib/commercial-ledger-service.ts:98-110 | Exact new wallet and balance version, or an unchanged state and the error |
| LedgerService.CommercialLedger.PostTransaction | lib/commercial-ledger-service.ts:47-123 | Exact new books and answer of a post, or an unchanged state and the error |
| Decimal.UnitsRoundTrip | packages/ledger/src/ledger.ts:11-22 | Reading a written amount gives the same number of units |
| Decimal.NormalFormDecidesAmount | packages/ledger/src/ledger.ts:24-26 | Two amounts have the same normal form if and only if they are the same number; normalising is idempotent |
| Decimal.SignedRoundTrip | lib/commercial-ledger-service.ts:10-15 | Reading a written signed amount gives the same number |
| Decimal.SignedTextDecidesAmount | lib/commercial-ledger-service.ts:10-15 | Two signed amounts are written alike if and only if they are equal |
| DecimalLaws.PlainIff | packages/ledger/src/ledger.ts:11-16 | A text is read as an amount if and only if it is digits, perhaps with a point and one to 18 digits |
| DecimalLaws.PointCounts | packages/ledger/src/ledger.ts:11-16 | A number with a point is the number its digits make without it, divided by ten for each place |
| DecimalLaws.WholeCounts | packages/ledger/src/ledger.ts:11-16 | A number without a point is so many whole units |
| DecimalLaws.SignedIff | lib/commercial-ledger-service.ts:10-15 | A signed amount is an amount with or without a minus sign, which turns it round; nothing else is read |
| DisclosureLaws.RunKeepsInv | lib/commercial-disclosure-service.ts:117-266 | Over every run: at most one pending request and one active bundle, its publisher not its submitter, document versions and ids unique, stored requests intact |
| DisclosureLaws.OneActivePerType | lib/commercial-disclosure-service.ts:226-249 | Once a bundle is active, each required type has exactly one active document, of that bundle and of the highest version of its type |
| DisclosureLaws.BundleIsInForce | lib/commercial-membership-service.ts:89-113 | From its publication on, the documents in force are exactly the seven of the bundle, and the configuration is complete |
| DisclosureLaws.RejectionChangesNothing | lib/commercial-disclosure-service.ts:225-265 | A rejection changes nothing but its request |
| DisclosureLaws.PublishingResetsConsent | lib/commercial-membership-service.ts:135-162 | Publishing makes every user's consent incomplete |
| DisclosureLaws.ConsentNeedsAcceptance | lib/commercial-membership-service.ts:135-162 | No run without an acceptance of their own completes a user's consent again |
| DisclosureLaws.CompleteIffNothingOwed | lib/commercial-membership-service.ts:135-162 | With a bundle in force, consent is complete exactly when every active document is accepted |
| DisclosureLaws.AcceptingCompletesConsent | lib/commercial-membership-service.ts:243-301 | Accepting the documents in force completes the user's consent and nobody else's |
| DisclosureAnswers.SubmittedIff | lib/commercial-disclosure-service.ts:117-182 | Under an unused key a submission is accepted exactly if it is acceptable and nothing else is pending; it waits with just what was submitted, trimmed |
| DisclosureAnswers.SubmitAgain | lib/commercial-disclosure-service.ts:138-150 | However much later, a submission under a used key is answered with its request if it has the same snapshot, and refused otherwise |
| DisclosureAnswers.DecidedIff | lib/commercial-disclosure-service.ts:184-266 | A pending request is decided exactly by somebody other than its submitter with a note of allowed length while its address fits; that changes its review alone, and an approval publishes besides |
| DisclosureAnswers.DecideAgain | lib/commercial-disclosure-service.ts:207-215 | A decided request is answered to who decided it so under that key and to nobody else |
| DisclosureAnswers.ApprovalPublishes | lib/commercial-disclosure-service.ts:225-249 | An approval retires what was active and publishes for each type exactly what the request holds, as the next version, in a bundle that names request, submitter and reviewer |
| DisclosureAnswers.SubmittedIsInForce | lib/commercial-disclosure-service.ts:117-266 | From submission to force: however much later it is approved, the documents in force are the submitted texts, trimmed, with their digests and locale |
| DisclosureAnswers.UsedKeyIsRefused | postgres/migrations/0030_commercial_disclosure_trial.sql:42-44 | A key that decided one request cannot decide another |
| DisclosureAnswers.RunKeepsKeys | postgres/migrations/0030_commercial_disclosure_trial.sql:42-44 | Over every run, one key decides one request, and a pending request has none |
| DisclosureAnswers.CompleteIff | lib/commercial-membership-service.ts:135-162 | The configuration is complete exactly if seven documents are in force, one of each type, and each has content of allowed length, with its stored digest, in a known language |
| DisclosureLaws.NormalAgain | lib/commercial-disclosure.ts:44-83 | Normalising a stored request gives it back exactly when its address in lower case is still within 254 characters, and fails otherwise |
| DisclosureLaws.SnapshotNeverMismatches | lib/commercial-disclosure-service.ts:216-224 | The stored hash never mismatches; a decision that gets as far as the integrity check, to approve or to reject, fails there exactly when the stored address is longer than 254 characters |
| DisclosureLaws.SubmissionJamsIff | lib/commercial-disclosure.ts:44-74 | Whether a request will fail at every decision can be told at its submission: exactly when its trimmed address, which is within the bound, is longer than 254 characters in lower case, that is, with one more for each dotted capital I |
| DisclosureLaws.JamIsForEver | lib/commercial-disclosure-service.ts:150-224 | Such a request stops the queue: over every run no request is accepted or decided any more |
| DisclosureLaws.LongSubmissionJams | lib/commercial-disclosure.ts:53-54 | A complete submission that is accepted and does so |
| ProductIdentity.NormalizeAgain | lib/commercial-disclosure.ts:36-56 | A normal product identity normalises to itself, unless its address has outgrown the bound: then not at all |
| ProductIdentity.NormalizedIff | lib/commercial-disclosure.ts:29-56 | An identity is accepted exactly if its four texts, freed of the white space around them, have the bounds and patterns; name and region are kept as written, address and domain in lower case |
| ProductIdentity.JoinedIsDotted | lib/commercial-disclosure.ts:36-42 | Labels followed by dots and a top-level name make a dotted name |
| ProductIdentity.DottedIsJoined | lib/commercial-disclosure.ts:36-42 | Every dotted name is made of labels and a top-level name |
| ProductIdentity.JoinedIsEmail | lib/commercial-disclosure.ts:54-55 | Three texts without white space or at sign, none of them empty, make an address |
| ProductIdentity.EmailIsJoined | lib/commercial-disclosure.ts:54-55 | Every accepted address is made so |
| ProductIdentity.NormalizedIsNormal | lib/commercial-disclosure.ts:50-56 | A normalised identity meets every bound and pattern, the length of the address apart, which grows by the number of its dotted capital I's |
| ProductIdentity.DomainKeepsLength | lib/commercial-disclosure.ts:36-42 | A domain that is accepted has not become longer in lower case |
| LetterCase.LowerTwice | lib/commercial-disclosure.ts:37-53 | Lower-casing twice is lower-casing once, and lengthens a text by the number of its dotted capital I's |
| DisclosureService.CommercialDisclosureService.SubmitCommercialDisclosure | lib/commercial-disclosure-service.ts:117-182 | Exact new state and answer of a submission |
| DisclosureService.CommercialDisclosureService.InsertDocuments | lib/commercial-disclosure-service.ts:236-248 | The loop inserts one document for each draft, each with the next version of its type |
| DisclosureService.CommercialDisclosureService.DecideCommercialDisclosure | lib/commercial-disclosure-service.ts:184-266 | Exact new state and answer of a decision |
| DisclosureService.CommercialDisclosureService.InsertAcceptances | lib/commercial-membership-service.ts:284-290 | The loop records one acceptance for each document in force that has none |
| Idempotency.CompletedAnswers | lib/commercial-idempotency.ts:15-35 | After a completed request, its descriptor gets the stored response and any other descriptor on the key is a collision; every repeated order operation rests on it |
| Idempotency.CompletingKeeps | lib/commercial-idempotency.ts:32-35 | Completing one key leaves every other record alone |
| Renewal.ExpiryClosedForm | lib/commercial-membership-service.ts:860-887 | After any finite approvals at any times, the expiry is the latest of the old expiry plus all days bought, and for each approval its time plus the days bought from it on |
| Renewal.NoDayIsLost | lib/commercial-membership-service.ts:860-887 | The expiry is no earlier than the first approval plus all days bought |
| Renewal.ExpiryNeverMovesBack | lib/commercial-membership-service.ts:860-887 | An approval never moves the expiry back, except if and only if a finite order meets a membership without expiry that is not a lifetime one |
| Renewal.LifetimeIsForever | lib/commercial-membership-service.ts:850-871 | No order changes a lifetime membership |
| Renewal.LifetimeWins | lib/commercial-membership-service.ts:850-887 | A lifetime order makes a membership a lifetime one, whatever finite orders follow |
| MembershipRuns.ActivatedIsSettledOnce | lib/membership-wallet-payment.ts:74-207 | After every run, in whatever interleaving of the two routes, an activated order has exactly one ledger transaction of its price, one credit grant of its credits to its customer and one entitlement event. Either it has one accepted piece of evidence, of its price, and was decided by somebody who neither submitted it nor recorded that evidence; or it was paid from the wallet, never submitted or decided, and none of its evidence was judged |
| MembershipRuns.OthersArePaidNothing | lib/commercial-membership-service.ts:679-988 | An order that is not activated has cost and granted nothing, and no evidence of it is accepted |
| MembershipRuns.ActivatedCostsItsPlan | lib/commercial-membership-service.ts:370-400 | After every run an activated order has cost exactly the price of its plan version, once and in its currency, and has granted its customer exactly its credits |
| MembershipRuns.CreatedForAsker | lib/commercial-membership-service.ts:303-425 | An order accepted under an unused key is for the customer who asked, of the plan version asked for with its price, currency, duration and credits, which is on sale; the customer's consent is complete, and nothing else has happened |
| MembershipLaws.RunKeepsInv | lib/commercial-membership-service.ts:303-988 | The invariant behind both, over every run with arbitrary retries and keys, with payments from the wallet, and with other services posting, granting and publishing in between under sources and keys of their own |
| MembershipLaws.ApproveSettles | lib/commercial-membership-service.ts:822-987 | One approval settles its own order and touches no fact of any other |
| MembershipLaws.PaymentKeeps | lib/membership-wallet-payment.ts:74-207 | One payment from the wallet pays its own order once and touches no fact of any other |
| MembershipLaws.PurchaseCharges | lib/commercial-membership-service.ts:897-938 | The transaction of an approval charges exactly the price, on this order alone |
| MembershipLaws.PaymentCharges | lib/membership-wallet-payment.ts:119-152 | So does that of a payment from the wallet, under the same key |
| MembershipLaws.GrantWrites | lib/commercial-membership-service.ts:939-949 | The grant adds exactly one entry, for this order alone |
| MembershipWallet.WalletPaysForItsOrders | lib/membership-wallet-payment.ts:119-152 | After every run a wallet holds what other services have moved into it less the prices of the orders paid from it, each taken once, and never less than nothing; approvals and retries take nothing |
| MembershipWallet.RunKeepsBrought | lib/membership-wallet-payment.ts:119-152 | The same from any sound shop: wallet plus orders paid from it change only by the posts of other services |
| MembershipBooks.AccountsFollowOrders | lib/membership-wallet-payment.ts:119-135 | After every run each ledger account holds what other services have moved on it and, for each activated order, its price once: out of the customer's own account if it was paid from the wallet and out of the clearing account otherwise, and into the fee account |
| MembershipBooks.ApprovalNets | lib/commercial-membership-service.ts:897-938 | An approval debits the clearing account and credits the fee account with the price, and moves no other account |
| MembershipBooks.PaymentNets | lib/membership-wallet-payment.ts:119-135 | A payment debits the customer's own account instead |
| MembershipWallet.PaymentIsCovered | lib/membership-wallet-payment.ts:137-138 | A payment is carried out only if the wallet covers the price, and refused for want of funds only if it does not |
| MembershipWallet.PaymentIgnoresEvidence | lib/membership-wallet-payment.ts:87-95 | Whether a payment goes through, and what it does, does not depend on recorded evidence |
| MembershipQueue.StuckIffNothingFits | lib/commercial-membership-service.ts:736-766 | An order in review never changes again, over every run, if and only if none of its recorded evidence has its price and currency |
| MembershipQueue.SubmissionSticksIff | lib/commercial-membership-service.ts:640-657 | This can be told at the submission, by the evidence recorded then |
| MembershipQueue.WrongAmountsStick | lib/commercial-membership-service.ts:640-657 | An order submitted under an unused key with evidence of other amounts only is accepted and then stays in review for ever |
| MembershipRuns.StepMoves | lib/commercial-membership-service.ts:606-988 | Each step moves an order only from pending evidence to pending review, or by a payment to activated, and from pending review to activated or rejected, and keeps its terms |
| MembershipGuards.OrderedIff | lib/commercial-membership-service.ts:303-425 | Under an unused key an order is accepted exactly if its plan version is on sale and exactly the documents in force are named |
| MembershipGuards.EvidenceKeptIff | lib/commercial-membership-service.ts:466-604 | Under an unused key evidence is kept exactly if it is presentable, its order waits for it, and its reference is new or was recorded with the very same contents; a new reference is kept as shown |
| MembershipGuards.SubmittedIff | lib/commercial-membership-service.ts:606-677 | Under an unused key an order is submitted exactly if it waits for evidence and has some; who submitted it is noted |
| MembershipGuards.RejectedIff | lib/commercial-membership-service.ts:730-822 | A rejection goes through exactly for somebody other than the submitter and the recorder, on recorded evidence of the price, and settles order, evidence and decision |
| MembershipGuards.ApprovalGoesThroughIff | lib/commercial-membership-service.ts:822-987 | In a sound shop with its platform accounts in order and new identifiers, an approval goes through exactly if the customer's membership may be renewed; posting, grant and event cannot stop it |
| MembershipGuards.PaymentGoesThroughIff | lib/membership-wallet-payment.ts:74-207 | Likewise the owner's payment of a waiting order goes through exactly if the rows allow it and the wallet covers the price |
| MembershipGuards.OnlyOwnWaitingOrders | lib/membership-wallet-payment.ts:81-94 | Others' orders and orders that no longer wait cannot be paid |
| MembershipGuards.ApprovalWrites | lib/commercial-membership-service.ts:822-987 | An approval writes the decision, the accepted evidence, the order, and a membership row and an event that agree on who is entitled, to what, from when and until when |
| MembershipGuards.PaymentWrites | lib/membership-wallet-payment.ts:112-200 | So does a payment, for its own duration from now, without touching evidence, decisions or records |
| MembershipGuards.RunKeepsCredits | lib/commercial-membership-service.ts:939-949 | The credit book beside the orders stays sound over every run |
| MembershipRuns.RunMoves | lib/commercial-membership-service.ts:303-988 | So does every run |
| MembershipRuns.CreateAgain | lib/commercial-membership-service.ts:303-425 | A repeated order request returns the first order, however much later; another request on the key is refused |
| MembershipRuns.EvidenceAgain | lib/commercial-membership-service.ts:466-604 | Valid evidence under a used key is answered with the row it left exactly if it is the same evidence; otherwise it is refused |
| MembershipRuns.SubmitAgain | lib/commercial-membership-service.ts:606-677 | A repeated submission is answered as before; another one on the key is refused |
| MembershipRuns.DecideAgain | lib/commercial-membership-service.ts:692-729 | A decision under a used key, however much later, returns the first outcome exactly if order, decider, verdict and payload hash are the same, and pays, grants and extends nothing; otherwise it is refused |
| MembershipRuns.ApprovalRenews | lib/commercial-membership-service.ts:822-887 | An approval renews the customer's one current membership by the rule of `Renewal`, or opens a first one, and touches no other row |
| MembershipTerms.TermIsItsChanges | lib/commercial-membership-service.ts:822-887 | Over every run, a membership's term is what the approvals, payments and trial starts carried out on it make of its first one, in order |
| MembershipTerms.TermIsRenewAll | lib/commercial-membership-service.ts:822-887 | With approvals alone, that is the renewal of its first term by all of them |
| MembershipTerms.BoughtDaysAreKept | lib/commercial-membership-service.ts:860-887 | So over a whole run of approvals its expiry is no earlier than the first one plus all days bought |
| MembershipTerms.LifetimeStaysIff | lib/membership-wallet-payment.ts:100-110 | A lifetime membership stays one throughout a run if and only if no finite order is paid on it from the wallet, provided the trial is no plan version |
| MembershipTerms.PaymentDowngradeRefused | lib/membership-wallet-payment.ts:108-110 | A payment is refused as a downgrade exactly when the one active or waiting row names the lifetime code as its plan version and the order is finite |
| MembershipTerms.PaymentsNeverRefusedForLife | lib/membership-wallet-payment.ts:100-110 | Where no plan version has that code as its id, never |
| MembershipTerms.PaymentMovesBackIff | lib/membership-wallet-payment.ts:113-116 | A payment moves an expiry back if and only if the order is finite and more is left than it brings |
| MembershipRows.OneEachIff | lib/commercial-membership-service.ts:827-849 | After a run no customer has two live rows, if and only if none had before, no approval met a customer whose live rows were all waiting, and no payment one whose live rows had all lapsed |
| MembershipRows.NeverApprovedAgain | lib/commercial-membership-service.ts:844-849 | With two current rows, every approval for the customer is refused with an integrity conflict, at any later time |
| MembershipRows.ApprovalBesideTrialJams | lib/commercial-membership-service.ts:180-241 | An approval beside a waiting trial, followed by the acceptance that starts the trial, leaves two current rows |
| MembershipRows.PaymentBesideLapsedJams | lib/membership-wallet-payment.ts:100-107 | So does a payment beside a row in grace or read-only |
| MembershipRuns.DowngradeRefused | lib/commercial-membership-service.ts:850-859 | An approval is refused as a downgrade exactly when the current membership is for life and the order is not |
| MembershipRuns.RunMatchesPlans | lib/commercial-membership-service.ts:303-425 | Over every run orders have the price, currency, duration and credits of their plan version |
| MembershipConsent.ConsentStartsTrial | lib/commercial-membership-service.ts:243-301 | After every run, an acceptance that succeeds completes the consent, starts a waiting trial and leaves none waiting |
| MembershipConsent.NotAnsweredWhileOwed | lib/commercial-membership-service.ts:268-301 | While something is owed, an acceptance of the current documents is not answered from a record |
| MembershipConsent.AcceptedIff | lib/commercial-membership-service.ts:243-301 | Under an unused key an acceptance goes through exactly if the configuration is complete, exactly the documents in force are named, and at most one trial waits |
| MembershipRuns.TrialGone | lib/commercial-membership-service.ts:180-241 | Activation starts the waiting trial for three days from now and touches no other membership |
| MembershipService.CommercialMembershipService.CreateMembershipOrder | lib/commercial-membership-service.ts:303-425 | Exact new state and answer |
| MembershipService.CommercialMembershipService.RecordMembershipPaymentEvidence | lib/commercial-membership-service.ts:466-604 | Exact new state and answer, with the checks of the evidence |
| MembershipService.CommercialMembershipService.SubmitMembershipOrder | lib/commercial-membership-service.ts:606-677 | Exact new state and answer |
| MembershipService.CommercialMembershipService.DecideMembershipOrder | lib/commercial-membership-service.ts:679-988 | Exact new state and answer, or an unchanged state and the error |
| MembershipService.CommercialMembershipService.ApproveOrder | lib/commercial-membership-service.ts:822-987 | The approving half; any failure rolls ledger, credits and rows back |
| MembershipService.CommercialMembershipService.PayMembershipOrderFromWallet | lib/membership-wallet-payment.ts:52-207 | Exact new state and answer of a payment, or an unchanged state and the error |
| MembershipService.CommercialMembershipService.EntitleCustomer | lib/commercial-membership-service.ts:822-887 | Exact new memberships |
| MembershipService.CommercialMembershipService.ActivatePendingInvitationTrial | lib/commercial-membership-service.ts:180-241 | Exact new memberships, or a refusal |
| MembershipService.CommercialMembershipService.AcceptCurrentLegalDocuments | lib/commercial-membership-service.ts:243-301 | Exact new state and answer |
| AuditAnchorLaws.HonestExportStaysClean | lib/audit-anchor-export.ts:56-91 | An export of any honest run verifies without violations after any honest continuation, under the same key |
| AuditAnchorLaws.VerifyIsCleanIff | lib/audit-anchor-export.ts:104-160 | For any database, tampered with or not, verification is empty if and only if the document is genuine, each exported anchor is still stored with the same hash, its log row is there with that hash, and the row count has not fallen below the recorded one |
| AuditAnchorLaws.SignatureCountsIff | lib/audit-anchor-export.ts:111-124 | The signature has a say in the verdict if and only if the document is in the known format, matches its digest, calls itself signed, and a key is given |
| AuditAnchorLaws.UnsignedNeedsNoKey | lib/audit-anchor-export.ts:111-124 | A list of anchors exported afresh without a signature verifies under every key, exactly when its anchors are intact |
| AuditAnchorLaws.SameHashSamePast | postgres/migrations/0044_audit_tamper_evidence.sql:67-89 | Two valid chains that agree on one hash agree on everything before it |
| AuditAnchorLaws.HistoryIsFixed | lib/audit-anchor-export.ts:104-160 | If the chain is valid and an honest export verifies, every row up to every exported anchor is unchanged, in content and order |
| AuditAnchorLaws.TruncationIsCaughtOnlyByExport | postgres/migrations/0049_audit_chain_anchors.sql:40-75 | Cutting the tail together with its anchors passes both of the database's own checks, yet the export reports it |
| AuditAnchorLaws.RunKeepsHonest | lib/audit-chain-anchor.ts:39-64 | Appends and anchorings keep chain and anchors sound |
| AuditAnchorLaws.TailIsAnchoredOnce | lib/audit-chain-anchor.ts:39-64 | The tail is anchored once: an anchor that is there stays the only one, and otherwise one is added with its number and hash, the time, and the first 160 characters of the name |
| AuditAnchor.AuditStore.AppendRow | postgres/migrations/0044_audit_tamper_evidence.sql:67-89 | The appended row is chained to the tail |
| AuditAnchor.AuditStore.RecordAuditChainAnchor | lib/audit-chain-anchor.ts:39-64 | Anchors the tail once; answers nothing exactly for an empty log |
| AuditAnchor.AuditStore.CheckAnchor | lib/audit-anchor-export.ts:130-158 | The violations of one exported anchor, in order |
| AuditAnchor.AuditStore.CheckAnchors | lib/audit-anchor-export.ts:130-158 | The loop collects the violations of all exported anchors, in order |
| AuditAnchor.AuditStore.VerifyAuditAnchorExport | lib/audit-anchor-export.ts:104-160 | The loop collects the violations of the whole document, in order |
| AuditAnchor.AuditStore.VerifyAuditLogChain | postgres/migrations/0044_audit_tamper_evidence.sql:143-188 | The walk reports nothing if and only if the chain is valid |
| FeatureFlag.NormalizeTwice | lib/configuration-family-registry.ts:117-158 | Normalising is idempotent |
| FeatureFlag.NormalFormDecidesAlike | lib/configuration-family-registry.ts:237-269 | A valid payload and its normal form decide alike in every context |
| FeatureFlag.NormalizedListIsNormal | lib/configuration-family-registry.ts:95-107 | A normalised list is sorted, without repetition, within its bound, and has exactly the trimmed members |
| FeatureFlag.NormalTargetIsNormal | lib/configuration-family-registry.ts:117-152 | A normalised target has normal lists, an ordered window and a selector |
| FeatureFlag.ListsByMembers | lib/configuration-family-registry.ts:95-107 | Order, repetition and surrounding white space in a list do not matter |
| FeatureFlag.RolloutGrows | lib/configuration-family-registry.ts:208-235 | Raising the percentage only adds users |
| FeatureFlag.RolloutEnds | lib/configuration-family-registry.ts:208-235 | At 0 nobody matches; at 100 exactly the identified users the other selectors admit |
| FeatureFlag.UsersJoinOnce | lib/configuration-family-registry.ts:208-210 | Each user joins at one percentage, the same for every target, and stays in |
| FeatureFlagLaws.TargetedAnswer | lib/configuration-family-registry.ts:237-269 | Read off the raw payload: whoever the target reaches, by listed user or organization, version, percentage and time, gets its outcome and reason, and everybody else the default |
| FeatureFlagLaws.MatchesIsReaches | lib/configuration-family-registry.ts:212-235 | The normalised target matches exactly those whom the raw payload reaches |
| FeatureFlagLaws.ValidIff | lib/configuration-family-registry.ts:117-152 | The second schema accepts exactly known fields with a default, an outcome, at least one selector, and well-formed lists, percentage and times |
| FeatureFlagLaws.PlainAnswers | lib/configuration-family-registry.ts:237-250 | A closed environment gate is off for everybody, no configuration is on, an invalid payload is off, and the first schema answers its own field |
| FeatureFlagLaws.RolloutMovesUsers | lib/configuration-family-registry.ts:208-269 | In the answer: raising the percentage moves users only from the default to the target's outcome, whichever the two are; at 0 nobody, and at 100 exactly the identified users the other selectors admit |
| AdjustmentLaws.RunKeepsInv | lib/credit-adjustment-service.ts:26-167 | Over every run: an approved request has moved its customer's balance by its amount exactly once, any other not at all; decider and requester differ; nobody has two pending requests; the ledger's adjusted total of a customer is the sum of their approved requests |
| AdjustmentLaws.FromEmpty | lib/credit-adjustment-service.ts:26-167 | The same from the empty tables |
| AdjustmentLaws.DecideAgain | lib/credit-adjustment-service.ts:88-110 | However much later, a repeated decision is answered with the state it led to and moves nothing; any other decision under its key is refused |
| Adjustments.DeltaInRange | lib/credit-adjustment-service.ts:7-13 | The pattern alone keeps an amount non-zero and in range, so the range check after it never fires |
| Adjustments.DeltaReadIff | lib/credit-adjustment-service.ts:7-13 | A text is read as a number exactly if, trimmed, it is that number's written form, with a minus sign for a negative one, and the number is in range and not zero |
| Adjustments.DeltaRoundTrip | lib/credit-adjustment-service.ts:7-13 | Every such number comes back from its written form with any white space around it |
| AdjustmentLaws.ApprovalMovesWhatWasWritten | lib/credit-adjustment-service.ts:26-167 | However much later it is approved, a submission of the text of a number moves the customer's available credits by exactly that number, up or down as its sign says, and nothing else |
| AdjustmentAnswers.SubmissionAcceptedIff | lib/credit-adjustment-service.ts:26-86 | Under an unused key a request is accepted exactly if its texts have the stated lengths, its amount is one, and the customer has nothing pending; it waits with just what was asked |
| AdjustmentAnswers.SubmitAgain | lib/credit-adjustment-service.ts:44-58 | However much later, the same request under its key is answered with the first as it stands, and any other is refused |
| AdjustmentAnswers.DecisionAcceptedIff | lib/credit-adjustment-service.ts:88-167 | In every reachable office a decision is accepted exactly if its texts have the stated lengths, the request is pending and somebody else's, and, to approve, the customer can afford it |
| AdjustmentService.CreditAdjustmentService.SubmitCreditAdjustment | lib/credit-adjustment-service.ts:26-86 | Exact new state and answer |
| AdjustmentService.CreditAdjustmentService.DecideCreditAdjustment | lib/credit-adjustment-service.ts:88-167 | Exact new state and answer, or an unchanged state and the error |

## Left out

- PostgreSQL itself: SQL text, locks, deadlocks and isolation levels; a transaction is one atomic step under the row locks it takes.
- Column widths: `numeric` and `bigint` overflow, and JavaScript numbers beyond 2^53 in counts.
- Message texts, HTTP statuses, response projections, and the `authorize` callbacks of the commercial services.
- Audit-log and notification inserts inside the transactions, except the rows that the anchor property needs.
- Strings are sequences of Unicode scalar values: UTF-16 lengths, the UTF-16 sort order and lone surrogates are not captured.
- Canonical.CanonicalDecidesMeaning: the comparator is any consistent three-way comparison that tells the keys apart; `localeCompare` itself is not modelled, nor are `undefined` members, and numbers are compared by their printed text.
- RateLimit.ServiceBound: the buckets of one call are hit in order, not concurrently; the clock does not run backwards; the counted bucket is not cleared in the run and its calls share one policy.
- InferenceService.ClientAiInferenceService.ReconcileExpired: which candidates the query selects, its order and its limit are a parameter, so the property holds for any list.
- Token pricing (`calculateTokenCost`), model and rate lookup: a cost is any non-negative integer.
- InferenceService.ClientAiInferenceService.CompleteInference: the stored function `ai_settle_invocation_credits` and the `persistResult` callback are not part of the model; the result is a given text or missing.
- Hashes of usage and payload compared for replay in the credit service are compared as the values themselves.
- SecretBroker.SecretCommandStore.CompleteSecretCommand: the configuration fingerprint of a deployment and the legacy migration receipts are not part of the model.
- Secret commands: the files and cryptography behind a receipt; liveness, since a fifth attempt whose lease runs out stays in processing.
- Membership: when the lifecycle job moves a membership to grace or read-only, and its grace dates; the registration that inserts a waiting trial, so trials wait from the beginning of a run; and the official paper portfolios opened by an approval.
- MembershipService.CommercialMembershipService.RecordMembershipPaymentEvidence: the check that all stored fingerprints have the current version, and the normalisation of the reference before hashing, are not part of the model; the fingerprint is a function of the reference.
- Idempotency.CompletedAnswers: a record is written once with its response; the pending row inside the transaction that claims it is not visible to others and is not modelled.
- Memberships are kept in the order of their creation instead of being sorted by `created_at`; there is at most one current one where it matters.
- LedgerService.CommercialLedger.EnsurePlatformAccount: finds an account under its own id only, as does `EnsureUserAvailableAccount`; the source would also find one of the same owner, type and currency under another id, which no code of the repository opens.
- Ledger: reversals beyond their reference; the sorted list of postings in the hashed payload is a multiset.
- Disclosure: a submission's fields are already strings and it names no unknown document type; the Unicode tables behind lower case are a parameter that must satisfy what they do; `readCommercialDisclosureControl` only reads.
- EffectiveAccess: the key order of the returned object, the legacy fallback of `resolveEffectiveAccess`, and role loading.
- AccessScope: `accessOrganizationResourcePredicate`, `scopeCanDelegate` and the page cursors, which would only add easy members.
- FeatureFlag: the patterns of identifiers, versions and timestamps, and date parsing, are parameters that must only be faithful to their own output; other configuration families are left out.
- AuditAnchor.AuditStore.VerifyAuditLogChain: verifies the whole chain, not a part of it (`from_seq`, `to_seq`); the canonical bytes of a row are its payload here.
- HTTP, provider and exchange clients, pages, and the rest of `lib/`.
