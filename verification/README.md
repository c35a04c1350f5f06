# Verified model of the settlement mesh

Dafny model of the parts of the mesh that move integer money or stock, and proofs that neither leaks under
failure or interleaving. `dafny verify dfyconfig.toml` checks the whole project.

| files | what they model |
|---|---|
| `CanonicalJson`, `CanonicalRoundTrip`, `CanonicalReader`, `CanonicalMeaning`, `MandateChain`, `MandateTerms`, `Decimals` | canonical JSON (sections 3.2.2.2 and 3.2.3 of RFC 8785), the hash chain over it and the mandates it fixes |
| `CompensationTypes`, `CompensationProtocol`, `CompensationSafety`, `CompensationAttempts`, `CompensationConflicts`, `CompensationHands`, `CompensationMoney`, `CompensationTwice` | rollbacks and queue workers interleaving, one storage or provider call per step, and what happens when two rollbacks share a transfer |
| `RouteProvider`, `CompensationQueue`, `Rollback` | the mock provider, the dead-letter queue, its worker and the LIFO rollback as classes and methods |
| `SettlementProtocol`, `SettlementSafety` | claims, budgets and captures interleaving, `INCRBY` and its undo as separate steps |
| `SettlementLedger`, `NonceLedger`, `SplitManifest`, `SplitLegs`, `SettlementSaga`, `SettlementFigures` | one settlement from authentication to invoice |
| `ProtocolLink`, `SettlementLink` | the classes and the interleaving protocols describe one system |
| `Inventory`, `RedisInventory`, `MemoryLocker`, `LockerRefinement` | reservations: one abstract machine, the Redis scripts and the in-memory locker |
| `Paise`, `Apportionment`, `Tax`, `BudgetGate`, `Invoice` | largest-remainder splitting, GST and TCS, the budget gate, the invoice |
| `Pricing`, `AgreedPrices`, `IssuedQuotes`, `Gstin` | the discount waterfall, the two pruned registries, the GSTIN check character |

Provider answers, clock readings, fresh identifiers, the hash, the signature verdict and case folding are
parameters, so every theorem holds for all of them. Python and TypeScript integers are Dafny `int`s with the
enclave's bound (0 to 2^63 - 1) stated where the code checks it.

Places where the code and its own words disagree, or a natural property is false, are proved as such:

* a cap refusal leaves the cart claimed although nothing was charged (`SettlementSafety.FailedCaptureLeavesNoTrace`);
* the gate compares raw state codes and the invoice trimmed ones, so a cart with codes `"7 "` and `" 7"` passes
  the gate and is invoiced a paisa low (`Invoice.SpacedCodesDisagree`);
* TCS is held back on the subtotal the cart declares, which nothing compares with its lines, so it is the TCS
  invoiced exactly under a condition on the two (`SplitManifest.TcsAgreesExactly`, `TcsFollowsDeclaredSubtotal`);
* a payment whose split was rolled back is answered with the reversed transfers when it is split again, and pays
  only money that was not reversed exactly when the first split created no leg (`SplitLegs.RetryReportsReversedLegs`,
  `SplitLegs.RetryExample`);
* two rollbacks of one transfer can reverse it twice, because the mock provider ignores the idempotency key. One
  place and one reversal for each transfer is kept exactly when each leg of a new rollback is new or compensated
  (`CompensationConflicts`); for the money alone it is enough, and needed, that no saga, worker or queue has the leg
  in hand, so dead letters and lost legs can be rolled back again (`CompensationMoney`, `CompensationTwice`);
* a settlement within its budget can be refused, and its cart stay claimed, because another run's breach still
  awaits its undo (`SettlementSafety.CrowdedOut`);
* a failed reversal above 2^63 - 1 paise is neither reversed nor queued (`Rollback.NothingLost`,
  `CompensationSafety.LostExactly`), and the gate accepts carts with such a leg (`SplitManifest.AcceptedLegAboveBound`);
* one malformed sale record costs every open sale its discount (`Pricing.AddingSale`, `Pricing.MalformedSaleRaises`);
* settling a reservation under another SKU than the reserved one succeeds in memory and fails in Redis
  (`LockerRefinement.SettleWrongSku`);
* buyer ids containing `|` can share an agreed price (`AgreedPrices.PipedBuyersCollide`).

## Model

| member | source | states |
|---|---|---|
| CanonicalMeaning.CanonicalTextFixesValue | packages/mandateEngine/crypto/jcsCanonicalizer.py:46-72 | two float-free payloads get the same canonical text exactly when they are the same JSON value up to key order |
| CanonicalMeaning.DecodeUndoesCanonicalize | packages/mandateEngine/crypto/jcsCanonicalizer.py:62-72 | a reader that accepts printed text only consumes all of the canonical text and yields the payload with its keys sorted, with the same meaning |
| CanonicalMeaning.CanonicalIdempotent | packages/mandateEngine/crypto/jcsCanonicalizer.py:62-72 | printing an already canonical value again changes nothing |
| CanonicalMeaning.NormalizeKeeps | packages/mandateEngine/crypto/jcsCanonicalizer.py:46-59 | normalising sorts every object at every depth and keeps the meaning and the absence of floats |
| CanonicalMeaning.SortedFormUnique | packages/mandateEngine/crypto/jcsCanonicalizer.py:51-54 | a JSON value has only one key-sorted form |
| CanonicalRoundTrip.PrintInjective | packages/mandateEngine/crypto/jcsCanonicalizer.py:66-71 | the compact printer never prints two float-free values alike |
| CanonicalRoundTrip.ReadPrinted | packages/mandateEngine/crypto/jcsCanonicalizer.py:66-71 | reading printed text followed by a delimiter returns the value and the rest; the reader refuses leading zeros, a negative zero and every escape that is not the required one |
| CanonicalRoundTrip.ReadEscaped | packages/mandateEngine/crypto/jcsCanonicalizer.py:66-71 | string escaping is undone by the reader, whatever characters the string holds |
| CanonicalReader.ReadsOnlyPrinted | packages/mandateEngine/crypto/jcsCanonicalizer.py:66-71 | whatever the reader accepts is, character by character, what the printer prints for the float-free value read, so reader and printer fix each other |
| CanonicalReader.EscapeTable | packages/mandateEngine/crypto/jcsCanonicalizer.py:66-71 | what each character is written as: two-character escapes, lower-case \u00XX for the other control characters, itself otherwise |
| CanonicalReader.NumberText | packages/mandateEngine/crypto/jcsCanonicalizer.py:66-71 | an integer is its decimal digits without a leading zero, after a minus sign when it is negative |
| CanonicalReader.CompactText | packages/mandateEngine/crypto/jcsCanonicalizer.py:66-71 | literals, arrays and objects are written compactly: texts joined by single commas, keys and values by a colon, nothing else |
| CanonicalReader.LettersInOrder | packages/mandateEngine/crypto/jcsCanonicalizer.py:32-43 | one-letter ASCII keys sort by character |
| CanonicalReader.SortedExample | packages/mandateEngine/crypto/jcsCanonicalizer.py:62-72 | an object with the fields z = 10 and a = 0 is canonicalised to {"a":0,"z":10} |
| CanonicalReader.SurrogatesDecode | packages/mandateEngine/crypto/jcsCanonicalizer.py:32-43 | the two code units of an astral character are the surrogates from which it is decoded |
| CanonicalJson.SortOrderIsCodeUnitOrder | packages/mandateEngine/crypto/jcsCanonicalizer.py:32-43 | comparing big-endian UTF-16 bytes is comparing UTF-16 code units |
| CanonicalJson.KeyOrderTotal | packages/mandateEngine/crypto/jcsCanonicalizer.py:32-43 | the key order is total on distinct keys, so sorting leaves no choice |
| CanonicalJson.Utf16Injective | packages/mandateEngine/crypto/jcsCanonicalizer.py:32-43 | distinct well-formed keys have distinct sort keys |
| CanonicalJson.CodePointOrderDiffers | packages/mandateEngine/crypto/jcsCanonicalizer.py:35-42 | an astral and a private-use key sort the other way round by code point |
| MandateChain.UnsignedTerms | packages/mandateEngine/verification/signatureChainVerifier.py:13-17 | stripping removes exactly the three signature keys from the hashed object |
| MandateChain.HashFixesTerms | packages/mandateEngine/verification/signatureChainVerifier.py:13-17 | with a hash that does not collide on them, two dumps have equal hashes exactly when they agree on every non-signature field |
| MandateChain.ChainChecksBoth | packages/mandateEngine/verification/signatureChainVerifier.py:20-46 | each mandate's canonical text is hashed against its own hash: acceptance, either mismatch and drift, each exactly when that says so |
| MandateChain.AcceptedChainFixesTerms | packages/mandateEngine/verification/signatureChainVerifier.py:20-46 | hashes accepted with one intent and cart are accepted with another exactly when it carries the same non-signature terms |
| MandateTerms.AcceptedHashesFixMandates | packages/mandateEngine/verification/signatureChainVerifier.py:20-46 | when dumps list the fields the settlement reads, two mandate pairs accepted under the same hashes are the same intent and cart |
| CompensationSafety.NeverDroppedNeverReversedTwice | packages/mandateEngine/settlement/twoPhaseCommitSaga.py:106-165 | in every interleaving of rollbacks and workers each transfer is in exactly one of six places and has been reversed once if compensated or about to be marked, and otherwise not at all; the sixth, lost, is only for amounts the queue cannot record |
| CompensationSafety.RestIsComplete | packages/mandateEngine/settlement/compensationDlqWorker.py:53-103 | when everything is at rest each transfer was reversed once, or is a dead letter or too large to record and was not |
| CompensationSafety.RetriesExhausted | packages/mandateEngine/settlement/compensationDlqWorker.py:76-103 | a dead letter's counter stands at the retry limit and a pending event's below it, and both carry their own transfer's amount and key |
| CompensationAttempts.DeadLettersRefusedExactly | packages/mandateEngine/settlement/compensationDlqWorker.py:76-103 | counting refusals and not the counter: in every run a dead letter was refused to a worker exactly maxRetries times, and a pending event fewer times |
| CompensationSafety.SagaStepKeeps | packages/mandateEngine/settlement/twoPhaseCommitSaga.py:106-165 | every single step of a rollback, its refusal of unrecordable amounts included, keeps ownership, figures, records and reversal counts in agreement |
| CompensationSafety.WorkerStepKeeps | packages/mandateEngine/settlement/compensationDlqWorker.py:53-103 | every single step of a worker keeps the same invariant |
| CompensationSafety.LostExactly | packages/mandateEngine/settlement/compensationDlq.py:233-233 | a rollback of a transfer can lose it in some interleaving exactly when its amount is above the largest recordable one |
| CompensationConflicts.SafeExactlyWhenDistinct | packages/mandateEngine/settlement/twoPhaseCommitSaga.py:106-165 | from any reachable state, beginning a rollback unguarded keeps both one place and at most one reversal for every transfer in every continuation exactly when its legs are new or compensated |
| CompensationConflicts.SharedTransferReversedTwice | packages/mandateEngine/settlement/razorpayRouteClient.py:340-385 | any two sagas before the check of one uncompensated transfer can add two reversals to it in four steps |
| CompensationConflicts.ConflictReversesTwice | packages/mandateEngine/settlement/twoPhaseCommitSaga.py:106-165 | from any reachable state a second rollback ending in a transfer that a saga is about to check leads to two reversals |
| CompensationConflicts.TwoRollbacksFromStart | packages/mandateEngine/settlement/twoPhaseCommitSaga.py:106-165 | two rollbacks of any one transfer, begun one after the other from the start, can reverse it twice |
| CompensationMoney.LooseRunsReverseOnce | packages/mandateEngine/settlement/twoPhaseCommitSaga.py:106-165 | when rollbacks also begin again with dead letters and lost legs, as often as they like, still no interleaving reverses a transfer twice, and a tombstone means exactly once |
| CompensationMoney.DeadAreFree | packages/mandateEngine/settlement/compensationDlq.py:291-301 | no saga, worker or pending event has a dead letter or a lost transfer in hand |
| CompensationTwice.ReversedOnceExactly | packages/mandateEngine/settlement/razorpayRouteClient.py:340-385 | with a worker running, from any reachable state, beginning a rollback unguarded reverses nothing twice in any continuation exactly when no saga, pending event or worker with an attempt left has one of its uncompensated legs in hand |
| CompensationTwice.InHandIsReversedTwice | packages/mandateEngine/settlement/twoPhaseCommitSaga.py:106-165 | otherwise some continuation reverses such a leg twice, wherever it was in a list, in the queue or at a worker |
| CompensationTypes.ReversalKeyInjective | packages/mandateEngine/settlement/twoPhaseCommitSaga.py:358-365 | reversal keys of distinct transfers are distinct |
| CompensationQueue.CompensationDlq.EnqueueReversal | packages/mandateEngine/settlement/compensationDlq.py:221-275 | which of the five outcomes occurs, field by field, in the order bound, tombstone, record under the caller's key or cmp_ and the id, event; a new event is pending with retry count 0 and the caller's limit or the default, and only it touches queue and records |
| CompensationQueue.CompensationDlq.PopPendingEvent | packages/mandateEngine/settlement/compensationDlq.py:277-282 | removes and returns the head, or reports an empty queue |
| CompensationQueue.CompensationDlq.RequeueEvent | packages/mandateEngine/settlement/compensationDlq.py:284-289 | appends the event at the tail and changes nothing else |
| CompensationQueue.CompensationDlq.EscalateToDeadLetter | packages/mandateEngine/settlement/compensationDlq.py:291-301 | appends the event to the dead letters with its status set |
| CompensationQueue.CompensationDlq.IsAlreadyCompensated | packages/mandateEngine/settlement/compensationDlq.py:204-208 | answers whether a tombstone is set |
| CompensationQueue.CompensationDlq.MarkCompensated | packages/mandateEngine/settlement/compensationDlq.py:210-219 | sets the tombstone to the reversal id, or to the default mark when that is empty |
| CompensationQueue.CompensationDlqWorker.ProcessNext | packages/mandateEngine/settlement/compensationDlqWorker.py:53-103 | one turn takes the whole storage to the state of one abstract turn on the head of the queue and returns that event with its new status and retry count |
| CompensationQueue.CompensationDlqWorker.ProcessAllPending | packages/mandateEngine/settlement/compensationDlqWorker.py:105-113 | runs abstract turns until the queue is empty or the limit is reached, never past an empty queue |
| CompensationQueue.DrainEmptiesQueue | packages/mandateEngine/settlement/compensationDlqWorker.py:105-113 | with no new events the queue is empty after as many turns as its events have attempts left together |
| CompensationQueue.AttemptsBounded | packages/mandateEngine/settlement/compensationDlqWorker.py:76-103 | no transfer is attempted more often than its events allow, however long the worker runs |
| CompensationQueue.EnqueuedTriedExactly | packages/mandateEngine/settlement/compensationDlqWorker.py:76-103 | an event enqueued with n retries and refused every time is a dead letter exactly once the worker has spent n turns on it, is never given more, and has had all n when the queue is empty |
| CompensationQueue.RoundRobin | packages/mandateEngine/settlement/compensationDlq.py:277-289 | the first turns serve every event queued at the start once, in order |
| CompensationQueue.BetweenTurns | packages/mandateEngine/settlement/compensationDlq.py:277-289 | two turns on one transfer are at least a round apart, and in the round after the first every other queued event is served exactly once, in queue order |
| CompensationQueue.NextTurn | packages/mandateEngine/settlement/compensationDlq.py:284-289 | an event whose attempt failed short of its last is at the head again exactly one round later |
| RouteProvider.RouteClient.CapturePayment | packages/mandateEngine/settlement/razorpayRouteClient.py:261-274 | an accepted capture records its amount and a refused one changes nothing |
| RouteProvider.RouteClient.CreateTransfer | packages/mandateEngine/settlement/razorpayRouteClient.py:291-321 | a used key returns its recorded transfer and changes nothing; a new one creates and records the transfer asked for |
| RouteProvider.RouteClient.ReverseTransfer | packages/mandateEngine/settlement/razorpayRouteClient.py:340-385 | reverses exactly when accepted and the transfer exists, by the amount asked or the transfer's own when that is zero |
| Rollback.CompensateTransfer | packages/mandateEngine/settlement/twoPhaseCommitSaga.py:106-163 | one leg is skipped, reversed and marked, or queued, as the abstract compensation of that leg says |
| Rollback.CompensateTransfers | packages/mandateEngine/settlement/twoPhaseCommitSaga.py:90-165 | storage, reversal attempts and returned list after the whole LIFO loop, with and without a queue |
| Rollback.AttemptedInReverseOrder | packages/mandateEngine/settlement/twoPhaseCommitSaga.py:97-106 | for fresh legs reversals are asked for in exactly reverse order, each once, whatever fails |
| Rollback.ReversedExactly | packages/mandateEngine/settlement/twoPhaseCommitSaga.py:97-165 | without a queue exactly the legs whose reversal the provider accepts are reversed, each by its own amount |
| Rollback.RollbackConserves | packages/mandateEngine/settlement/twoPhaseCommitSaga.py:135-163 | with a queue the completed total equals reversed plus queued plus lost, whatever pattern of failures occurs |
| Rollback.NothingLost | packages/mandateEngine/settlement/compensationDlq.py:233-233 | nothing is lost exactly when every leg whose reversal fails is recordable |
| Rollback.CreateLegs | packages/mandateEngine/settlement/twoPhaseCommitSaga.py:212-220 | the legs and provider tables after the loop, stopping at the first refusal |
| Rollback.ExecuteSplitPhase | packages/mandateEngine/settlement/twoPhaseCommitSaga.py:206-234 | either all legs and an otherwise untouched queue, or the completed legs compensated, with a queue or without |
| SplitLegs.LegsAreRecordedOrNew | packages/mandateEngine/settlement/razorpayRouteClient.py:303-321 | each leg is the transfer recorded under its key before the split, or a new one paying the request |
| SplitLegs.SplitFailsExactly | packages/mandateEngine/settlement/twoPhaseCommitSaga.py:212-220 | a split fails exactly when the provider refuses a leg that was not created before |
| SplitLegs.FreshSplitPaysManifest | packages/mandateEngine/settlement/twoPhaseCommitSaga.py:212-220 | under unused keys the legs are new, positive, go to the right accounts and add up to the manifest total |
| SplitLegs.FreshSplitRollsBack | packages/mandateEngine/settlement/twoPhaseCommitSaga.py:221-234 | under unused keys a failed split is undone in reverse order and loses nothing while the total is recordable |
| SplitLegs.RetryReportsReversedLegs | packages/mandateEngine/settlement/razorpayRouteClient.py:303-321 | after a failed and compensated split the same payment's next split returns those legs first and totals the manifest; each is reversed or queued unless lost, so all legs still have their payees exactly when the first split created none (or all were lost) |
| SplitLegs.RetryAfterOneLeg | packages/mandateEngine/settlement/twoPhaseCommitSaga.py:212-234 | for any two requests, a provider that refuses the second once leads to such a retry with one leg already taken back |
| SplitLegs.RetryExample | packages/mandateEngine/settlement/razorpayRouteClient.py:303-321 | in figures: the second split reports 100 paise paid out, of which 60 were reversed |
| SplitManifest.BuildSplitManifest | packages/mandateEngine/settlement/splitManifestBuilder.py:32-74 | a manifest conserves the cart total, leaves the merchant something and carries the declared fee, shipping and TCS |
| SplitManifest.ManifestInNumbers | packages/mandateEngine/settlement/splitManifestBuilder.py:32-74 | in plain numbers: which outcome occurs, and the merchant's net as total less fee, shipping and TCS, each under its own account |
| SplitManifest.TcsAgreesExactly | packages/mandateEngine/settlement/splitManifestBuilder.py:51-52 | TCS held back equals TCS invoiced exactly when declared subtotal and lines' value agree to the TCS unit of the places of supply |
| SplitManifest.AcceptedLegAboveBound | packages/mandateEngine/settlement/splitManifestBuilder.py:32-74 | a cart the gate accepts can have a merchant leg above the largest recordable amount |
| SplitManifest.TcsFollowsDeclaredSubtotal | packages/mandateEngine/settlement/splitManifestBuilder.py:52-52 | a cart the gate accepts can have no TCS held back although 50 paise are due on its lines |
| SplitManifest.BuildTransferRequests | packages/mandateEngine/settlement/twoPhaseCommitSaga.py:167-204 | one request for each positive share and no other, in the order merchant, protocol, logistics, TCS, to its own account, adding up to the manifest total |
| SplitManifest.RequestsCoverManifest | packages/mandateEngine/settlement/twoPhaseCommitSaga.py:167-204 | the requests of a manifest hold each positive share once and no other, at its own account, and total the manifest |
| SplitManifest.RequestsInOrder | packages/mandateEngine/settlement/twoPhaseCommitSaga.py:167-204 | the requests written out: each account with its own amount and purpose, in the order merchant, protocol, logistics, TCS |
| SplitManifest.LegKeysDistinct | packages/mandateEngine/settlement/twoPhaseCommitSaga.py:343-355 | keys of distinct legs of one payment differ, whatever the accounts are called, and start with the payment's prefix |
| SettlementLedgers.SettlementLedger.ClaimCartSettlement | packages/mandateEngine/verification/settlementLedger.py:37-54 | grants a claim exactly when the cart is unclaimed |
| SettlementLedgers.SettlementLedger.RecordCumulativeSpend | packages/mandateEngine/verification/settlementLedger.py:56-87 | accepts exactly up to the cap, and a refusal leaves every counter where it was |
| SettlementLedgers.SettlementLedger.IncrBy | packages/mandateEngine/verification/settlementLedger.py:134-139 | moves this mandate's counter by the delta and no other |
| SettlementLedgers.SettlementLedger.ReleaseCartClaim | packages/mandateEngine/verification/settlementLedger.py:89-101 | removes exactly this claim |
| SettlementLedgers.SettlementLedger.ReleaseCumulativeSpend | packages/mandateEngine/verification/settlementLedger.py:103-107 | takes the amount off this mandate's counter only |
| SettlementProtocol.StepKeeps | packages/mandateEngine/settlement/twoPhaseCommitSaga.py:266-311 | every step of any settlement keeps claims, counters, caps and captures in agreement |
| SettlementSafety.CounterMatchesBookings | packages/mandateEngine/verification/settlementLedger.py:56-87 | in every interleaving the counter is accepted spend plus breaches awaiting undo, and accepted spend is within the cap |
| SettlementSafety.OverCapOnlyDuringUndo | packages/mandateEngine/verification/settlementLedger.py:81-86 | the counter exceeds the cap only while some run of that mandate is about to undo its breach |
| SettlementSafety.RefusedExactly | packages/mandateEngine/verification/settlementLedger.py:71-86 | a run that books is refused exactly when accepted spend, breaches awaiting their undo and its amount together exceed the cap |
| SettlementSafety.CrowdedOut | packages/mandateEngine/verification/settlementLedger.py:71-86 | so a run whose amount fits beside all accepted spend can be refused, and leaves its cart claimed with nothing booked |
| SettlementSafety.OneCapturePerCart | packages/mandateEngine/settlement/twoPhaseCommitSaga.py:261-279 | in every interleaving a cart is captured at most once and then stays claimed |
| SettlementSafety.ClaimRemovedByItsHolder | packages/mandateEngine/settlement/twoPhaseCommitSaga.py:273-293 | only the one run holding a claim removes it, and only while the cart has no capture |
| SettlementSafety.ReleaseFollowsFailedCapture | packages/mandateEngine/settlement/twoPhaseCommitSaga.py:268-279 | a run starts releasing only when its own capture was refused |
| SettlementSafety.FailedCaptureLeavesNoTrace | packages/mandateEngine/settlement/twoPhaseCommitSaga.py:266-311 | a finished run leaves claims and counters as if it had not been there exactly when its claim was refused or its capture failed |
| SettlementSafety.FinishedRunLeaves | packages/mandateEngine/settlement/settlementOrchestrator.py:213-227 | what each ending leaves: every other ending keeps the claim, and only a settled or overdrawn run stays booked |
| Nonces.NonceLedger.ValidateAndRecordNonce | packages/mandateEngine/nonce/nonceLedger.py:18-60 | expired more than 5 seconds back, future more than 60 seconds ahead, replay while the key lives, else accepted and the key set for 120000 milliseconds |
| Nonces.AcceptsInNumbers | packages/mandateEngine/nonce/nonceLedger.py:18-60 | on the server's clock a request is accepted exactly from 5 seconds before to 60 seconds after, and not before an earlier key's last millisecond is over |
| Nonces.AcceptancesApart | packages/mandateEngine/nonce/nonceLedger.py:42-60 | on a clock that never goes back two acceptances of one nonce lie at least the time to live apart |
| Nonces.ReplayProofExactly | packages/mandateEngine/nonce/nonceLedger.py:6-8 | no pair of nonce and timestamp is ever accepted twice exactly when keys live longer than the window is wide, as 120 seconds do |
| SettlementSaga.TwoPhaseCommitSaga.Authorize | packages/mandateEngine/settlement/twoPhaseCommitSaga.py:251-259 | passes exactly when signatures, chain, gate and lock do, and otherwise names the first that fails and the gate's own verdict |
| SettlementSaga.TwoPhaseCommitSaga.ClaimSettlementSlot | packages/mandateEngine/settlement/twoPhaseCommitSaga.py:295-311 | claims then books; a taken claim changes nothing and a cap refusal leaves the claim |
| SettlementSaga.TwoPhaseCommitSaga.ReleaseSettlementSlot | packages/mandateEngine/settlement/twoPhaseCommitSaga.py:281-293 | gives claim and spend back |
| SettlementSaga.TwoPhaseCommitSaga.CaptureOrRelease | packages/mandateEngine/settlement/twoPhaseCommitSaga.py:268-279 | captures the settled amount, or on refusal gives claim and spend back |
| SettlementSaga.TwoPhaseCommitSaga.ClaimAndCapture | packages/mandateEngine/settlement/twoPhaseCommitSaga.py:266-279 | refused claim, cap breach, refused capture or captured, each exactly under its own cause, with captures and ledger |
| SettlementSaga.TwoPhaseCommitSaga.ConsumeAndCapture | packages/mandateEngine/settlement/twoPhaseCommitSaga.py:261-279 | nonce answer and key, and after an accepted nonce each refusal exactly under its own cause, with captures and ledger |
| SettlementSaga.TwoPhaseCommitSaga.VerifyAndCapturePhase | packages/mandateEngine/settlement/twoPhaseCommitSaga.py:236-279 | each refusal exactly under its own cause, that nothing is consumed before authorization, and what nonce, ledger and captures hold afterwards |
| SettlementSaga.TwoPhaseCommitSaga.ReleaseProvisionalSpend | packages/mandateEngine/settlement/settlementOrchestrator.py:147-158 | gives the spend back and keeps the claim |
| SettlementSaga.TwoPhaseCommitSaga.SplitPhase | packages/mandateEngine/settlement/settlementOrchestrator.py:218-220 | legs, tables and reversals are those of splitting exactly the manifest's requests in order, with a queue or without |
| SettlementSaga.TwoPhaseCommitSaga.PayOut | packages/mandateEngine/settlement/settlementOrchestrator.py:218-249 | a split of the manifest's requests that fails gives the spend back and is reported, one that succeeds keeps it and is invoiced; an invoice is only refused when places disagree |
| SettlementSaga.TwoPhaseCommitSaga.IssueResult | packages/mandateEngine/settlement/settlementOrchestrator.py:229-249 | the result carries payment, amount, legs and the cart's invoice, which is refused exactly when its total is not positive and then the places disagree |
| SettlementSaga.TwoPhaseCommitSaga.SettleCaptured | packages/mandateEngine/settlement/settlementOrchestrator.py:217-249 | a refused manifest leaves the spend booked and no legs; otherwise the split of the manifest's requests, undo and invoice, and what the caller is told; in raw arguments, whose account a result pays and how much |
| SettlementSaga.TwoPhaseCommitSaga.CompleteSettlement | packages/mandateEngine/settlement/settlementOrchestrator.py:213-249 | the second phase completes what the first began to the whole settlement's outcome and effects; in raw arguments, whose account a result pays and how much |
| SettlementSaga.TwoPhaseCommitSaga.ExecuteSettlementSaga | packages/mandateEngine/settlement/settlementOrchestrator.py:203-249 | which outcome occurs, exactly, with the nonces, captures, ledger, legs and reversals it leaves; when no key of the payment is in use, which can be checked before the call, a result pays merchantAccount the settled amount less fee, shipping and TCS, the fee to protocolFeeAccount, shipping to logisticsAccount and TCS to acc_tcs_withholding, and, places agreeing, the invoice is of the settled amount |
| SettlementSaga.SettledMeansPaidInFull | packages/mandateEngine/settlement/settlementOrchestrator.py:213-249 | a result under unused keys pays each of the manifest's purposes its positive share, in order, the legs total the settled amount, and the invoice does exactly when places agree or no line loses a paisa |
| SettlementSaga.SettledPaysAccounts | packages/mandateEngine/settlement/settlementOrchestrator.py:82-96 | a result under unused keys has exactly these legs in this order: merchant with the net, then fee, shipping and TCS, each if positive, at its own account |
| SettlementFigures.AuthorizedExactly | packages/mandateEngine/settlement/twoPhaseCommitSaga.py:251-259 | a settlement is refused unauthorized exactly when signatures, chain, gate on the items' categories or lock fail, and then nothing has changed |
| SettlementFigures.FailureNamed | packages/mandateEngine/settlement/twoPhaseCommitSaga.py:251-259 | of several failing checks the one named comes first in the order signatures, chain, gate, lock |
| SettlementFigures.NonceExactly | packages/mandateEngine/settlement/twoPhaseCommitSaga.py:261-265 | after authorization the nonce is refused exactly outside the window in seconds or while its key lives, and else kept for 120000 milliseconds whatever follows |
| SettlementFigures.LedgerDecides | packages/mandateEngine/settlement/twoPhaseCommitSaga.py:266-279 | with a ledger: taken cart, spend above the budget, refused capture and captured, each exactly under its own cause |
| SettlementFigures.UncheckedWithoutLedger | packages/mandateEngine/settlement/twoPhaseCommitSaga.py:302-303 | without a ledger only the capture can be refused |
| SettlementFigures.SpendLeft | packages/mandateEngine/settlement/settlementOrchestrator.py:213-227 | the settled amount stays booked on this mandate exactly after a result, a refused invoice or a refused manifest, and every other counter is as before |
| SettlementFigures.LedgerLeft | packages/mandateEngine/settlement/settlementOrchestrator.py:213-227 | which outcomes leave the cart claimed and which leave the payment captured with the settled amount |
| SettlementFigures.CapturedEnds | packages/mandateEngine/settlement/settlementOrchestrator.py:217-249 | after a capture a refused manifest and a failed split decide the outcome, and a result carries payment, amount and the legs of the split |
| SettlementFigures.UndoneInReverse | packages/mandateEngine/settlement/settlementOrchestrator.py:219-227 | a rolled-back settlement asks for the reversal of its legs in reverse order, each once, and with a queue every paisa of them is reversed, queued or lost as unrecordable |
| SettlementFigures.NothingElseUndone | packages/mandateEngine/settlement/settlementOrchestrator.py:203-249 | every other outcome asks for no reversal and changes neither queue nor reversals |
| SettlementSaga.HashesFixWhatIsSettled | packages/mandateEngine/verification/signatureChainVerifier.py:20-46 | two authorized submissions naming the same hashes settle the same intent and cart |
| ProtocolLink.RollbackIsARun | packages/mandateEngine/settlement/twoPhaseCommitSaga.py:90-165 | the rollback method's effect is that of one interleaving of the protocol, whatever the amounts and the provider's answers |
| ProtocolLink.WorkerTurnIsARun | packages/mandateEngine/settlement/compensationDlqWorker.py:53-103 | a worker's turn is a few consecutive protocol steps of an idle worker |
| SettlementLink.AloneLeavesBooks | packages/mandateEngine/settlement/twoPhaseCommitSaga.py:266-311 | a settlement left uninterrupted reaches the outcome and the ledger that the saga's contract states, in at most six steps |
| Inventory.StockConserved | packages/mcpServer/src/inventory/redisLockManager.ts:46-72 | in every interleaving stock is non-negative, stock plus live plus consumed units is the initial stock, each reservation has exactly one fate and fencing tokens strictly increase |
| Inventory.StepKeeps | packages/mcpServer/src/inventory/lockExpirySweeper.ts:37-61 | every acquire, sweep or consume keeps stock, fates and fences in agreement |
| Inventory.AcquireInNumbers | packages/mcpServer/src/inventory/redisLockManager.ts:46-58 | a lock is granted exactly up to the stock, takes its units, files its reservation and counts one fence; a refusal changes nothing |
| Inventory.SweepKeepsLater | packages/mcpServer/src/inventory/lockExpirySweeper.ts:37-61 | a sweep keeps exactly the reservations whose expiry is still to come |
| Inventory.SweepTwice | packages/mcpServer/src/inventory/lockExpirySweeper.ts:37-61 | a sweep leaves none lapsed and a second one at that instant changes nothing |
| Inventory.ReadThenLock | packages/mcpServer/src/inventory/redisLockManager.ts:103-108 | after a reclaim a lock at that instant succeeds for exactly the quantities up to the stock read |
| RedisInventory.EntryParses | packages/mcpServer/src/inventory/inventoryKeys.ts:18-20 | the sweeper recovers the SKU from an entry exactly when the token has no separator |
| RedisInventory.EntryInjective | packages/mcpServer/src/inventory/inventoryKeys.ts:18-20 | separator-free tokens make entries of distinct reservations distinct |
| RedisInventory.EntryText | packages/mcpServer/src/inventory/inventoryKeys.ts:18-20 | an entry is token, bar, SKU |
| RedisInventory.RedisKeys.AcquireScript | packages/mcpServer/src/inventory/redisLockManager.ts:46-58 | answer and all keys after the acquire script |
| RedisInventory.RedisKeys.ReleaseEntry | packages/mcpServer/src/inventory/lockExpirySweeper.ts:43-58 | one lapsed entry goes and exactly its quantity comes back to the SKU parsed from it |
| RedisInventory.RedisKeys.SweepScript | packages/mcpServer/src/inventory/lockExpirySweeper.ts:37-61 | the loop credits exactly the lapsed quantities, drops exactly the lapsed entries and counts both |
| RedisInventory.RedisKeys.ConsumeScript | packages/mcpServer/src/inventory/redisLockManager.ts:65-72 | removes the entry without crediting it and reports whether it was there |
| MemoryLocker.CatalogStore.GetStock | packages/mcpServer/src/catalog/catalogStore.ts:91-93 | an unknown SKU has no stock |
| MemoryLocker.CatalogStore.UpdateStock | packages/mcpServer/src/catalog/catalogStore.ts:95-100 | adds the delta, or sets zero when the sum is negative, and changes no other SKU |
| MemoryLocker.InMemoryAtomicLocker.ReleaseLock | packages/mcpServer/src/inventory/lockExpirySweeper.ts:88-96 | one lapsed reservation goes and exactly its quantity comes back |
| MemoryLocker.InMemoryAtomicLocker.SweepExpiredInMemoryLocks | packages/mcpServer/src/inventory/lockExpirySweeper.ts:80-99 | the loop equals the abstract sweep, so the clamp never fires on non-negative stock |
| MemoryLocker.InMemoryAtomicLocker.ExecuteLock | packages/mcpServer/src/inventory/redisLockManager.ts:78-101 | sweeps and then acquires as the abstract machine does, with the expiry from the second clock reading |
| MemoryLocker.LockLives | packages/mcpServer/src/inventory/redisLockManager.ts:78-101 | a lock taken for n seconds is live one millisecond before n * 1000 and lapsed at n * 1000 |
| MemoryLocker.InMemoryAtomicLocker.ReclaimExpired | packages/mcpServer/src/inventory/redisLockManager.ts:106-108 | is exactly a sweep |
| MemoryLocker.InMemoryAtomicLocker.ConsumeReservation | packages/mcpServer/src/inventory/redisLockManager.ts:112-114 | drops the reservation without credit and reports whether it was there |
| LockerRefinement.SameAnswers | packages/mcpServer/src/inventory/redisLockManager.ts:137-188 | over every run of well-mannered requests, quantity zero included, both lockers give the same answers and end with the same stock |
| LockerRefinement.SameAnswersFromStart | packages/mcpServer/src/inventory/redisLockManager.ts:39-75 | new lockers over the same stock answer alike for ever, their fencing tokens 1000 apart |
| LockerRefinement.SettleWrongSku | packages/mcpServer/src/inventory/redisLockManager.ts:174-188 | a live reservation is settled alike by both exactly under its own SKU |
| Apportionment.SplitBillConserved | packages/mandateEngine/verification/arithmeticEnclave.py:127-143 | refuses exactly the invalid bills, and otherwise returns a Hare-Niemeyer split: shares that sum to the total, each its floored quota or one more |
| Apportionment.TieRule | packages/mandateEngine/verification/arithmeticEnclave.py:137-142 | in plain products: whoever has a larger remainder, or the same and a larger weight, or both the same and an earlier place, gets an odd paisa before the other does |
| Apportionment.TieExample | packages/mandateEngine/verification/arithmeticEnclave.py:139-141 | 50 paise by weights 1 and 3, whose remainders are equal, split into 12 and 38 |
| Apportionment.SplitIsOptimal | packages/mandateEngine/verification/arithmeticEnclave.py:137-142 | no integer allocation with the same sum is closer to the exact shares in total absolute deviation |
| Apportionment.OrderPreserved | packages/mandateEngine/verification/arithmeticEnclave.py:139-141 | a larger weight, or an equal one listed earlier, never gets a smaller share |
| Apportionment.HareNiemeyerUnique | packages/mandateEngine/verification/arithmeticEnclave.py:139-141 | the rule determines the split |
| Apportionment.ExactQuotaGetsNoBonus | packages/mandateEngine/verification/arithmeticEnclave.py:138-141 | a participant with zero remainder gets exactly its quota |
| Apportionment.SharesWithinQuota | packages/mandateEngine/verification/arithmeticEnclave.py:137-141 | every share is within one paisa of its exact quota |
| Apportionment.LeftoverBound | packages/mandateEngine/verification/arithmeticEnclave.py:141-141 | fewer paise are left over than there are participants |
| Apportionment.DiscountShareFits | packages/mandateEngine/verification/arithmeticEnclave.py:189-199 | a discount not above the cart total never exceeds the value of the item it lands on |
| Apportionment.AllocateCartDiscountConserved | packages/mandateEngine/verification/arithmeticEnclave.py:189-199 | refuses exactly the invalid discounts, and otherwise splits by the same rule, exactly and within each item |
| Tax.IntraStateShortfall | packages/mandateEngine/verification/arithmeticEnclave.py:97-105 | intra-state tax is one paisa below inter-state tax exactly when the product mod 20000 is at least 10000 |
| Tax.CartShortfall | packages/mandateEngine/verification/arithmeticEnclave.py:97-105 | over a cart the two differ by exactly the number of such lines, hence by at most the number of lines |
| Tax.AdapterFollowsFlag | packages/mandateEngine/verification/arithmeticEnclave.py:112-124 | the percent adapter levies what the flag says and refuses exactly what is out of bounds |
| Tax.CartTaxInNumbers | packages/mandateEngine/verification/arithmeticEnclave.py:77-124 | taxable value is the sum of price times quantity, and each head the sum of floor(price * quantity * percent * 100 / 20000) within a state or / 10000 across states |
| BudgetGate.VerifyTaxHeads | packages/mandateEngine/verification/budgetGate.py:105-142 | the heads loop accepts exactly the statutory heads |
| BudgetGate.RecomputeEnclaveTotal | packages/mandateEngine/verification/budgetGate.py:86-102 | the total loop computes the statutory total or drifts |
| BudgetGate.VerifyCategoryAuthorization | packages/mandateEngine/verification/budgetGate.py:157-191 | authorizes exactly when the whitelist is empty or the cart's categories are named and all on it |
| BudgetGate.ValidateBudgetGate | packages/mandateEngine/verification/budgetGate.py:25-64 | accepts exactly the mandates within every bound, and otherwise reports the first check that fails in the gate's order; acceptance means the declared heads and the amount are the sums over price times quantity |
| BudgetGate.GateInNumbers | packages/mandateEngine/verification/budgetGate.py:25-64 | acceptance in plain numbers: times, agent, bounds, heads and total as sums over price times quantity, caps and categories, in both directions |
| BudgetGate.RefusalsInOrder | packages/mandateEngine/verification/budgetGate.py:25-64 | each of the eight refusals exactly under its own condition, in the gate's order |
| Invoice.BuildLine | packages/mandateEngine/tax/gstrInvoiceEngine.py:113-137 | one line's value and levy, or drift exactly when out of bounds |
| Invoice.BuildLineItemsAndTaxTotals | packages/mandateEngine/tax/gstrInvoiceEngine.py:106-139 | each line levied on its own and the totals of all lines |
| Invoice.GenerateGstrInvoice | packages/mandateEngine/tax/gstrInvoiceEngine.py:71-103 | when the invoice drifts or is invalid, and otherwise its lines, totals, TCS and grand total, also as sums over price times quantity |
| Invoice.FitMeansFigures | packages/mandateEngine/tax/gstrInvoiceEngine.py:106-139 | an invoice in plain numbers: price times quantity on every line, each head floored per line, and the grand total and TCS of their sums |
| Invoice.GateAgreesWithInvoice | packages/mandateEngine/tax/gstrInvoiceEngine.py:84-103 | an accepted cart is invoiced for its total exactly when places agree or no line is short, with its heads exactly when places agree or it declared no IGST |
| Invoice.TrimmedCodesAgree | packages/mandateEngine/tax/gstrInvoiceEngine.py:66-68 | state codes without spaces give gate and invoice the same place of supply |
| Invoice.SpacedCodesDisagree | packages/mandateEngine/tax/gstrInvoiceEngine.py:66-68 | a cart with spaced codes that the gate accepts is invoiced one paisa low |
| Pricing.MatchesBestTier | packages/mcpServer/src/catalog/pricingEngine.ts:60-66 | the matched tier is the reached one with the largest minimum, the first of equals, if any is reached |
| Pricing.EvaluateScheduledPromotions | packages/mcpServer/src/catalog/pricingEngine.ts:371-396 | the open and the upcoming sales in order, by their times, or drift exactly when some record has no window or is dearer than the list price |
| Pricing.ListedExactly | packages/mcpServer/src/catalog/pricingEngine.ts:380-390 | a sale is listed as open or upcoming exactly when it is, at its own expected price |
| Pricing.DeepestIsLowest | packages/mcpServer/src/catalog/pricingEngine.ts:213-216 | the sale price is the lowest any open sale offers, or the list price |
| Pricing.ApplyScheduledPromotionStep | packages/mcpServer/src/catalog/pricingEngine.ts:196-227 | the step charges the deepest open sale, swallows a malformed list and lists what it took off |
| Pricing.ApplyCampaignDiscountStep | packages/mcpServer/src/catalog/pricingEngine.ts:229-248 | the capped campaign, never raising the price, listed exactly |
| Pricing.ApplyPaymentRailDiscountStep | packages/mcpServer/src/catalog/pricingEngine.ts:250-264 | cashback up to the price, listed exactly |
| Pricing.ApplyPromoCodeDiscountStep | packages/mcpServer/src/catalog/pricingEngine.ts:266-286 | the first matching code's percentage, listed exactly |
| Pricing.ApplyPercent | packages/mcpServer/src/catalog/pricingEngine.ts:128-137 | a percentage off, never raising the price, listed exactly |
| Pricing.ApplyVolumeTierDiscountStep | packages/mcpServer/src/catalog/pricingEngine.ts:121-138 | the matched tier's percentage, listed exactly |
| Pricing.ComputeAutoDiscountStack | packages/mcpServer/src/catalog/pricingEngine.ts:288-320 | offered price, savings, and the discounts of the five steps in order, each under its own kind |
| Pricing.SaleInNumbers | packages/mcpServer/src/catalog/pricingEngine.ts:322-336 | a sale's price: the fixed one, else a percentage off, else an amount off down to nothing |
| Pricing.WaterfallInNumbers | packages/mcpServer/src/catalog/pricingEngine.ts:310-315 | with sane terms the four discounts in plain arithmetic: tier, capped campaign, cashback up to the price, code, each on what the one before left |
| Pricing.OnlyCodeFound | packages/mcpServer/src/catalog/pricingEngine.ts:266-286 | the first code that matches up to normalisation is the one found |
| Pricing.DefaultOffers | packages/mcpServer/src/catalog/pricingEngine.ts:158-166 | without offers of its own a SKU has 10 percent up to 2000 paise, 150 paise back and one code for 5 percent |
| Pricing.OwnOffers | packages/mcpServer/src/catalog/pricingEngine.ts:167-175 | with offers of its own only what the merchant wrote counts |
| Pricing.QuoteExample | packages/mcpServer/src/catalog/pricingEngine.ts:288-320 | 30000 paise without sale, tier, code or own offers are offered at 27850 |
| Pricing.DiscountsMonotone | packages/mcpServer/src/catalog/pricingEngine.ts:310-315 | with percentages up to the whole a lower price going in never becomes a higher one coming out, and never a negative one |
| Pricing.DiscountsOnlyLower | packages/mcpServer/src/catalog/pricingEngine.ts:310-315 | no step ever raises a price |
| Pricing.DiscountsAddUp | packages/mcpServer/src/catalog/pricingEngine.ts:316-319 | the discounts sum to base minus offered exactly when the waterfall does not end below zero, which sane terms guarantee |
| Pricing.AddingSale | packages/mcpServer/src/catalog/pricingEngine.ts:196-227 | a well-formed sale inserted anywhere never raises the price, and a malformed one costs all sales their discount |
| Pricing.MalformedSaleRaises | packages/mcpServer/src/catalog/pricingEngine.ts:196-227 | where sales are the only discount, a malformed record raises the price exactly when an open sale had lowered it |
| Pricing.AdvertisedPriceKept | packages/mcpServer/src/catalog/pricingEngine.ts:187-190 | the price listed while a sale was upcoming bounds the final price once it opens, exactly when it is not negative |
| AgreedPrices.KeysCollideExactly | packages/mcpServer/src/negotiation/agreedPriceRegistry.ts:53-55 | two purchases share a key exactly when quantity and joined ids are equal |
| AgreedPrices.PipedBuyersCollide | packages/mcpServer/src/negotiation/agreedPriceRegistry.ts:53-55 | two different buyers can share a key when one contains the separator |
| AgreedPrices.KeyText | packages/mcpServer/src/negotiation/agreedPriceRegistry.ts:53-55 | the key is buyer, SKU and quantity with bars between |
| AgreedPrices.AgreedPriceRegistry.ForgetLapsed | packages/mcpServer/src/negotiation/agreedPriceRegistry.ts:99-105 | drops exactly the lapsed agreements |
| AgreedPrices.AgreedPriceRegistry.Record | packages/mcpServer/src/negotiation/agreedPriceRegistry.ts:61-72 | prunes, then stores the agreement for 300 seconds |
| AgreedPrices.AgreedPriceRegistry.Lookup | packages/mcpServer/src/negotiation/agreedPriceRegistry.ts:75-84 | answers with an unlapsed agreement under the key, or nothing |
| AgreedPrices.AnswersAsIfNeverPruned | packages/mcpServer/src/negotiation/agreedPriceRegistry.ts:53-105 | over every run on an advancing clock the registry answers like a never-pruned map keyed by the three fields, if buyer ids have no separator |
| IssuedQuotes.IssuedQuoteRegistry.ForgetLapsed | packages/mcpServer/src/inventory/issuedQuoteRegistry.ts:118-125 | drops exactly the quotes lapsed beyond the grace |
| IssuedQuotes.IssuedQuoteRegistry.Record | packages/mcpServer/src/inventory/issuedQuoteRegistry.ts:77-80 | prunes, then stores the quote under its hash |
| IssuedQuotes.IssuedQuoteRegistry.Verify | packages/mcpServer/src/inventory/issuedQuoteRegistry.ts:82-103 | in this order: unknown hash, expired more than 2 seconds, another SKU, quantity or buyer, issued |
| IssuedQuotes.HoldsWhatIsNotForgotten | packages/mcpServer/src/inventory/issuedQuoteRegistry.ts:118-125 | the registry holds exactly the quotes ever recorded that the last write did not sweep away |
| IssuedQuotes.VerdictAsIfNeverPruned | packages/mcpServer/src/inventory/issuedQuoteRegistry.ts:77-125 | over every run verdicts are those of a never-pruned registry, except that an expired quote swept by the last write is unknown |
| Gstin.ComputeGstinChecksum | packages/mandateEngine/tax/gstinValidator.py:21-51 | the loop computes the letter of the check code, or refuses exactly the malformed prefixes |
| Gstin.SingleErrorDetected | packages/mandateEngine/tax/gstinValidator.py:40-51 | changing one character to another always changes the checksum |
| Gstin.TranspositionDetected | packages/mandateEngine/tax/gstinValidator.py:40-51 | swapping neighbours changes the checksum unless they are equal or are 0 and Z |
| Gstin.ValidateGstin | packages/mandateEngine/tax/gstinValidator.py:54-73 | accepts exactly the numbers with the statutory shape and the right check character |
| Gstin.ShapeByPosition | packages/mandateEngine/tax/gstinValidator.py:54-73 | the pattern position by position: state code, five letters, four digits, letter, entity, Z, check character |
| Gstin.KnownNumber | packages/mandateEngine/tax/gstinValidator.py:21-73 | 27AAPFU0939F1Z is a valid number with V after it and with no other check character |
| Gstin.NoSingleError | packages/mandateEngine/tax/gstinValidator.py:54-73 | two valid numbers never differ in a single character |
| Gstin.NoTransposition | packages/mandateEngine/tax/gstinValidator.py:54-73 | swapping two different neighbours never leads from one valid number to another |

## Left out

- Time to live of the spend, cart-claim, tombstone, idempotency and lock keys: runs are taken to finish before these lapse; only the nonce's is modelled.
- Redis outages and the branches that then fail open; a missing settlement ledger or queue is modelled.
- Live HTTP calls, the evidence order, HTML rendering, telemetry, routes and tools: they do not affect a settlement's outcome.
- Process crashes between popping an event and putting it back; the code has no recovery for them.
- Event records, notes, reasons and metadata of compensation events, and the text of error messages.
- Ed25519, SHA-256 and HMAC: the signature verdict and the hash are parameters.
- UTF-8 encoding of canonical text, sets inside payloads, and the TypeScript canonicaliser.
- Integers beyond 2^53 print as Python prints them, not as RFC 8785 would round them.
- Backoff delays and sleeping between retries.
- Identifier generation: fresh transfer ids and lock tokens are parameters.
- `strip` and `upper` on a GSTIN prefix, and case folding of categories and promo codes, are applied before the model or are parameters.
- Rounding modes other than FLOOR, keyword aliases, route splits, spending-cap evaluation and rupee parsing of the enclave.
- Catalogue upserts, which overwrite stock, and JavaScript's floating-point range: prices and quantities are mathematical integers.
- Labels of applied discounts and the optional fields of an evaluated promotion.
- Order in which a sweep visits lapsed reservations: any order, the result being the same for all.
- The negotiation gateway, the healer and the merchant API: not part of this model.
- CompensationSafety.NeverDroppedNeverReversedTwice: a queue set to zero retries, whose events the code's schema refuses, is not run as a protocol; `Rollback.NothingLost` says that every failed reversal is then lost.
- InMemoryAtomicLocker.SweepNext, ReleaseLapsed and TakeLock are parts of the sweep and of executeLock that the original writes inline.
- TwoPhaseCommitSaga.ConsumeAndCapture and CompleteSettlement are parts of the two phases that the original writes inline.
- SettlementOrchestrator is merged into the saga class that it wraps.
