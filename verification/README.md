# AgentPay: a verified model of its state machines

AgentPay is a commerce back end. Its records are guarded by optimistic concurrency: a
service reads a record, decides, writes on a condition, and re-reads when the write
loses. This project models those protocols, the sequential machines beside them and
the validator at the edge, and proves what they keep over every input and every run.

Each protocol is a world of stored records and running calls. Every read, decision,
conditional write and re-read is one step, and a run is any sequence of steps, so any
number of callers interleave anywhere. The conditional writes are those of
internal/persistence/memory. Objects that the source updates in place are classes whose
methods are proved equal to the functions the runs are built from. Loops over Go maps
visit the map in an arbitrary order.

| file | models |
|---|---|
| Foundations, Decimal, Sorting | options and results, Go's white space and string order, zero-padded decimals, sorting that forgets input order |
| Entitlement, EntitlementStore | one reconciliation of a seller's entitlement; the store of its versions and the service on it |
| Credentials, SellerHistory | integration credentials; one seller's whole history: reconcile, issue, rotate, revoke, exchange, accept |
| EpochFence, RotationChains, RotationAnswers | what the entitlement epoch guarantees; what credential rotation with replay guarantees, and what it answers |
| Asks, TokenLife | what the callers of a run asked for; which tokens exist, and when their state check passes |
| ProviderEvents, EventRetries, EventAttempts | provider events reconciled with bounded retry against competing writers; what white space in an identifier does to retries; when a call retries and gives up |
| Intents, ConfirmationGrants, BrowserPurchase, BrowserAnswers | cancel, expire and claim of an intent; one-time grants; purchase sessions with recovery, and what their calls answer |
| EvidenceChain, EvidenceRecorder | the signed evidence chain; concurrent recorders over a create-if-absent object store |
| InputValidation, InputValidator, ClosedSchemas | the JSON validator, what it decides, how it runs, and the schemas it serves |
| ScopeClaims, KeyRing, WholeToken | the scope claim; signing keys with overlap; history and keys together and the acceptance of a whole token |
| Delivery | webhook retry scheduling, its stored form, and the service calls between them |
| SalesAggregation | newest transaction snapshots grouped into sorted sales buckets |
| Slugs | product slug normalization |

Hashes, signatures and secrets are symbolic: a hash stands for what it hashes, a
signature for its key and message, and the evidence chain takes an arbitrary hash
function and signer with the assumption each result needs. Times are nanosecond counts,
amounts are natural numbers, and 32-bit and 64-bit counters wrap where the source's do
(entitlements, deliveries, evidence sequences, token lifetimes).

Where code and expectation part, the code is followed and the difference proved:

- `Append` refuses an empty key id or signature, `VerifyChain` refuses blank ones; a
  signer that returns a space builds chains that never verify
  (`EvidenceChain.BlankKeyIdIsRefusedLate`, exact in `AppendedChainAcceptedIff`).
- A delivery attempted after five attempts cannot be restored from storage
  (`Delivery.RestoresIff`). Every service call loads through storage, so a delivery stops
  at six attempts (`Delivery.StorageBoundsAttempts`); only an object kept in memory could
  fill its 32-bit attempt counter, and then a retryable failure indexes out of range
  (`Delivery.PanicsIff`).
- Cancelling a ready intent reports a conflict exactly when the caller's clock is behind
  the creation time (`Intents.ConflictOnReadyIffClockBehind`).
- The name of a provider event is stored trimmed but compared untrimmed, so a retried
  event with white space at its ends is reconciled again
  (`EventRetries.UntrimmedEventIsReconciledAgain`, exact in `RetrySettlesIffTrimmed`).
- The 1001st evidence event of a transaction is stored and then freezes the chain,
  because 1001 objects can no longer be listed (`EvidenceRecorder.FullChainIsFrozen`,
  reached in `FullChainIsReachable`).
- Whether sales snapshots aggregate at all depends on their order, unless they are
  consistent (`SalesAggregation.SuccessDependsOnOrder`, exact in
  `SucceedsInEveryOrderIff`); what they aggregate to does not.
- The time of an entitlement update may go backwards
  (`Entitlement.UpdateTimeCanMoveBack`, exact in `UpdateTimeMovesBackIff`).

## Model

| member | source | states |
|---|---|---|
| Entitlement.NormalizeCandidateAtBoundary | internal/billing/service.go:320-342 | the two in-place updates end in the one-step ageing of a candidate: access, then grace for payment trouble, then suspension, or cancellation at period end |
| Entitlement.ReconcileSellerEntitlement | internal/billing/service.go:217-281 | the source's reassigned locals compute the reconciliation function, with every refusal |
| Entitlement.AdvanceEntitlement | internal/billing/service.go:235-281 | epoch, version, rotation flag and assignment time are advanced as specified once the effective candidate is known |
| Entitlement.ReconcileStep | internal/billing/service.go:217-281 | from a well-formed entitlement every successful reconciliation stores the trimmed effective candidate, moves version and revision by one together, moves the epoch exactly on a status change or entry into fraud quarantine while suspended, and names the triggering event |
| Entitlement.QuarantineHolds | internal/billing/service.go:217-234 | no candidate of the billing provider changes a fraud quarantine: the stored terms stay but for the event name, and so does the epoch |
| Entitlement.CandidateIsStored | internal/billing/service.go:217-281 | where the candidate decides, every stored field is given outright: plan, period and access are its own, status and reason its aged ones case by case, grace, epoch, rotation flag, assignment and times as spelled out |
| Entitlement.RevisionRoundTrip | internal/billing/service.go:359-369 | the 20-digit printer and the parser undo each other below 2^64 |
| Entitlement.ValidRevisionIffPrinted | internal/billing/service.go:392-398 | a string is a valid source revision exactly when it is the print of some number from 1 to 2^64 - 1 |
| Entitlement.RevisionOrder | internal/billing/service.go:359-369 | revision strings compare as the numbers they spell |
| Entitlement.RestoreIsIdentity | internal/billing/service.go:155-213 | validating an already validated entitlement changes nothing |
| Entitlement.RevisionExhaustedIff | internal/billing/service.go:359-369 | a reconciliation is refused for its revision exactly at the largest version, so version and epoch never wrap |
| Entitlement.TimeCoherence | internal/billing/service.go:320-342 | ageing a candidate at t1 and then at a later t2 is ageing it once at t2 |
| Entitlement.CarryForwardDependsOnLastTime | internal/billing/service.go:316-342 | carrying the stored state forward through any nondecreasing times leaves terms that depend only on the last time, except for closed and quarantined sellers, whose status never moves |
| Entitlement.AdvanceSucceedsIff | internal/billing/service.go:235-281 | on valid terms a step is refused exactly by an exhausted revision or a time before the kept assignment |
| Entitlement.CarryForwardSucceedsIff | internal/billing/service.go:316-318 | carrying forward is refused exactly by a missing time, a time before the assignment, or an exhausted revision |
| Entitlement.ReconcileSucceedsIff | internal/billing/service.go:217-281 | from a well-formed entitlement a reconciliation succeeds exactly at a non-zero time, on valid effective terms, below the largest version, and not before the kept plan assignment unless the plan changes |
| Entitlement.UpdateTimeMovesBackIff | internal/billing/service.go:235-257 | the update time moves backwards exactly when the reconciliation time is earlier and the reconciliation succeeds |
| Entitlement.UpdateTimeCanMoveBack | internal/billing/service.go:235-257 | both causes occur: carrying forward at any earlier time from the assignment on, and changing the plan at any earlier time |
| Entitlement.FirstReconcileSucceedsIff | internal/billing/service.go:217-281 | a seller's first reconciliation succeeds exactly on valid aged terms at a non-zero time |
| EntitlementStore.EntitlementRepository.Apply | internal/persistence/memory/seller_plans.go:39-68 | the conditional write commits exactly under its conditions and then replaces entitlement and reconciliation record |
| EntitlementStore.BillingService.ReconcileEntitlement | internal/billing/service.go:100-133 | uninterrupted, it stores the reconciled entitlement as the next version exactly when the reconciliation succeeds, never conflicts, and reports a failed audit or invalidation although the version is stored |
| EntitlementStore.WriteCommitsIffUnchanged | internal/billing/service.go:100-133 | a write computed from the version read commits exactly when nothing was committed since, and extends a valid history |
| EntitlementStore.EpochsAscend | internal/billing/service.go:235-257 | epochs never decrease along a history |
| EntitlementStore.EqualEpochsSameStatus | internal/billing/service.go:352-357 | two versions of one epoch have one status, and so has every version between them |
| EntitlementStore.ActiveStretchKeepsEpoch | internal/billing/service.go:352-357 | an unbroken stretch of active versions keeps its epoch |
| EntitlementStore.ClosedForGood | internal/billing/service.go:217-234 | once a version is closed every later version is closed on the same terms up to the name of the last event |
| EntitlementStore.QuarantineUntilOtherSource | internal/billing/service.go:223-226 | along a history a quarantine keeps terms and epoch until a version that another source than the billing provider stored |
| Credentials.Credential.RecordUse | internal/integrations/service.go:695-707 | the in-place update is the specified one; a revoked credential or an earlier time is refused unchanged |
| Credentials.Credential.MarkRevoked | internal/integrations/service.go:722-738 | the in-place revocation is the specified one |
| Credentials.Credential.ReplaceWith | internal/integrations/service.go:709-720 | revocation with a successor is the specified one |
| EpochFence.AcceptedOnlyWhileActive | internal/authorization/access_tokens.go:209-290 | in every run an accepted token's seller was active in every version from the one its credential was stamped from to the one read at acceptance |
| EpochFence.TokenAdmittedIffActiveSince | internal/authorization/access_tokens.go:248-290 | in every run the entitlement check admits a token exactly when every version since the stamp is active and access has not ended |
| EpochFence.AcceptanceIff | internal/integrations/service.go:643-658 | the same from any state that satisfies the fence |
| EpochFence.DeadForever | internal/integrations/service.go:947-959 | after one version that is not active, no later step accepts a token of an older credential against that version or a newer one |
| EpochFence.VersionsInEveryRun | internal/billing/service.go:217-281 | in every run from no entitlement, version i carries number i, its revision spells i, 1 <= epoch <= version below 2^64, and equal epochs enclose one status |
| EpochFence.ClosedInEveryRun | internal/billing/service.go:217-234 | the same over every run of the seller's history |
| EpochFence.QuarantineInEveryRun | internal/billing/service.go:223-226 | the same over every run of the seller's history |
| EpochFence.RunKeepsFence | internal/authorization/access_tokens.go:149-207 | every run of reconcile, issue, rotate, revoke, exchange and accept keeps stamps, epochs and tokens consistent with the stored versions |
| TokenLife.CredentialAdmitsIffLive | internal/authorization/access_tokens.go:248-268 | in every run a token's scopes and epoch are its credential's, so the credential check admits it exactly while the credential is neither revoked nor expired |
| TokenLife.AcceptedIff | internal/authorization/access_tokens.go:230-290 | an uninterrupted state check of an issued token succeeds exactly when its credential is live and its seller was active in every version since the stamp, before access ends |
| TokenLife.RevokedIsDead | internal/authorization/access_tokens.go:248-268 | once a credential is revoked or replaced no later step starts to accept its tokens, starts an exchange of it, or lets an exchange in progress pass its last check |
| TokenLife.TokenNeedsSecret | internal/integrations/service.go:548-613 | in every run a token exists only for a stored credential, and only if some exchange of it presented exactly the stored secret and asked for exactly the token's scopes, which are supported, distinct, granted and without the scope to rotate |
| TokenLife.ExchangeIssuesIff | internal/integrations/service.go:583-641 | in every run an uninterrupted exchange adds exactly the token asked for if the secret matches, the credential is live, the scopes are granted and the seller was active since the stamp, before access ends; and no token otherwise |
| WholeToken.AuthorizedIff | internal/authorization/access_tokens.go:209-290 | in every run of history and key ring together a whole token is accepted exactly when an exchange signed it, it has not expired, its credential is live and its seller was active in every version since the stamp, before access ends |
| RotationChains.RotationsFormChains | internal/integrations/service.go:295-410 | in every run, successors never return to an earlier credential, every member of a chain but the last is revoked, and chains that meet have one root |
| RotationChains.SuccessorIsFinal | internal/integrations/service.go:709-720 | a replaced credential's record never changes again, so it has one successor |
| RotationChains.RetryIsAnsweredFromRecord | internal/integrations/service.go:412-433 | once a rotation is recorded, a call with its key gets: a conflict for another body, the same rotation inside the window, the successor's name after it; and the recorded token stays the successor's stored secret |
| RotationChains.OneRotationPerKey | internal/integrations/service.go:295-433 | all calls that return a rotation under one key return the same one; it is in force, and its token is the secret stored for its successor |
| RotationAnswers.RotationIsAsAsked | internal/integrations/service.go:348-386 | in every run a returned rotation is what a rotation among the actions asked for: token, identifier and time, and name, scopes and expiry where given, the predecessor's where not |
| RotationAnswers.RotationCommitsIff | internal/integrations/service.go:295-410 | in every run an uninterrupted rotation under a new key commits exactly when the predecessor is live at the version named and an acceptable successor exists, and stores that one; otherwise no credential changes |
| RotationChains.RunKeepsChains | internal/persistence/memory/integration_credentials.go:98-147 | every run keeps one predecessor per credential, one content per version and replays that describe rotations in force |
| ProviderEvents.AppliedNamesEvent | internal/billing/provider_events.go:165-221 | in every run, the entitlement version at which an event is marked applied exists and names the event as its last one |
| ProviderEvents.StoredOnlyAfterUnnamedCheck | internal/billing/provider_events.go:185-215 | every version an event stored was preceded by a look at an older version that did not name the event |
| ProviderEvents.OneHolder | internal/persistence/memory/provider_events.go:53-74 | at most one call works on an event at any moment, within three attempts |
| ProviderEvents.AppliedForGood | internal/persistence/memory/provider_events.go:76-117 | an applied event keeps its mark and version in every continuation unless it is quarantined |
| EventRetries.RetrySettlesIffTrimmed | internal/billing/provider_events.go:193-199 | in every run, when the newest version is one the event stored, a retry is settled there exactly if the identifier has no white space at its ends, and is reconciled again otherwise |
| EventRetries.SettledOnlyIfTrimmed | internal/billing/provider_events.go:193-199 | in every run a retry settles only at a version that names the event, and never for an identifier with white space at its ends |
| EventRetries.StoredTwiceOnlyIfOverwritten | internal/billing/provider_events.go:185-215 | in every run, before one event stores a second version its reconciliation looked at a version from the first on that did not name it; so a trimmed event is stored twice only when a version between names another |
| EventRetries.UntrimmedEventIsApplied | internal/billing/provider_events.go:126-221 | a run ingests and applies any non-blank event with white space at its ends, at a version that names another identifier |
| EventRetries.UntrimmedEventIsReconciledAgain | internal/billing/provider_events.go:126-221 | after an attempt that stored a version and failed, the retry of such an event stores a second version for it |
| EventRetries.TrimmedEventIsSettledByRetry | internal/billing/provider_events.go:193-199 | a trimmed event is instead settled by its retry at the version already stored |
| EventRetries.SuchCandidatesExist | internal/billing/provider_events.go:186-193 | provider states for these runs exist at every time, for every seller |
| EventAttempts.LostWriteIsRetried | internal/billing/provider_events.go:206-220 | in every run a lost write stores nothing and moves the call to its next attempt, the event staying in processing, until the third gives up |
| EventAttempts.AttemptCountsLosses | internal/billing/provider_events.go:185-208 | in every run the attempt a call is at is the number of its lost writes |
| EventAttempts.GivingUpHasCause | internal/billing/provider_events.go:185-220 | in every run a call that gives up did so at an action with a cause: a failed read, a refused reconciliation, a failed audit, or a third lost write |
| EventAttempts.UndisturbedAttemptApplies | internal/billing/provider_events.go:185-221 | in every run a call at any attempt, after as many lost writes, applies its event at the next version if nothing disturbs it |
| Intents.PurchaseIntent.DoCancel | internal/intents/service.go:207-226 | the in-place transition is the specified one, errors leaving the intent unchanged |
| Intents.PurchaseIntent.DoExpire | internal/intents/service.go:228-238 | the in-place transition is the specified one |
| Intents.PurchaseIntent.DoClaim | internal/intents/service.go:240-256 | the in-place transition is the specified one |
| Intents.OneTerminalState | internal/intents/service.go:207-325 | over every interleaving and any clock, the stored versions are the created intent and at most one terminal successor, which is the stored one for good |
| Intents.ReportedResultsHold | internal/intents/service.go:258-325 | in every run what finished cancel and claim calls reported is true of the stored intent: returned means cancelled, expired means expired, conflict means executed or approval-pending or a clock behind creation |
| Intents.ConflictOnReadyIffClockBehind | internal/intents/service.go:258-325 | a conflict is reported on a ready intent exactly when the caller's clock is behind its creation |
| Intents.CancelledXorExecuted | internal/payments/service.go:239-265 | no run holds both a returned cancellation and a claim that proceeded |
| Intents.CancelledOnlyByBuyerInTime | internal/intents/service.go:258-325 | in every run a cancelled intent was asked for by its own buyer and carries a cancellation time between creation and expiry |
| Intents.CancelAnswers | internal/intents/service.go:258-325 | in every run an uninterrupted cancel answers only the buyer, cancels a ready intent from creation until expiry, expires it after, and otherwise reports the stored state |
| Intents.ClaimAnswers | internal/payments/service.go:239-325 | in every run an uninterrupted claim executes a ready intent from creation until expiry, expires it after, and otherwise reports the stored state |
| ConfirmationGrants.GrantRepository.CreateReplacing | internal/persistence/memory/confirmation_grants.go:24-42 | issuing revokes an unused grant of the same binding and stores the new one |
| ConfirmationGrants.GrantRepository.Consume | internal/persistence/memory/confirmation_grants.go:54-68 | the write is accepted exactly at the expected version of an unused, unsuperseded grant |
| ConfirmationGrants.OneKeyPerGrant | internal/authorization/confirmation_grants.go:235-298 | in every run all successful calls on one grant carry the same credential and key, and the grant is consumed by exactly that key and not revoked |
| ConfirmationGrants.GrantedOnlyOnProof | internal/authorization/confirmation_grants.go:235-266 | in every run a successful call presented the grant's own secret and binding before its expiry, under a valid key |
| ConfirmationGrants.ConsumeAnswers | internal/authorization/confirmation_grants.go:235-298 | in every run an uninterrupted call is granted exactly for the secret and binding of an unexpired, unrevoked grant under a valid key that is unconsumed or consumed under this key, a replay exactly under another key, and is written down once |
| ConfirmationGrants.ConsumedAtMostOnce | internal/authorization/confirmation_grants.go:267-298 | the consuming write of a grant happens at most once in any run |
| ConfirmationGrants.UsedGrantIsFinal | internal/authorization/confirmation_grants.go:155-298 | a consumed or revoked grant never changes again |
| BrowserPurchase.SessionRepository.ClaimTransaction | internal/persistence/memory/browser_purchase_sessions.go:101-121 | the atomic claim updates the maps as the protocol step does |
| BrowserPurchase.SessionRepository.Complete | internal/persistence/memory/browser_purchase_sessions.go:123-135 | the conditional completion updates the maps as the protocol step does |
| BrowserPurchase.SessionRepository.Recover | internal/persistence/memory/browser_purchase_sessions.go:160-181 | the conditional recovery updates sessions, index and challenges as the protocol step does |
| BrowserPurchase.OneTransactionPerSession | internal/browserpurchase/service.go:191-257 | in every run and continuation all successful claims and completions of a session name the one stored transaction |
| BrowserPurchase.CompletedIsFinal | internal/browserpurchase/service.go:215-257 | a completed session keeps status, wallet, transaction and an access period of at least thirty days from creation, and under no grant, index or time gives commerce authority |
| BrowserPurchase.ChallengeSpentOnce | internal/browserpurchase/service.go:309-388 | each challenge is spent at most once, and every committed recovery presented a proof by the session's bound wallet over exactly that challenge's message, before the challenge and the access period expired |
| BrowserPurchase.RecoveryKillsEarlierGrants | internal/browserpurchase/service.go:364-388 | after a recovery every grant the session held before is refused whatever the index still says; without one the grant is unchanged |
| BrowserPurchase.AuthorizedIffCurrentGrant | internal/browserpurchase/service.go:141-181 | in every run a grant is authorized exactly when some session holds it now, is in time for the authority, and equals whatever seller, route, slug, body hash, amount and transaction the requirement names |
| BrowserPurchase.AuthorizedForItsTransaction | internal/browserpurchase/service.go:401-416 | under any index an authorization speaks of a session that holds the grant and is bound to the transaction, seller and route named |
| BrowserPurchase.OthersTransactionIsRefused | internal/browserpurchase/service.go:401-416 | in every run no grant of one session is admitted for a transaction that only another session is bound to |
| BrowserAnswers.ClaimAnswers | internal/browserpurchase/service.go:191-213 | an uninterrupted claim succeeds exactly on an active, unexpired session not bound to another transaction, and binds it |
| BrowserAnswers.CompleteAnswers | internal/browserpurchase/service.go:215-257 | in every run an uninterrupted completion succeeds exactly if the session was completed just so or is ready to be, and then stores it as asked |
| BrowserAnswers.RecoverAnswers | internal/browserpurchase/service.go:309-388 | in every run an uninterrupted recovery succeeds exactly on a readable completed session with an unused unexpired challenge and the bound wallet's proof of it, and then replaces the grant and spends the challenge |
| EvidenceChain.VerifyChain | internal/evidence/service.go:272-311 | accepts exactly the valid chains, and blames the verifier exactly when the first bad event passes all but an unavailable signature check |
| EvidenceChain.SameTipSameChain | internal/evidence/service.go:333-376 | with an injective hash, accepted chains with one last hash have equal length and equal hashed fields at every position |
| EvidenceChain.TamperingShows | internal/evidence/service.go:426-447 | any change of length or of a hashed field changes the last hash or makes the chain unacceptable |
| EvidenceChain.AppendExtends | internal/evidence/service.go:240-269 | appending to a valid chain under a correct signer gives a valid chain exactly when key id and signature are not blank |
| EvidenceChain.AppendedChainAcceptedIff | internal/evidence/service.go:240-311 | a chain built by Append under a correct signer is accepted exactly when no key id or signature is blank |
| EvidenceChain.AppendedChainAccepted | internal/evidence/service.go:240-311 | with a correct signer that never returns blanks every chain built by Append is accepted |
| EvidenceChain.BlankKeyIdIsRefusedLate | internal/evidence/service.go:255-263 | a correct signer with a one-space key id: Append accepts, VerifyChain does not |
| EvidenceChain.LocalSignerIsCorrect | internal/evidence/service.go:181-237 | a constructed local signer is correct, never blank, and accepts only its own signatures |
| EvidenceChain.AppendSucceedsIff | internal/evidence/service.go:240-269 | exactly which parameters and signatures Append accepts, and every field of the event it makes |
| EvidenceRecorder.KeyOrder | internal/evidencestore/s3.go:127-133 | below one million, keys of a transaction sort and differ as their sequence numbers do |
| EvidenceRecorder.KeyOwner | internal/evidencestore/s3.go:127-133 | a key lies under the listing prefix of its own transaction only |
| EvidenceRecorder.S3Repository.Append | internal/evidencestore/s3.go:44-60 | the put succeeds exactly when the key is absent |
| EvidenceRecorder.S3Repository.ListByTransaction | internal/evidencestore/s3.go:62-103 | the filtering, sorting and loading loops return the specified events or refusal for any listing order |
| EvidenceRecorder.S3Repository.CheckSequence | internal/evidencestore/s3.go:97-102 | accepts exactly events of the transaction numbered from one |
| EvidenceRecorder.StoredObjectsAreOneChain | internal/evidence/service.go:71-172 | in every run of concurrent recorders the objects under a transaction are exactly one contiguous valid chain with at most one challenge and one verification, of at most 1001 events |
| EvidenceRecorder.ListingLoadsChain | internal/evidencestore/s3.go:62-103 | whatever order the store lists in, sorting and loading returns the chain in sequence |
| EvidenceRecorder.ReportsAreTrue | internal/evidence/service.go:71-91 | success reports stay true of the chain for good, and a conflict means a stored event contradicts the fact |
| EvidenceRecorder.FullChainIsFrozen | internal/evidencestore/s3.go:62-71 | a chain of 1001 events never changes again and can no longer be listed |
| EvidenceRecorder.FullChainIsReachable | internal/evidencestore/s3.go:62-71 | under any correct signer that always signs visibly, a run stores 1001 events |
| EvidenceRecorder.LocalSetupFits | internal/evidence/service.go:181-237 | the local signer is such a signer |
| EvidenceRecorder.UninterruptedRecorderRecords | internal/evidence/service.go:143-172 | a recorder that is not interrupted appends its event at any listable length |
| InputValidation.IssuesIffUnsatisfied | internal/catalog/input_validation.go:47-179 | for every schema and value the validator returns no issue exactly when the value satisfies the schema |
| InputValidation.SatisfiesMeans | internal/catalog/input_validation.go:47-179 | a value satisfies a schema object exactly if each keyword read directly from its members holds: const, enum, type, bounds, pattern, format, items, required, declared keys, allOf, anyOf, oneOf |
| InputValidation.TypesDistinguish | internal/catalog/input_validation.go:181-206 | which values each type name matches, exactly; no other name matches any |
| InputValidation.CompositionsAgree | internal/catalog/input_validation.go:147-179 | the composition issues are empty exactly when all of allOf, one of anyOf and exactly one of oneOf is satisfied |
| InputValidation.ValuesAgree | internal/catalog/input_validation.go:74-144 | the issues for one kind of value are empty exactly when its bounds, required keys, declared keys and children are satisfied |
| InputValidator.ValidateValue | internal/catalog/input_validation.go:47-145 | the loops return exactly the specified issue list for any map iteration order, empty exactly when the schema is satisfied |
| InputValidator.ValidateCompositions | internal/catalog/input_validation.go:147-179 | the keyword loop returns the specified composition issues |
| InputValidator.ValidateBody | internal/catalog/input_validation.go:26-45 | a body is accepted exactly when schema and body are readable and the document, or the empty object for an empty body, satisfies the schema |
| InputValidator.SortedNames | internal/catalog/input_validation.go:83-98 | collecting names in any order and sorting gives the one ascending enumeration |
| ClosedSchemas.CheckNode | internal/catalog/product_contract.go:82-166 | the recursive check with its seen map accepts exactly the closed schemas |
| ClosedSchemas.CheckRequired | internal/catalog/product_contract.go:116-134 | required entries pass exactly when they are distinct declared names |
| ClosedSchemas.AcceptedDocument | internal/catalog/product_contract.go:82-166 | under a published schema an accepted document is an object with every required key and no key undeclared by the schema or by any allOf branch |
| ClosedSchemas.RequiredXorUnknown | internal/catalog/input_validation.go:74-95 | under a published schema no field is reported both as required and as unknown |
| ScopeClaims.ValidatedScopes | internal/authorization/access_tokens.go:386-403 | refuses exactly empty, unsupported or repeated scopes, otherwise sorts them |
| ScopeClaims.ScopeClaimRoundTrip | internal/authorization/access_tokens.go:405-424 | the claim written for acceptable scopes reads back as those scopes sorted |
| ScopeClaims.ReadableClaims | internal/authorization/access_tokens.go:405-416 | a claim is readable exactly when it is the joined sorted form of acceptable scopes |
| KeyRing.LocalES256KeyRing.Rotate | internal/authorization/access_tokens.go:475-487 | rotation retires the current key for the maximum lifetime and prunes the others |
| KeyRing.LocalES256KeyRing.VerificationKey | internal/authorization/access_tokens.go:512-525 | finds exactly the current key or an unexpired retired one, pruning on the way |
| KeyRing.LocalES256KeyRing.ActiveRetired | internal/authorization/access_tokens.go:538-547 | the filter loop keeps exactly the unexpired keys in order |
| KeyRing.IssuedClaimsValidIff | internal/authorization/access_tokens.go:318-344 | the claims of an exchange are valid from issue until expiry and then expired, exactly when issued after the Unix epoch |
| KeyRing.KeyFoundIff | internal/authorization/access_tokens.go:475-547 | in every run a key is found exactly while current or retired less than the maximum lifetime ago |
| KeyRing.RetiredKeyVerifiesNothing | internal/authorization/access_tokens.go:512-547 | once the maximum lifetime has passed since retirement a key is never found again |
| KeyRing.IssuedTokenAcceptedUntilExpiry | internal/authorization/access_tokens.go:172-206 | in every run with any number of rotations an issued token finds its key and passes the claim checks exactly until it expires |
| KeyRing.IssueAnswers | internal/authorization/access_tokens.go:172-206 | an uninterrupted issue signs, under the current key, exactly the claims of what was asked for, if audience, lifetime and scopes are right, and nothing otherwise |
| Delivery.WebhookDelivery.RecordSuccess | internal/notifications/delivery_models.go:158-180 | the field updates are the specified ones, refusals leaving the delivery unchanged |
| Delivery.WebhookDelivery.RecordFailure | internal/notifications/delivery_models.go:183-216 | the field updates and the retry policy are the specified ones |
| Delivery.WebhookDelivery.ScheduleRedelivery | internal/notifications/delivery_models.go:219-231 | only a dead letter becomes pending again, not before its last update |
| Delivery.SchedulerKeeps | internal/notifications/delivery_models.go:106-239 | in every run a next attempt exists exactly while pending or scheduled, delivered is final, update times never decrease |
| Delivery.AttemptsBounded | internal/notifications/delivery_models.go:183-216 | on an object kept in memory, attempts never exceed five plus the redeliveries while those leave room in the 32-bit counter |
| Delivery.FifthAttemptWaits | internal/notifications/delivery_models.go:106-111 | without redeliveries the fifth attempt is the last and comes no earlier than 156 minutes after creation |
| Delivery.PanicsIff | internal/notifications/delivery_models.go:203-215 | the delay index leaves its range exactly for a retryable failure on a due delivery with a full 32-bit counter |
| Delivery.RetryPolicy | internal/notifications/delivery_models.go:183-216 | timeouts, unavailable endpoints and retryable responses are tried again after 1, 5, 30 and 120 minutes up to the fourth attempt; every other failure, and the fifth, is a dead letter |
| Delivery.DueAttemptIsRecorded | internal/notifications/delivery_models.go:158-202 | failures and successes are recorded exactly on a due delivery with a listed code, a status in the two hundreds, and an acceptable hash |
| Delivery.NoPanicWithinCounter | internal/notifications/delivery_models.go:203-215 | on an object kept in memory, no run with fewer redeliveries than the counter has room for panics |
| Delivery.PanicIsReachable | internal/notifications/delivery_models.go:203-215 | an object kept in memory, never stored and loaded, can be driven to the panic |
| Delivery.StorageBoundsAttempts | internal/notifications/delivery_service.go:144-246 | over every interleaving of service calls, which load through storage and write at the loaded version, at most six attempts are stored, no counter wraps and no call panics, with any number of redeliveries |
| Delivery.UnreadableIsFrozen | internal/persistence/memory/webhook_deliveries.go:52-83 | a stored delivery is unreadable exactly after its sixth attempt, and then no call changes it again |
| Delivery.SixAttemptsAreReachable | internal/notifications/delivery_service.go:144-246 | a run through storage delivers on the sixth attempt and leaves a delivery that can no longer be loaded |
| Delivery.RestoresIff | internal/notifications/delivery_persistence.go:26-81 | restoring the snapshot of a reachable delivery returns it exactly when it has at most five attempts or is pending, its version is not zero and its update time is not the zero time |
| Delivery.AttemptAfterFiveIsLost | internal/notifications/delivery_persistence.go:60-69 | every attempt recorded on a delivery with five or more attempts yields a snapshot that storage refuses |
| Delivery.UnstorableIsReachable | internal/notifications/delivery_persistence.go:60-69 | a delivered delivery that storage refuses is reachable |
| SalesAggregation.NewestTransactions | internal/analytics/service.go:248-275 | the loop returns the specified newest snapshots or the first refusal |
| SalesAggregation.NewestIsMaximal | internal/analytics/service.go:248-302 | every id maps to one of its snapshots, of maximal version, agreeing with the others on immutable fields and with its equals on reported facts |
| SalesAggregation.SucceedsInEveryOrderIff | internal/analytics/service.go:248-302 | snapshots aggregate in every order and repetition exactly when all are the seller's, those of one id agree on the immutable fields and those of one id and version on the reported facts |
| SalesAggregation.SuccessDependsOnOrder | internal/analytics/service.go:260-273 | one order of three snapshots succeeds, another is refused |
| SalesAggregation.AggregateSeller | internal/analytics/service.go:81-149 | the map loops return the specified sorted rows for any iteration order |
| SalesAggregation.AggregatesIgnoreOrder | internal/analytics/service.go:81-149 | inputs with the same snapshots in any order and repetition that both succeed give the same sorted aggregates |
| SalesAggregation.AggregateRows | internal/analytics/service.go:81-149 | the returned rows ascend strictly by key; a key has a row exactly when some newest snapshot falls into it, with their number, summed amount and latest update; and route rows sum to the all-routes row |
| SalesAggregation.BucketsReport | internal/analytics/service.go:91-125 | a bucket exists exactly when a transaction falls into it and holds their number, summed amount and latest update time |
| SalesAggregation.RoutesSumToAllRoutes | internal/analytics/service.go:91-125 | per day, asset, network and stage the route buckets sum in count and amount to the all-routes bucket, and neither exists without the other |
| SalesAggregation.KeyLessIsStrictOrder | internal/analytics/service.go:131-148 | the comparison of the sort is a strict total order on bucket keys |
| SalesAggregation.StageMembers | internal/transactions/service.go:503-520 | which statuses and finality each reporting stage holds, exactly |
| SalesAggregation.DayMeans | internal/analytics/service.go:95 | a transaction belongs to a day exactly if it was created within its 24 hours |
| Slugs.NormalizeProductSlug | internal/catalog/service.go:1446-1470 | the scanning loop returns the lowered words joined by hyphens, refused exactly for a character that is neither alphanumeric nor a separator |
| Slugs.LegacySlugBase | internal/catalog/service.go:1501-1516 | the scanning loop returns the maximal alphanumeric runs joined by hyphens |
| Slugs.LegacyProductSlug | internal/catalog/service.go:1484-1499 | the reassignments of base and suffix compute the specified slug |
| Slugs.PatternIffShape | internal/browserpurchase/models.go:25 | runs joined by single hyphens are exactly the strings without a hyphen first, last or doubled |
| Slugs.NormalizedShape | internal/catalog/service.go:1446-1470 | a non-empty normalized slug matches the pattern |
| Slugs.NormalizeFixedIff | internal/catalog/service.go:1446-1470 | the fixed points of normalization are the empty string and the slugs |
| Slugs.NormalizeIdempotent | internal/catalog/service.go:1446-1470 | normalizing twice is normalizing once |
| Slugs.LegacySlugValid | internal/catalog/service.go:1484-1499 | for every display name and well-formed route identifier the legacy slug matches the pattern with 3 to 80 characters |
| Slugs.LegacySlugContent | internal/catalog/service.go:1484-1516 | the legacy slug is the hyphenated words of the display name, whole from 3 to 70 characters, cut if longer, a stand-in if shorter, and the last nine characters of the route identifier |

## Left out

- HTTP controllers, middleware, cookies, health checks, Lambda handling, AWS adapters and wiring: plumbing around the modelled logic.
- Cryptography and encodings (SHA-256, HMAC, ES256, AES-GCM, KMS, base64, canonical JSON): symbolic or arbitrary functions.
- Error message texts, audit events (but for the audit failure inside an entitlement write), rate limits and quotas.
- Identifiers are a prefix and a body; the check that the body is a canonical ULID is reduced to its length where a result needs it.
- Wrap-around of the 64-bit versions of credentials, intents, grants and provider events, and of bucket counts: unbounded here.
- Provider customer, subscription and price identifiers are reduced to whether all are present; the entitlement snapshot hash is not modelled.
- That a provider event is reconciled exactly once, that a lapsed access period moves the epoch, and that entitlement update times are monotone: none of these holds of the code, and none is claimed.
- Idempotent creation of browser purchase sessions, CSRF tokens, and wallet text normalization: wallets enter normalized, and each session is created once.
- Token and key generators are assumed never to repeat a value; a repeated one is not a step.
- Regular expressions, string formats, and the reading of JSON numbers as integers and rationals are arbitrary functions; numbers are compared by spelling, as the source compares their encodings.
- Parsing of JSON documents and request bodies, and media type parsing: bodies enter as empty, malformed or a document.
- Evidence payloads are their canonical JSON text, and object sizes are not bounded.
- Bucket dates are day numbers rather than formatted dates; AggregateResponses and the paging of the dashboard summary, which add no harder property.
- Unicode lower-casing in legacy slugs is an arbitrary function that is right on ASCII letters and digits.
- Route lifecycle, approvals, agents, settlement, storefront, plan catalog, dispute classification and identity verification: easier than what is modelled, or resting on stores outside these files.
