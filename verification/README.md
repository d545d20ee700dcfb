# Verified model of the wallet index, vault ledger, risk checks and hash

This project models the stateful core of the repository in Dafny and proves what it promises. To check it, run
`dafny verify --verification-time-limit 0 --resource-limit 2000000 --warn-contradictory-assumptions dfyconfig.toml`
with Dafny 4.11 in this directory; no proof needs a larger limit.

**The chain index.** The store keeps, for each contract, canonical blocks and events (rolled-back ones stay as
tombstones), a checkpoint with a projection pointer and health, a fenced lease with a target, and tracked wallet
operations. `Lifecycle` holds the eleven-state operation, `ChainTables` each transaction as a function from tables to
tables or an error, and `ChainStore` the store as a class whose methods update the tables with the source's loops and
are proved equal to those functions. `ChainStack`, `ChainRestore` and `ChainEventOrder` say what the tables mean: a
stack of blocks. `ChainRuns` interleaves every store call with the steps that trackers take between awaits;
`ChainSafety`, `ChainReads`, `ChainLease`, `ChainBase` and `ChainEvidence` prove properties of every such run, and
`ChainTracker` says which row each receipt, reconciliation and wallet report leads to.
`ChainRemote` is the remote chain as a node answers about it: fixed or not, reliable or not, with its logs and
projections, and what makes the store accept all of it. `ChainSync` is the synchronizer as a class against that node;
`Tracking` and `ChainRuntime` are the bounded catch-up and the tracking rounds around it, each also run repeatedly.

**The vault ledger and its client.** `Vault` and `VaultLaws` are the fourteen-command money machine and the facts
every reachable vault keeps, `VaultMoves` the same machine as double entry (what each command posts to each account, and
exactly when it is accepted), `VaultLedger` the transition as it runs on an edited copy, `VaultWindDown` a loop of
commands that empties any vault. `LocalLedger` and `LedgerStore` are the service's ledger and its store class;
`ClientWorld` is everything outside one browser tab (requests, duplicates, delays, lost replies, other tabs, cookie
changes), driven by an arbitrary script, `ClientReads` what the client reads and checks, and `ProductClient` the client class that
keeps one pending envelope.

**Risk and permits.** `Risk` evaluates targets against positions, and `RiskNumbers` restates the verdict on the integers
the texts spell; `Permits` checks a signed decision, evaluates it, consumes its nonce and issues a permit, and
`PermitTerms` says exactly which calls get one.

**Arithmetic.** `Money` parses and prints decimals. `Bits` defines the bitwise operations of unbounded integers,
`Keccak`, `KeccakSponge` the in-place permutation, padding, absorbing and squeezing, and `KeccakSteps` and
`KeccakStandard` compare them with the bit-level definitions of FIPS 202 (sections 3.2, 3.3, 4 and 5.1).

Conventions: hexadecimal texts (addresses, hashes) are the numbers they spell; timestamps are integers or malformed;
every SQLite transaction is one atomic step that changes nothing when it throws; a class method is proved against a
specification function, and the laws are proved about that function.

Three findings. The vault's runtime check is not inductive by itself: it admits a pending withdrawal that no receipt
remembers, and a request under that identifier would lose the amount (`CheckAdmitsUnknownWithdrawal`,
`OverwriteIsRefused`); reachable vaults satisfy more (`Reachable`). And not every definitive rejection the client marks settles a command's fate: the ledger answers an
applied command with 404 when, and only when, its retry travels under another owner's cookie
(`AppliedIsRejectedOnlyUnderOtherCookie`), and statuses from outside the ledger mark a record too. A conflict does
settle it, so the guarantee of `DismissRejected` is stated for conflicts. And a retry whose
reads reach the service one by one (without a read transaction) can miss its own success: an envelope that another
delivery applies between the read of the vault and the read of its audit is in the audit of a vault shown without it,
and the retry fails although nothing was lost. `Foreseen` in `ClientReads` is the exact condition; when both are read
at one moment the ledger's answer alone decides (`OneMomentSuffices`).

## Model

| member | source | states |
|---|---|---|
| Lifecycle.ApplyKeepsEvidence | packages/chain-adapter/src/lifecycle.ts:135-216 | every legal transition of an operation that passes the stored-evidence check yields one that passes it, in the transition's target state, with identity and a known transaction hash unchanged |
| Lifecycle.ReachableIsValid | apps/server/src/chain-store.ts:97-224 | over any run of transitions from creation the operation passes the store's evidence check |
| Lifecycle.EvidenceIsExact | packages/chain-adapter/src/lifecycle.ts:84-216 | the evidence check accepts an operation if and only if some run of legal transitions from its creation produces it (up to the facts the check does not read) |
| Lifecycle.RollbackIsTransition | apps/server/src/chain-store.ts:1677-1684 | the rollback's bulk update touches exactly the states from which the transition to REORGED is legal, and equals that transition |
| ChainTables.FaultFree | apps/server/src/chain-store.ts:1329-1380 | projections that pass the commit's checks are distinct, belong to the contract, and sit on canonical blocks not above the checkpoint |
| ChainStack.CanonicalAtIs | apps/server/src/chain-store.ts:860-875 | the canonical row found at a height is the stack's entry there |
| ChainStack.EventsAtIs | apps/server/src/chain-store.ts:1088-1095 | the canonical events at a height are the events of the stack's entry there |
| ChainStack.RecordIsPush | apps/server/src/chain-store.ts:877-1049 | a successful recording pushes a parent-linked block on top, or is an exact replay of the top that changes no block or event |
| ChainStack.ReplayIsExact | apps/server/src/chain-store.ts:909-931 | the top again is a replay exactly when its hash and its events are the same, and a conflict otherwise |
| ChainStack.ReplayIsAccepted | apps/server/src/chain-store.ts:877-1049 | recording the exact top again is accepted and changes nothing but the demanded target |
| ChainStack.RollbackIsTruncation | apps/server/src/chain-store.ts:1655-1715 | a successful rollback from height n keeps exactly the entries below n |
| ChainStack.RecordLeavesOthers | apps/server/src/chain-store.ts:877-1049 | a recording leaves every other contract's stack as it was |
| ChainStack.RollbackLeavesOthers | apps/server/src/chain-store.ts:1655-1715 | a rollback leaves every other contract's stack as it was |
| ChainRestore.RepresentsOneStack | apps/server/src/chain-store.ts:877-1049 | the tables determine the stack: two stacks they represent are equal |
| ChainRestore.RerecordingRestores | apps/server/src/chain-store.ts:877-1049 | recording rolled-back blocks again, in order with the same logs, is accepted step by step and restores every block row, event row and the stack |
| ChainEventOrder.QueryIsConcatenation | apps/server/src/chain-store.ts:1088-1095 | whatever sorted list of all canonical events the query returns is the concatenation, bottom to top, of each entry's events in order |
| ChainEventOrder.LogCountsAreExact | apps/server/src/chain-store.ts:877-1049 | each canonical block's stored log count is its number of canonical events, all of them under its hash |
| ChainStore.Store.ClaimSync | apps/server/src/chain-store.ts:591-643 | the claim leaves exactly the specified tables: the lease, the larger target and the health reset, or an error and no change |
| ChainStore.Store.MarkSyncUnhealthy | apps/server/src/chain-store.ts:715-762 | the failure mark leaves exactly the specified tables and is refused to a superseded owner |
| ChainStore.Store.MarkSyncHealthy | apps/server/src/chain-store.ts:764-802 | the completion mark reports whether it applied and leaves exactly the specified tables |
| ChainStore.Store.ReleaseSyncIncomplete | apps/server/src/chain-store.ts:804-839 | the incomplete release leaves exactly the specified tables |
| ChainStore.Store.CheckSupplied | apps/server/src/chain-store.ts:886-899 | the checks before the transaction report the first fault: height, size, target, an invalid event or a repeated event key |
| ChainStore.Store.IsReplay | apps/server/src/chain-store.ts:909-931 | the comparison with a stored block is true exactly for the same hash, the same count and the same events |
| ChainStore.Store.RecordCanonicalBlock | apps/server/src/chain-store.ts:877-1049 | checks, inserts or un-tombs the block and its events and moves the checkpoint, exactly as the specification says, or changes nothing |
| ChainStore.Store.RollbackFromBlock | apps/server/src/chain-store.ts:1655-1715 | tombs blocks and events from a height, reorganises operations, drops projections and lowers the checkpoint, exactly as specified |
| ChainStore.Store.CommitProjections | apps/server/src/chain-store.ts:1329-1413 | replaces the contract's projections and moves the projection pointer to the checkpoint, or reports the first fault and changes nothing |
| ChainStore.Store.SaveOperation | apps/server/src/chain-store.ts:1097-1155 | stores an operation that passes the evidence and identity checks, or changes nothing |
| ChainStore.Store.SaveOperationAtCheckpoint | apps/server/src/chain-store.ts:1270-1327 | the optimistic save: applied only at the exact settled checkpoint and over the unchanged expected row |
| ChainStore.Store.AncestryHolds | apps/server/src/chain-store.ts:1550-1597 | the ancestry loop, with its early exits, answers true exactly when a hash-linked canonical path leads from the operation's block through the projection's block to the checkpoint |
| ChainStore.Store.OperationEvidence | apps/server/src/chain-store.ts:1507-1653 | the evidence query computes the specified verdict for every operation and projection key |
| ChainSafety.TablesAreStacks | apps/server/src/chain-store.ts:877-1049 | over every interleaving from an empty store each contract's tables are the stack of its recordings and rollbacks: contiguous, parent-linked, one canonical block per height, checkpoint at the top |
| ChainSafety.CanonicalOperationsAreOnChain | apps/server/src/chain-sync.ts:335-440 | over every interleaving of syncs, rollbacks, tracking steps, submissions, replacements and drops, an operation flagged canonical has its (number, hash) on its target's current stack; a confirmed one is canonical, reconciled and deep enough |
| ChainTracker.ReceiptDecides | apps/server/src/chain-sync.ts:361-402 | from every state an interleaving reaches, a matching receipt in a canonical block leaves a submitted or reorganised operation mined with success or reverted with the failure, as its status says, with its number, hash and index; any other receipt stores nothing, and what is left to reconcile is told |
| ChainTracker.ReconciliationDecides | apps/server/src/chain-sync.ts:403-440 | a match leaves the operation confirming below the depth and confirmed from it on, with exactly the confirmations the settled head gives, also from a failed reconciliation; a mismatch leaves it failed with its code; otherwise nothing is stored |
| ChainTracker.TrackingSettles | apps/server/src/chain-sync.ts:335-440 | from a settled index and a stored submitted operation a whole tracking ends in exactly the row that receipt, reconciliation and depth call for, and touches no other |
| ChainTracker.DisplacementDecides | apps/server/src/chain-sync.ts:442-465 | a replacement or drop is recorded exactly for a submitted or reorganised operation, a replacement only under another hash |
| ChainTracker.SubmissionDecides | apps/server/src/m3-chain-runtime.ts:208-250 | a submission is recorded exactly when it is well formed, its identifier new and its transaction not observed, as a submitted row |
| ChainTracker.OnlyTrackableMove | apps/server/src/chain-store.ts:1229-1268 | a tracking changes the row of no operation that the tracking query leaves out |
| ChainTracker.TrackableMoves | apps/server/src/chain-store.ts:1229-1268 | every operation the tracking query selects can still change: some receipt and reconciliation store another row |
| ChainTracker.OperationsStayThemselves | apps/server/src/chain-store.ts:1097-1155 | over every interleaving no two operations are reconciled with one transaction, and none disappears or changes its identity or its transaction |
| ChainReads.NoStaleReads | apps/server/src/chain-store.ts:1415-1505 | over every interleaving, a projection row handed out belongs to the last committed set, committed for exactly the current checkpoint, which is the canonical top |
| ChainReads.CommittedIsRead | apps/server/src/chain-store.ts:1415-1505 | once the index is healthy and projected at its checkpoint, every projection of the last commit is handed out as committed, and nothing else is |
| ChainLease.ClaimFencesEarlierTokens | apps/server/src/chain-store.ts:583-643 | with fresh tokens, once a later claim commits no call under an earlier token commits again, and no call without a token commits while a lease is held |
| ChainLease.LatestClaimHolds | apps/server/src/chain-store.ts:583-643 | the latest claim keeps the lease until its own token gives it back, whatever other tokens try |
| ChainLease.DemandIsNeverLost | apps/server/src/chain-store.ts:715-858 | in synchronizer runs the outstanding target never decreases until it is met or a reorganisation failure is recorded |
| ChainBase.ChainsStartAtDeployment | apps/server/src/chain-sync.ts:247-333 | over every interleaving of overlapping, failing and superseded synchronizer runs, each chain starts at its deployment block with a top at a safe height: the condition every synchronizer run requires |
| ChainEvidence.ReadyHasPath | apps/server/src/chain-store.ts:1537-1653 | a ready verdict always comes with a confirmed, canonical, reconciled operation, a healthy projected index and the hash-linked path |
| ChainEvidence.ReadinessIsExact | apps/server/src/chain-store.ts:1507-1653 | over every interleaving the verdict is ready if and only if the operation is confirmed, the index healthy and projected, the projection not older than the operation and the span short enough |
| ChainEvidence.EvidenceIsTold | apps/server/src/chain-store.ts:1507-1653 | every field of the answer, over every interleaving: the receipt is canonical exactly when the block stands on the stack, chain status and reconciliation follow from what the operation carries, the indexer and its reason from lease and checkpoint, the projection from the present chain |
| ChainSync.Synchronizer.Rewind | apps/server/src/chain-sync.ts:110-150 | against a fixed remote the rewind keeps exactly the longest common prefix, reading at most limit + 1 remote blocks, and counts the entries it rolls back; with a reliable one it succeeds exactly when the chain is empty or its top height is remote and the fork within reach, and otherwise reports which bound was hit; a failed search gives the lease back and is recorded, any other failure leaves the lease held |
| ChainSync.Synchronizer.RecoverProjection | apps/server/src/chain-sync.ts:197-223 | the projection pointer equals the checkpoint afterwards, or it reports failure; either way the chain, the lease and the events are as before; a chain that agrees with a cooperative remote one cannot fail |
| ChainSync.Synchronizer.RecordUpTo | apps/server/src/chain-sync.ts:277-318 | the block loop pushes the remote blocks up to the head, rebuilding the projection after each; stopped at a failure, it has kept every entry there was and, of a fixed remote, added only remote blocks; a cooperative remote chain cannot make it fail |
| ChainSync.Synchronizer.SyncTo | apps/server/src/chain-sync.ts:247-333 | from any store state left by earlier runs, a sync that returns leaves the whole local chain agreeing with the fixed remote one up to a checkpoint at or above the head, projected, lease released, healthy, and reports what it scanned, inserted and rolled back; with a cooperative remote it returns, or reports the range error, if and only if it can start and the fork is in reach, and otherwise names the obstacle; a failure before the claim moves no lease and no checkpoint, a fork out of reach is recorded with the lease given back, any other failure leaves the lease held for the goal; it never reports superseded without another claimant |
| ChainSync.Synchronizer.AgreedIsKept | apps/server/src/chain-sync.ts:110-150 | a local chain that agrees with the remote one is kept whole by the rewind |
| ChainSync.Synchronizer.GiveUp | apps/server/src/chain-sync.ts:138-149 | without a common block the lease is given back and the checkpoint keeps its block and projection, demands nothing, and records which bound was hit |
| ChainSync.Synchronizer.OutcomesAreShown | apps/server/src/chain-store.ts:675-713 | a run that gave up reads as degraded with its reason, one that holds its lease or stopped short as syncing, one finished at its goal as healthy |
| ChainRemote.RecordIsAccepted | apps/server/src/chain-store.ts:877-1049 | on a chain that agrees with a sound remote one the store accepts the next remote block with its logs, whatever tombstones are left of other forks, as long as none contradicts a remote event |
| ChainRemote.CommitIsAccepted | apps/server/src/chain-store.ts:1329-1413 | on such a chain the projections of the top block are accepted |
| ChainRuntime.AttemptsAreBounded | apps/server/src/m3-chain-runtime.ts:281-300 | the number of attempts from a chain that agrees below a height is at most 1 + max(1, ceiling of the missing blocks over the bound), and exactly max(1, ceiling) when nothing is rewound |
| ChainRuntime.SyncContract | apps/server/src/m3-chain-runtime.ts:281-300 | one attempt: on success or a range error the local chain agrees with the fixed remote one and has advanced by the bounded step the attempt count is computed from; a range error leaves the rewound chain; with a cooperative remote chain it ends in one of the two if and only if it can start and the fork is in reach; other failures leave lease and checkpoint as the sync does |
| ChainRuntime.CatchUp | apps/server/src/m3-runtime-lifecycle.ts:40-53 | attempts repeated against a fixed, cooperative chain whose fork is in reach end with the local chain equal to it, healthy and projected, after at most 1 + max(1, ceiling of the blocks above the common prefix over the bound) attempts, and exactly max(1, ceiling) without a fork |
| ChainRuntime.Interleave | apps/server/src/m3-chain-runtime.ts:323-350 | the slot interleaving gives each of the two lists at least min(its length, 50) of the 100 slots, in order |
| ChainRuntime.OrderedIds | apps/server/src/chain-store.ts:1229-1268 | the ordered id query lists every id once in ascending text order |
| ChainRuntime.Runtime.TrackableOperationIds | apps/server/src/chain-store.ts:1229-1268 | the two-part cursor query returns the first ids after the cursor, wrapping around |
| ChainRuntime.Runtime.TrackRound | apps/server/src/m3-chain-runtime.ts:323-371 | one round attempts a fair prefix of each contract's rotation and moves each cursor to the last id attempted |
| ChainRuntime.Runtime.TrackRounds | apps/server/src/m3-runtime-lifecycle.ts:40-53 | rounds run one after the other, whatever happens to the operations in between, put every id that stays trackable into the slots of one of the first ceiling(N/50) rounds when no id is added |
| Tracking.QueryIsRotation | apps/server/src/chain-store.ts:1229-1268 | the wrap-around query is a prefix of the rotation of the trackable ids from the cursor |
| Tracking.NoRepeats | apps/server/src/m3-chain-runtime.ts:323-371 | no round attempts an id twice |
| Tracking.RoundAdvances | apps/server/src/m3-chain-runtime.ts:323-371 | a round either attempts an id or moves at least 50 of the ids ahead of it behind it |
| Tracking.NoStarvation | apps/server/src/m3-chain-runtime.ts:323-371 | an id that stays trackable is attempted within the ceiling of N/50 completed rounds, with no new insertions |
| Vault.FieldFault | packages/domain/src/vault.ts:98-116 | when no amount is negative, the first unreadable amount of a record is an overflow |
| VaultLedger.SumOf | packages/domain/src/vault.ts:85-87 | the loop over a map's values computes their sum |
| VaultLedger.AssertInvariant | packages/domain/src/vault.ts:98-149 | the runtime check as it runs reports a fault exactly when the record is inconsistent, and the specified one whenever its reservation maps can be read |
| VaultLedger.Settle | packages/domain/src/vault.ts:321-352 | settlement edits the copy to exactly the specified books, with the policy's answer checked first |
| VaultLedger.EditBalances | packages/domain/src/vault.ts:255-365 | the balance commands, edited field by field, give exactly the specified branch or its refusal |
| VaultLedger.EditReservations | packages/domain/src/vault.ts:255-365 | the reservation commands, edited field by field, give exactly the specified branch or its refusal |
| VaultLedger.Run | packages/domain/src/vault.ts:201-371 | the transition as it runs on an edited copy gives exactly the specified outcome: applied state, replay or refusal |
| VaultLaws.CheckIsExact | packages/domain/src/vault.ts:98-149 | the runtime check finds nothing if and only if conservation, funding, sizes and history all hold |
| VaultLaws.BranchConserves | packages/domain/src/vault.ts:254-365 | every branch moves money without creating or losing any: equity and fee conservation and the funded liability are re-established |
| VaultLaws.ReceiptHasEvent | packages/domain/src/vault.ts:139-149 | receipts and events are in bijection: each receipt is that of the event its revision names |
| VaultLaws.GuardsSuffice | packages/domain/src/vault.ts:201-371 | from a reachable vault the guards of each branch alone re-establish conservation, funding, the history bijection and the unasserted facts of reachable vaults |
| VaultLaws.ClosingCheckOnlyOverflows | packages/domain/src/vault.ts:366-371 | from a reachable vault the closing check can refuse a command only because an amount overflows, and does so exactly then |
| VaultLaws.ExecuteKeepsReachable | packages/domain/src/vault.ts:201-371 | an accepted command leads from a reachable vault to a reachable vault |
| VaultLaws.CreatedIsReachable | packages/domain/src/vault.ts:160-190 | a created vault is reachable |
| VaultLaws.RunStaysReachable | packages/domain/src/vault.ts:201-371 | over every run of requests the vault stays reachable, conserving money and fees, with one event and one receipt for each revision |
| VaultLaws.OverwriteIsRefused | packages/domain/src/vault.ts:271-275 | a withdrawal request under the identifier of a pending withdrawal is caught by the closing check, as a loss of equity |
| VaultMoves.AppliedExactly | packages/domain/src/vault.ts:201-371 | from a reachable vault a command is applied if and only if its actor is entitled, it is new, at the present revision, covered by the ledger and overflows no account; then each account changes by the command's entry alone, every reservation it does not name stays, and the history grows by one |
| VaultMoves.AllocationStaysWithinAllowance | packages/domain/src/vault.ts:260-265 | an accepted allocation raises the active net by exactly its amount and ends within the allowance |
| VaultMoves.RefusalsAreExplained | packages/domain/src/vault.ts:226-249 | forbidden, replayed, conflicting, out of turn and over the history limit, each if and only if its condition holds |
| VaultLaws.CheckAdmitsUnknownWithdrawal | packages/domain/src/vault.ts:98-149 | the runtime check alone admits a pending withdrawal that no receipt remembers |
| VaultWindDown.SettledBooks | packages/domain/src/fixtures.ts:4-11 | the fixture's assessment is within the settlement's bounds and keeps all cash and proceeds |
| VaultWindDown.CancelAll | packages/domain/src/vault.ts:304-316 | a loop cancels every order, each command accepted, keeping the cash total |
| VaultWindDown.ConfirmAll | packages/domain/src/vault.ts:276-286 | a loop confirms every pending withdrawal, each command accepted, keeping the cash total |
| VaultWindDown.WindDown | packages/domain/src/vault.ts:254-365 | from every reachable vault with enough revisions and totals in bounds, the loop of commands is accepted step by step and leaves no cash, order, position, pending withdrawal or fee owed; everything has been paid out or paid in fees |
| LocalLedger.HappensKeeps | apps/server/src/store.ts:145-178 | over every sequence of deliveries vaults stay reachable, histories only grow, applied envelopes are distinct, and receipts remember exactly the applied ones |
| LocalLedger.AppliedAtMostOnce | packages/domain/src/vault.ts:239-245 | over every run with duplicates, delays and reordering an envelope is applied at most once, and exactly once if it ever was |
| LocalLedger.DoneMeansApplied | apps/server/src/store.ts:145-178 | a request answered with success has been applied, now or before, and the answer shows a later revision than it expected |
| LocalLedger.DeliveryDecides | apps/server/src/store.ts:145-178 | a delivered envelope is answered with success if and only if its owner has the vault and it was applied before or the vault takes it now; then the vault changes by the command's entries, otherwise nothing does |
| LocalLedger.RefusalsAreAnswered | apps/server/src/app.ts:109-118 | a refused envelope is answered as a bad request exactly if it cannot be read, as not found exactly if the vault is not its owner's, as an internal error exactly when an amount overflows, and otherwise as a conflict |
| LocalLedger.SettlementFillsAllowance | apps/server/src/simulation.ts:22-42 | a settlement at the local simulator takes no fee, leaves in the active balance what the allowance covers and moves exactly the rest to idle |
| LocalLedger.AppliedIsRejectedOnlyUnderOtherCookie | apps/server/src/simulation.ts:22-42 | an applied envelope is answered with success again, except under another owner's cookie, where it is answered with not found |
| LocalLedger.RefusedForever | packages/domain/src/vault.ts:235-249 | an envelope refused at or past the revision it expects is never applied nor taken for applied in any later state |
| LocalLedger.EarlyRefusalMayPass | packages/domain/src/vault.ts:245-249 | that condition is needed: an envelope refused before its vault reaches its revision can be applied later |
| LedgerStore.LocalStore.Get | apps/server/src/store.ts:75-81 | a vault is returned to its owner only |
| LedgerStore.LocalStore.List | apps/server/src/store.ts:82-86 | every vault of an owner is listed once |
| LedgerStore.LocalStore.ObtainTestPasses | apps/server/src/store.ts:113-144 | test passes are granted once per owner and strategy, as the specification says; asking again returns the vault there is |
| LedgerStore.LocalStore.Command | apps/server/src/store.ts:145-178 | the vault and its audit row change together with exactly the transition's outcome, or nothing changes |
| LedgerStore.LocalStore.AuditPage | apps/server/src/store.ts:187-196 | a page holds the newest events before the cursor, newest first, with the cursor of the next page if there is one |
| LedgerStore.PagesCoverAudit | apps/server/src/store.ts:187-196 | following the cursors yields every event before the first cursor exactly once, newest first |
| ClientWorld.RowMeansApplied | apps/web/src/product-client.ts:435-456 | with a fresh identifier, an audit row carrying it is the trace of the envelope itself |
| ClientWorld.ServedIsTruthful | apps/server/src/app.ts:273-296 | the service's answer to an honest envelope is truthful: success means applied, a conflict means refused for good, under any cookie |
| ClientWorld.TruthfulStays | apps/web/src/product-client.ts:468-497 | nothing that happens later makes a truthful answer untrue |
| ClientWorld.Outside.Post | apps/web/src/product-client.ts:468-490 | whatever runs meanwhile, the answer a tab gets to its envelope is truthful about the ledger of that moment |
| ClientWorld.Outside.FetchVaults | apps/server/src/store.ts:87-90 | the answer has one view, as it is at that moment, of every vault of the cookie's owner, and no other |
| ClientWorld.Outside.FetchAudit | apps/server/src/store.ts:187-196 | the answer is the newest hundred events of the owner's vault at that moment |
| ProductClient.ProductClient.Load | apps/web/src/product-client.ts:246-324 | a successful read shows every vault the owner had when it began, at its revision then or a later one, selects the preferred vault or else the first, and shows its newest hundred audit rows; it succeeds whenever nothing disturbs it; a failed one leaves the screen as it was, unless the cookie named another identity, which may clear it, or the failure is a 401, which does |
| ProductClient.ProductClient.Send | apps/web/src/product-client.ts:468-497 | the record is cleared only if the ledger applied the envelope exactly once; after any failure it is still there, unless another tab took it; undisturbed, it succeeds if and only if the ledger answers the envelope with success when it arrives |
| ProductClient.ProductClient.Confirm | apps/web/src/product-client.ts:498-515 | the record is cleared only if it is still the one that was sent |
| ProductClient.ProductClient.MarkRejected | apps/web/src/product-client.ts:475-488 | only the current record is marked with the definitive status, and stays readable; a conflict mark is a refusal for good |
| ProductClient.ProductClient.Prepare | apps/web/src/product-client.ts:352-366 | there is a review if and only if no record is pending, nothing is under way, nothing needs a refresh and the selected vault is shown as the current owner's; it names that vault at the revision shown |
| ProductClient.ProductClient.Command | apps/web/src/product-client.ts:388-423 | a command is issued if and only if its review is the current one and it is valid; then success means it was applied exactly once and any failure leaves its record, and undisturbed it succeeds if and only if the ledger answers it with success; a review is good for one command and a failure demands a refresh; otherwise storage, ledger and screen are unchanged |
| ProductClient.ProductClient.ConfirmTraced | apps/web/src/product-client.ts:435-456 | an audit row clears the record only if actor, type and revisions match and the record is still the one given, and then the envelope was applied exactly once |
| ProductClient.ProductClient.Retry | apps/web/src/product-client.ts:424-467 | a retry handles exactly the stored envelope; success means applied exactly once, failure leaves the record; undisturbed and under a fresh identifier it succeeds if and only if both of its reads see the envelope applied, or its audit does not and the ledger then answers it with success |
| ClientReads.AppliedIsForeseen | apps/web/src/product-client.ts:424-467 | an envelope applied when a retry begins always meets the retry's condition for success |
| ClientReads.OneMomentSuffices | apps/web/src/product-adapter.ts:531-580 | when the vault and its audit are read at one moment, the retry succeeds if and only if the ledger would answer the envelope with success |
| ClientReads.AppliedLaterIsForeseen | apps/web/src/product-client.ts:424-467 | so does one that is not applied until the retry sends it and the ledger then answers it with success |
| ProductClient.ProductClient.DismissRejected | apps/web/src/product-client.ts:516-538 | a record is given up only when rejected and refreshed; if the mark is a conflict the envelope was never applied and never will be |
| Risk.GrossNotional | src/security-model/index.ts:474-478 | the loop over a book computes the sum of the absolute positions |
| Risk.IsReductionOnly | src/security-model/index.ts:464-472 | the check over the targets is exactly that no target grows or changes sides |
| Risk.PlaceTargets | src/security-model/index.ts:419-440 | the loop over the targets reports the first faulty one, or leaves the resulting book and one order per changed target |
| Risk.CheckPortfolio | src/security-model/index.ts:442-461 | the portfolio checks report the first limit exceeded, in the source's order |
| Risk.EvaluateRisk | src/security-model/index.ts:399-462 | the evaluation as it runs gives exactly the specified verdict |
| Risk.FillingReachesTargets | src/security-model/index.ts:434-439 | filling the orders on the current book gives every instrument the position of the resulting book |
| Risk.GrossByPosition | src/security-model/index.ts:474-478 | the gross notional depends on positions alone, not on zero entries |
| Risk.ReductionIsEverywhere | src/security-model/index.ts:464-472 | reducing every target is the same as no position of the whole account growing or changing sides |
| Risk.VerdictIsExact | src/security-model/index.ts:399-462 | the evaluation accepts if and only if targets are known, distinct and within limits and the book after the orders respects gross, leverage and, past the daily loss, strict unwinding; then targets are reached exactly and other instruments untouched |
| RiskNumbers.AmountsAreSpelled | src/security-model/index.ts:484-489 | an amount is read as a number if and only if it is that number's decimal text with its sign, or "-0" for zero |
| RiskNumbers.VerdictOnNumbers | src/security-model/index.ts:399-462 | on the integers the texts spell the decision is accepted if and only if every target and difference is within its limit and the resulting book is prudent; the orders are the differences between targets and positions |
| Permits.MemoryReplayStore.Consume | src/security-model/index.ts:145-163 | expired entries are purged, and the nonce is accepted exactly when its key is not left |
| Permits.IssueExecutionPermit | src/security-model/index.ts:218-286 | issuance gives exactly the specified permit or first refusal, and leaves the specified replay entries |
| Permits.PermitIsWithinWindows | src/security-model/index.ts:254-286 | a permit's window is not empty and lies within the decision, the grant and the allowed lifetime, under a trade-only grant, both signatures and the bound policy |
| PermitTerms.PermitIsExact | src/security-model/index.ts:218-286 | a permit is issued if and only if names, bindings, windows, texts and limits all hold, the figures are sanctioned and the nonce is not live; it grants exactly the differences between targets and positions until the first of its windows ends |
| Permits.AtMostOnePermit | src/security-model/index.ts:145-163 | over any run with a clock that does not go back, from any store contents, a signed decision yields at most one permit although entries are purged |
| Permits.IssuedAgainExactly | src/security-model/index.ts:154-161 | over any run, clock and store contents, a nonce that yielded a permit yields another if and only if a call that reached the store in between ran after the first decision's expiry and it or a later one presents the nonce; calls refused earlier make the store forget nothing |
| Money.UnsignedRoundTrip | packages/domain/src/money.ts:4-10 | reading the text of an amount gives the amount, and an accepted text is the text of its amount, within 2^256 - 1 |
| Money.SignedRoundTrip | packages/domain/src/money.ts:12-18 | the same for signed amounts from -(2^256 - 1) to 2^256 - 1, with no negative zero |
| Money.ParseAfterFormat | packages/domain/src/money.ts:20-36 | for every canonical amount and 0 to 36 decimals, parsing the formatted text gives the amount back |
| Money.FormatAfterParse | packages/domain/src/money.ts:20-36 | for every accepted decimal text, formatting the parsed amount gives the text with its fraction padded to the decimals |
| Money.ParsedAmountIsScaled | packages/domain/src/money.ts:20-28 | the amount a decimal text parses to is the decimal, scaled by ten to the decimals |
| Keccak.RotateLeftMovesBits | packages/chain-adapter/src/keccak.ts:35-39 | rotating a lane moves bit z - count to bit z, modulo 64 |
| Keccak.MovesAreAPermutation | packages/chain-adapter/src/keccak.ts:51-56 | the scatter index reaches each of the 25 lanes exactly once |
| Keccak.MixColumns | packages/chain-adapter/src/keccak.ts:45-50 | the two column loops compute the theta lanes in place |
| Keccak.Scatter | packages/chain-adapter/src/keccak.ts:51-56 | the scatter loops compute the rotated and moved lanes |
| Keccak.MixRows | packages/chain-adapter/src/keccak.ts:57-60 | the row loops compute the chi lanes in place |
| Keccak.Permutation | packages/chain-adapter/src/keccak.ts:41-63 | the in-place loops compute the 24 rounds of the lane functions |
| KeccakSteps.RotationsAreOffsets | packages/chain-adapter/src/keccak.ts:5-7 | the table of rotations holds the offsets that the walk of section 3.2.2 defines |
| KeccakSteps.ConstantBits | packages/chain-adapter/src/keccak.ts:8-33 | the table of round constants holds the bits the feedback register of Algorithm 5 puts out |
| KeccakSteps.ThetaIsStandard | packages/chain-adapter/src/keccak.ts:45-50 | the theta lanes are the theta mapping of section 3.2.1, bit for bit |
| KeccakSteps.RhoPiIsStandard | packages/chain-adapter/src/keccak.ts:51-56 | the rotated and moved lanes are rho followed by pi of sections 3.2.2 and 3.2.3 |
| KeccakSteps.ChiIsStandard | packages/chain-adapter/src/keccak.ts:57-60 | the chi lanes are the chi mapping of section 3.2.4 |
| KeccakSteps.IotaIsStandard | packages/chain-adapter/src/keccak.ts:61 | adding the constant is the iota mapping of section 3.2.5 |
| KeccakSteps.RoundFits | packages/chain-adapter/src/keccak.ts:41-63 | every lane stays below 2^64 through every step of a round |
| KeccakSteps.PermutationIsStandard | packages/chain-adapter/src/keccak.ts:41-63 | the permutation is 24 rounds of the standard on every state, on 64-bit lanes |
| KeccakSponge.PadInput | packages/chain-adapter/src/keccak.ts:68-72 | the array is filled with the padded message, including the single byte 0x81 |
| KeccakSponge.PaddedLengthFits | packages/chain-adapter/src/keccak.ts:68 | the padded length is the next multiple of 136 above the message's length |
| KeccakSponge.PaddingIsInjective | packages/chain-adapter/src/keccak.ts:68-72 | different messages are padded differently |
| KeccakSponge.PaddingIsStandard | packages/chain-adapter/src/keccak.ts:68-72 | the padded bits are the message's bits followed by pad10*1 of section 5.1, with no suffix bits |
| KeccakSponge.AbsorbBlock | packages/chain-adapter/src/keccak.ts:76-81 | the lane loops add the block's bytes, packed least significant first, to the first 17 lanes |
| KeccakSponge.Squeeze | packages/chain-adapter/src/keccak.ts:85-87 | the output bytes are read from the state's lanes |
| KeccakSponge.Keccak256 | packages/chain-adapter/src/keccak.ts:65-89 | the whole function with its loops computes the specified digest |
| KeccakStandard.DigestIsStandard | packages/chain-adapter/src/keccak.ts:65-89 | every bit of the digest is the bit of the sponge of section 4 after absorbing the message's bits and pad10*1 |

## Left out

- ChainStore.Store.RecordCanonicalBlock: the replay comparison reports one conflict where the source tells a block conflict from an event conflict, and compares the events as a set, because keys are distinct; ties between events with equal transaction and log indexes are left to SQL.
- ChainStore.Store.OperationEvidence: corrupt-row and size-bound errors of the JSON columns are not modelled; neither are the L1 finality fields, which are always unknown.
- ChainSync.Synchronizer.SyncTo: between its awaits the class lets others change operations only; a second claimant, failures and supersession at every await are covered by the step-wise runs (`ChainLease`, `ChainBase`, `ChainSafety`). Log decoding and the contract reads of a projection rebuild are outcomes the remote side chooses; "cooperative" is the condition on those outcomes (`ChainRemote.Sound`, `ChainRemote.Consistent`): logs belong to their block and no log appears in two, projections sit on blocks of the chain, and no stored row contradicts a remote event.
- ChainSafety.CanonicalOperationsAreOnChain: `trackOperation` is modelled as the steps between its awaits, with the receipt, the reconciliation and the chosen head as arbitrary inputs; contract decoding and `reconcileOperation` bodies are a match or a mismatch.
- ChainRuntime.SyncContract: the observed head, the last-attempt record and the `caughtUp` getter are not modelled.
- ChainRuntime.CatchUp: the timer between attempts, the queue of requests for one and the other contract's sync are left out; the head is observed once.
- ChainRuntime.Runtime.TrackableOperationIds: the errors for a limit out of range and for a malformed cursor are left out; the runtime passes neither.
- VaultLedger.AssertInvariant: when several entries of a reservation map cannot be read, which one is reported first is left open; the source takes insertion order.
- LedgerStore.LocalStore.List: the order by id and the page of the list queries are left out.
- LedgerStore.LocalStore.Command: the update's own revision condition and the audit table's keys cannot fail inside the transaction and have no branch; a corrupt stored ledger (digest mismatch) is left out.
- LocalLedger.HappensKeeps: command schemas other than the amounts' readability, sessions' expiry and the rate limit are statuses the environment chooses.
- ClientWorld.Outside.FetchVaults: the list is the owner's whole list, as the product snapshot gives it; the older list route, which answers with one page of one strategy unless asked otherwise, and the snapshot's own cross-checks are left out. Reads of one snapshot are waits during which nothing arrives.
- ClientWorld.Outside.Await: another tab may clear the shared record or write any that a tab running this client could have written (an honest envelope, marked as a conflict only if the ledger refuses it for good); command identifiers are arbitrary texts, and freshness is a condition only where a row is recognised by its identifier.
- ProductClient.ProductClient.Retry: "undisturbed" is `Outside.Calm`: no failure, no overtaking, other tabs idle, the cookie the same; the requests the client issues together reach the service in the order it names them.
- ProductClient.ProductClient.Load: strategies, notices, error texts and amounts shown are left out; `selectIdentity`, `selectVault` and `claim` only reload and are not modelled; a read overtaken by another call is dropped, and its result is reported as overtaken instead of returning silently.
- ProductClient.ProductClient.DismissRejected: a mark other than a conflict promises nothing about the ledger, see the second finding above.
- Risk.EvaluateRisk: messages of errors are left out; every malformed amount is one error.
- Permits.IssueExecutionPermit: signatures and hashes are inputs (they verify or not, they match or not), a decision stands for its commitment, and the clock is an integer; in a snapshot with several faulty positions which fault is reported first is left open.
- Canonical JSON text is the tuple of the values it spells, so two fingerprints are equal exactly when actor, command and policy are.
- Randomness (owner tokens, command and vault identifiers) is passed in, fresh where a property needs it.
- SQLite, migrations, backups, integrity checks, size bounds of JSON columns and decoding of corrupt rows.
- RPC transport, HTTP setup, configuration, manifests, chain-id checks and calldata codecs; `recordSubmission` registers an operation whose calldata and target checks are left out.
- Contract decoding, the projection reader's own reads, Ed25519, SHA-256 and timestamp texts.
- `apps/web/src/evm-keccak.ts`, a twin of the modelled hash, and the hexadecimal text around it.
- Browser wallet, submission journal, dashboards, charts and Python tooling.
