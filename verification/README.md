# Verification of the portal's access saga and its supporting machinery

The portal lets a developer ask for access to an API. A provider's approval becomes a *grant* row
in the portal's database and a set of ACL *groups* on the developer's gateway *consumer*. The
database has transactions, compare-and-set by status, and unique indexes for one active grant and
one pending request per identity. The gateway is another system: a consumer is read with its tag
and written back whole, conditionally on that tag, and such a write may land long after whoever
issued it has stopped. What holds the two together is a durable job row with a claim generation,
lease keys, and the tag. This project models that workflow as a transition system and proves what
every run of it keeps. It then does the same for four smaller pieces of machinery in the
repository that have a real argument behind them: the memoising OpenAPI reference follower and its
relatives, the consumer repair, the settings updates, and the mass-email and publishing text
bounds.

`dafny verify dfyconfig.toml` checks everything.

## Modules

| module | contents |
|---|---|
| `AccessRows` | the rows of one (API, identity) pair and every store transaction as a function on them |
| `AccessStore` | the same transactions as they run, row by row, proved equal to those functions |
| `AccessSaga` | the transition system: states, steps, runs |
| `AccessSagaInvariants`, `AccessSagaEffects`, `AccessSagaGateway` | what every step keeps, between rows, processes, writes in flight and the gateway |
| `AccessSagaCoverage`, `AccessSagaOwed` | crash-safe bookkeeping, and the exact steps that lose it |
| `AccessSagaWitnesses` | runs that reach those steps, and other limits of the workflow's guarantees |
| `AccessSagaFencing`, `AccessSagaHistory`, `AccessSagaLanding` | writes over a run: where they come from, when they take effect, and what they can still do then |
| `AccessSagaOwnership`, `AccessSagaTools`, `AccessSagaRecovery` | stale owners and rollbacks, tool subsets, and how an interrupted approval ends |
| `AclGroups` | the group names behind the saga's abstract groups, and the rewrites of a group list |
| `GatewayJobWorker`, `StrandedRepair` | the worker's tick and backoff; the one-off keyset scan |
| `Json`, `JsonPointer`, `RefChains`, `OpenApiRefs`, `OpenApiParameters`, `AgentPathItems` | documents, pointers, reference chains, parameter identities, Path Items |
| `ConsumerRepair`, `Settings`, `Html`, `MassEmail`, `Publishing` | the remaining components |

A *process* of the saga is a request handler or a worker's attempt. It moves through the phases of
one guarded gateway write (take the consumer key, read, guard, issue) and the transaction or
compensation after it. A process may stop between any two steps. The key may be lost at any
moment without its holder noticing: a write issued after that is *unfenced*, and a transaction
after that is refused. A *write in flight* lands at any later moment and takes effect only under
the tag it names. `Next` gives the state after a step, `Run` is a history from the empty portal.
The history fields `armed` and `teardownArmed` of a state are proof devices of
`AccessSagaCoverage`: `AccessSagaOwed.StepIgnores` shows that no step depends on them, and every
result below is about the rows, the processes and the gateway.

How the steps map to the code:

| steps | code |
|---|---|
| `StepFile`, `StepFileTools`, `StepClose` | server/src/access/service.ts:2686-3022, 3268-3340 |
| `StepApprove`, `StepIssueAdd`, `StepCommit`, `StepCommitFails` | server/src/access/service.ts:1434-1464, 3024-3240 |
| `StepApproveTools` (with the same later steps) | server/src/access/service.ts:1933-2121 |
| `StepRefused`, `StepObserve`, `StepIssueRemoveAll`, `StepIssueStripTools`, `StepIssueReconcile`, `StepSettle`, `StepCloseJob` | server/src/access/service.ts:1259-1501, 1694-1920 |
| `StepRevoke`, `StepIssueRevoke` | server/src/access/service.ts:2148-2364 |
| `StepPresence`, `StepRestore`, `StepGiveUp` | server/src/access/service.ts:813-1232 |
| `StepSweep`, `StepIssueSweep` | server/src/access/service.ts:3350-3485 |
| `StepReleaseStale`, `StepRecover` | server/src/access/gateway-job-worker.ts:228-285 |
| `StepLook`, `StepIssueRecovery`, `StepFinish` | server/src/access/service.ts:2398-2683 |
| `StepEnter`, `StepRead`, `StepLand`, `StepAck`, `StepFail` | server/src/credentials/consumers.ts:112-172, 284-327 |
| `StepDisable`, `StepEnable`, `StepRetryTeardown` | server/src/users/service.ts:735-790, 890 |
| `StepRebuild`, `StepReadGrants`, `StepIssueRebuild` | server/src/credentials/service.ts:2520-2594 |
| `StepTeardown`, `StepIssueTeardown`, `StepTornDown` | server/src/credentials/service.ts:2596-2700 |

## Where the code and its comments part

* The access service says that a re-enable which cancels a teardown rebuilds the groups from
  active grants, so that a swept grant's group "cannot outlive both"
  (server/src/access/service.ts:76-83), and that the disable sweep needs no job of its own because
  the teardown owes every group (106-118). Four kinds of step break the promise that access
  without a grant is owed a job or a teardown, and a run reaches each of them with every lease
  held: the re-enable stops between its cancellation and its rebuild
  (`AccessSagaWitnesses.ReenableOwesNothing`); a sweep claims a grant after the re-enable
  (`LateSweepOwesNothing`); a rebuild writes the groups of a grant it read before such a sweep
  claimed it (`StaleRebuildOwesNothing`); and an approval refused for a disabled account deletes a
  job it took over from an earlier attempt (`DroppedJobOwesNothing`).
  `AccessSagaOwed.StepOwes` and `StepBacks` give the exact conditions, step by step.
* The same comment (66-74) says that an older revocation's delayed removal can never strip a
  fresh grant's group. `AccessSagaLanding.LandsAfterCommit` says exactly which write in flight at
  an approval's commit can still take effect: one that names the tag of that moment, and so was
  issued without the consumer key by a process that read the consumer after the approval's own
  write. A worker that finishes a revocation (2416-2472) takes no proxy lease, so the lease the
  approval holds does not keep it out: once it has lost the consumer key it strips the fresh
  grant's groups (`AccessSagaWitnesses.UnfencedRemovalLands`).
* The rollback of a revocation reads the consumer under its key "so the group cannot come or go
  between the read and the commit" (896-900, 938-940). A write in flight at that read still can:
  the revocation's own removal, whose acknowledgement was lost, takes effect after the rollback
  and leaves an active grant without its groups
  (`AccessSagaWitnesses.LateRemovalAfterRollback`). `AccessSagaLanding.RollbackFindsGroup` and
  `LandedWriteSpares` name that exception.
* The disable sweep takes no proxy lease because "the account is already disabled, and an
  approval's active-owner check" refuses to put a group back (server/src/access/service.ts:3442-3444).
  A sweep that gets to the gateway only after the account was re-enabled and a new request approved
  takes the fresh grant's groups off, with every lease held and no row left to put them back
  (`AccessSagaWitnesses.SweepStripsFreshGrant`). Such a grant became active after the sweep's claim
  (`AccessSagaLanding.SweepStripsLater`).
* A repair without stale credentials is recorded by each instance that finishes it, as its comment
  admits (server/src/admin/gateway-reconciliation.ts:577-582;
  `ConsumerRepair.EmptyRepairRecordedTwice`). A stale row that its owner revoked between two
  passes is on no repair record (`OwnerRevocationUnlisted`); `SecondPassSettles` says per row when
  it is.
* On a store without transactions, an SMTP update that stops half-way can leave rows without an
  override whose connection is not the environment's; `Settings.KeptExactly` says when. Nothing
  leaks: the mailer checks the connection before it presents the environment's password
  (server/src/email/service.ts:569-602), and what is presented was supplied for its connection in
  every visible state.
* Planning a CAPTCHA update reads the fingerprint before the rows, so that "a write landing between
  the two" makes the patch fail (server/src/admin/settings-service.ts:572-575). On a store without
  transactions a secret written in between and removed again before the commit goes unnoticed,
  and the commit enables a challenge without a secret
  (`Settings.FingerprintMissesRemovedSecret`); the provenance of what is stored still holds.
* A tick of the job worker may claim a row twice, when its jobs run longer than the shortest
  backoff: each claim reads the clock anew (server/src/access/gateway-job-worker.ts:257-271).

## Model

| member | source | states |
|---|---|---|
| `AccessSagaOwed.StepOwes` | server/src/access/service.ts:106-118 | From any state that a run without a loss reaches, the next step keeps "API groups on the gateway, or on the way there under the current tag, with no active grant behind them are owed a job of the pair or an account teardown" if and only if it is not one of six described by rows alone: a re-enable that cancels the only row, a sweep without a row to rely on, a rebuild that writes a grant that is gone under the current tag, or the end of a job, a recovery or a teardown that deletes the last row |
| `AccessSagaOwed.OwedThroughout` | server/src/access/service.ts:36-118 | Every state of a run keeps that promise if and only if the run takes none of those steps, whatever crashes, lost acknowledgements and late writes it contains |
| `AccessSagaOwed.StepBacks` | server/src/access/service.ts:36-118 | From any state in which such access has a job that its owner is not done with, or a teardown that has not emptied the consumer yet, the next step keeps that if and only if it is not one of four gaps: a re-enable or a sweep while there is neither, a rebuild that writes a grant that is gone, or an approval refused for a disabled account that gives up the only such job |
| `AccessSagaOwed.BackedThroughout` | server/src/access/service.ts:36-118 | Every state of a run has such a row for such access if and only if the run takes none of the four gaps |
| `AccessSagaOwed.AccessIsOwed` | server/src/access/service.ts:106-118 | Deleting the last row is never the cause by itself: a run without one of the four gaps takes no step that loses the promise, and keeps it in every state |
| `AccessSagaOwed.ApprovalIsOwed` | server/src/access/service.ts:106-118 | In every run at all, an approved request for access that no grant was ever made from has its approve job |
| `AccessSagaWitnesses.ReenableOwesNothing` | server/src/users/service.ts:767-774 | A run reaches a state with revoked access on the gateway, no job, no teardown and no process left: the re-enable stopped before its rebuild wrote |
| `AccessSagaWitnesses.LateSweepOwesNothing` | server/src/access/service.ts:3350-3485 | The same for a disable sweep that claims a grant after the account was re-enabled |
| `AccessSagaWitnesses.StaleRebuildOwesNothing` | server/src/credentials/service.ts:2546-2591 | A run with every lease held in which a rebuild writes, under the current tag, the groups of a grant that a late sweep has claimed since it read it; they stay on the gateway with no job, no teardown and no process left |
| `AccessSagaWitnesses.DroppedJobOwesNothing` | server/src/access/service.ts:3201-3232 | A run with every lease held in which an approval refused for a disabled account, re-enabled since, deletes the job it took over from an earlier approval whose groups are still on the gateway |
| `AccessSagaWitnesses.UnfencedRemovalLands` | server/src/access/service.ts:2416-2472 | A run in which a worker finishing an older revocation, which holds no lease but the consumer key and has lost it, takes the groups of a later, active grant off after that grant has committed |
| `AccessSagaWitnesses.LateRemovalAfterRollback` | server/src/access/service.ts:896-989 | A run with every lease held in which a revocation is rolled back while its own removal is in flight, and the removal then takes the groups of the restored grant off |
| `AccessSagaWitnesses.SweepStripsFreshGrant` | server/src/access/service.ts:3428-3481 | A run with every lease held in which a disable sweep takes the groups of a grant off that was approved after the account was re-enabled; no job, no write in flight and no other process is left |
| `AccessSagaWitnesses.SupersededRollsBack` | server/src/access/service.ts:849-894 | A run in which a revocation whose job a worker has taken over rolls back all the same, puts its grant back and takes the worker's job away |
| `AccessSagaFencing.CommitOvertakes` | server/src/access/service.ts:3117-3192 | When an approval can commit, every write in flight that was issued under the consumer key names an older tag |
| `AccessSagaFencing.OvertakenNeverLands` | server/src/credentials/consumers.ts:152-171 | A write whose tag was overtaken changes nothing, at whatever later point of the run it lands |
| `AccessSagaLanding.LandsAfterCommit` | server/src/access/service.ts:66-74 | A write in flight at an approval's commit can take effect in some continuation of the run if and only if it names the tag of that moment; such a write was not issued under the key, and no process can have read that tag before the approval's own write had taken effect |
| `AccessSagaLanding.LandedWriteSpares` | server/src/access/service.ts:1694-2121 | In every run, when the write of an approval, a compensation, a revocation, a recovery or a re-enable's rebuild that was issued under the key takes effect, no approval has committed since it was issued, and it takes off no group that the active grant covers at that moment, unless a rollback put that grant back after the write was issued |
| `AccessSagaLanding.SweepStripsLater` | server/src/access/service.ts:3428-3481 | A sweep's removal takes every group off whenever it takes effect; a grant that is active then was activated by a commit or a rollback after the sweep's claim |
| `AccessSagaLanding.RollbackFindsGroup` | server/src/access/service.ts:896-989 | Every rollback that puts its grant back does so while one of the grant's groups is on, unless the consumer could not be read, or a write took effect since the read that was in flight at it or issued without the key |
| `AccessSagaHistory.GroupsUntilLanding` | server/src/credentials/consumers.ts:152-171 | Between any two moments of a run the groups stay as they were unless a write takes effect |
| `AccessSagaHistory.WriteHistory` | server/src/credentials/consumers.ts:284-327 | A process that knows its write to have landed issued it once before, and that write took effect once, between the two, as it was issued |
| `AccessSagaLanding.CommitLeavesItsGroups` | server/src/access/service.ts:3117-3194 | Every approval commits on a write of its own that took effect with exactly the groups of the grant it commits; whatever took effect since was issued without the key, and unless something did, those are the groups on the gateway at the commit |
| `AccessSagaOwnership.StepRightly` | server/src/access/service.ts:2369-2390 | Every step re-owns a job only under a new generation, ends a job only by its current claim or its grant's return, and activates a grant only by a commit or by the rollback of the revocation it carries |
| `AccessSagaOwnership.SupersededChangesNothing` | server/src/access/service.ts:1399-1501 | A process whose claim was replaced changes no request, grant or job by any step other than its own rollback |
| `AccessSagaOwnership.SupersededForGood` | server/src/access/gateway-job-worker.ts:48-55 | In every run, a claim once replaced is never current again |
| `AccessSagaOwnership.StaleOwnersAreHarmless` | server/src/access/gateway-job-worker.ts:48-55 | From the moment its claim is replaced, a process changes a row if and only if it rolls back its own revocation, and it does so exactly when the grant still carries its stamp, the account is active, no other grant is, and it holds the key under which it found a group on or the consumer unreadable |
| `AccessSagaOwnership.JobsEndOnlyRightly` | server/src/access/service.ts:106-118 | In every run a job row disappears only through its current claim or through the transaction that puts its grant back to active |
| `AccessSagaOwnership.OneActiveGrant` | server/src/access/service.ts:849-894 | In every run two active grants of an identity never coexist, and a grant becomes active only by its approval's commit or by the rollback of its own claim with the account active and a group found on or unreadable |
| `AccessSagaTools.StepMeans` | server/src/access/service.ts:1933-2121 | Every step keeps each approval in flight tied to its request: the tools it adds are the ones requested and recorded as approved, and none was covered when it was admitted |
| `AccessSagaTools.CommitWidens` | server/src/access/service.ts:1933-2121 | A tool approval's commit appends exactly its approved tools to the subset it was admitted against, and changes no other grant |
| `AccessSagaTools.ToolsOnlyGrow` | server/src/access/service.ts:1694-2121 | Over any run a grant's subset only grows, in order, and every tool it gained came from a request that asked for it and an approval recorded on that request |
| `AccessSagaTools.GrantsStartAsApproved` | server/src/access/service.ts:3024-3192 | A new grant covers exactly what its request was approved for, never more than was asked |
| `AccessSagaRecovery.StepStands` | server/src/access/service.ts:3141-3192 | Every step keeps: a request that a grant was made from owes no job and is never pending again, it reads approved only while that grant is active, no two grants come from one request, and while a process owns a job its request is decided as the process knows |
| `AccessSagaRecovery.RecoveryLeavesGroups` | server/src/access/service.ts:2488-2537 | In every run, when an approval's recovery ends, its write has taken effect once and left exactly what the active grant it read covers if the account was active, the intersection of that with what was there if it was disabled, and nothing without a grant; and the groups are still those unless another write took effect since |
| `AccessSagaRecovery.RecoveryFinishes` | server/src/access/service.ts:2575-2683 | In every run, the end of an approval's recovery leaves its request approved if and only if it widens a grant that was active and covered its tools when recovery wrote, pending if and only if it could still be granted and no request waits, and cancelled otherwise; no other request or grant moves, a request for access itself is never kept, and a grant it is kept for still covers its tools and is active unless it was claimed since |
| `AccessSagaInvariants.StepKeeps` | server/src/access/service.ts:36-118 | Every step keeps the workflow's invariant: well-formed rows, claims below the generation counter, what processes remember of their writes, requests and grants, and the job behind every approved, never granted request |
| `AccessSagaInvariants.Always` | server/src/access/service.ts:36-118 | The invariant holds in every state of every run |
| `AccessSagaGateway.StepSees` | server/src/credentials/consumers.ts:112-172 | Every step keeps what processes know of the gateway true: a read under the current tag is the present content, and under the key no fenced write is newer than one's own |
| `AccessSagaGateway.AlwaysSeen` | server/src/credentials/consumers.ts:112-172 | That knowledge is right in every state of every run |
| `AccessRows.RestoreUndoesClaim` | server/src/access/service.ts:849-894 | A revocation that is claimed and then rolled back leaves every request, grant and job exactly as it was |
| `AccessRows.RestoreExactly` | server/src/access/service.ts:813-894 | A rollback restores its grant if and only if the grant still carries this very claim, the grantee is active and a group is present; it is refused if and only if another grant is active then; it touches no other grant or job |
| `AccessRows.RestoreTwice` | server/src/access/service.ts:953-1000 | Running a rollback again after it restored changes nothing |
| `AccessRows.ClaimLeavesNone` | server/src/access/service.ts:2148-2274 | After a revocation's claim no grant of the identity is active, and a tool request it stranded no longer waits |
| `AccessRows.SettleKeepsWellFormed` | server/src/access/service.ts:2575-2683 | Recovery's move of a request keeps one active grant and one pending request per identity |
| `AccessStore.Store.FindActive` | server/src/access/service.ts:3062-3074 | The read returns the identity's one active grant, and none only if there is none |
| `AccessStore.Store.DeleteClaimedJob` | server/src/access/service.ts:1474-1501 | A job row is deleted if and only if the claim is its current one, and nothing else changes |
| `AccessStore.Store.Reschedule` | server/src/access/gateway-job-worker.ts:208-217 | A job goes back to the queue if and only if the claim is its current one |
| `AccessStore.Store.ClaimDecision` | server/src/access/service.ts:1434-1464 | The decision and the job it owes commit together, only from `pending`, and keep the rows well formed |
| `AccessStore.Store.Commit` | server/src/access/service.ts:3141-3192 | The grant commits with the end of its job, only while the approval owns it and no grant is active; a refusal rolls all of it back |
| `AccessStore.Store.SettleOwn` | server/src/access/service.ts:1399-1419 | A compensation moves only its own request, only while it owns the job, and a taken pending slot rolls it back |
| `AccessStore.Store.SettleRecovered` | server/src/access/service.ts:2575-2683 | The statements of a recovery's end have the effect that `RecoverySettles` is about |
| `AccessStore.Store.Withdraw` | server/src/access/service.ts:3391-3420 | A sweep's claim and a revocation's end the grant only if it is active, with the originating request and the tool request it strands in the same transaction, and remember both as they were |
| `AccessStore.Store.ClaimRevoked` | server/src/access/service.ts:2160-2274 | The grant, its originating request, the tool request it strands and the job move in one transaction, and both requests are remembered as they were |
| `AccessStore.Store.MoveRequestToRevoked` | server/src/access/service.ts:674-691 | The originating request is moved if and only if it still reads `approved`, and is returned as it was |
| `AccessStore.Store.CancelToolRequest` | server/src/access/service.ts:703-738 | The stranded tool request makes way: no request waits any more, and it is exactly the one, as it was, that a rollback of this very claim would put back unless an account recovery is outstanding |
| `AccessStore.Store.RestoreRevoked` | server/src/access/service.ts:849-894 | The statements of a rollback have the effect that `RestoreExactly` is about, and a refusal leaves every row alone |
| `AccessStore.Store.RestoreToolRequest` | server/src/access/service.ts:752-781 | The cancelled tool request returns if and only if it still carries that cancellation, no recovery is outstanding and no request waits |
| `AccessStore.Store.RevokeAndRollBack` | server/src/access/service.ts:1090-1232 | A revocation whose removal the gateway refuses leaves all rows as they were, for an active account without an outstanding recovery |
| `AclGroups.RewritesSpareOthers` | server/src/access/service.ts:601-639 | An approval's, a removal's, a compensation's and a recovery's rewrite each keep every group that is not this API's, in order |
| `AclGroups.OtherApisAreOthers` | shared/src/agents.ts:240-257 | An API id without a colon never names another API's groups, so those are among the groups spared |
| `AclGroups.AddedMeans` | server/src/access/service.ts:601-639 | The list an approval writes holds exactly the groups its subset covers |
| `AclGroups.RemovedMeans` | server/src/access/service.ts:601-639 | The list a removal writes holds none of the API's groups |
| `AclGroups.StrippedMeans` | server/src/access/service.ts:1694-1920 | A compensation's list loses exactly the tool groups it names |
| `AclGroups.ReconciliationMeans` | server/src/access/service.ts:2488-2537 | A recovery's list means what the saga's recovery writes, `AccessSaga.Reconciled` |
| `GatewayJobWorker.Queue.ReleaseStale` | server/src/access/gateway-job-worker.ts:228-235 | Exactly the claims untouched past the threshold return to the queue, due at once, and are counted |
| `GatewayJobWorker.Queue.ClaimDue` | server/src/access/gateway-job-worker.ts:257-271 | A due job is claimed under a generation never used before; none is claimed only if none is due |
| `GatewayJobWorker.Queue.Settle` | server/src/access/gateway-job-worker.ts:201-226 | Each outcome leaves its row as stated: gone, due again after the backoff, untouched, or, when the claim was lost, as others left it and claimed only under a later generation; no other row moves |
| `GatewayJobWorker.Queue.Tick` | server/src/access/gateway-job-worker.ts:237-285 | A cycle counts every claim under exactly one heading, leaves nothing due at its last clock reading unless the batch ran out or a claim failed, and claims a row again only when the clock has passed the backoff of a failure within the cycle or its claim was lost |
| `GatewayJobWorker.BackoffBounds` | server/src/access/gateway-job-worker.ts:161-175 | The delay before jitter never shrinks with the attempts and stays between ten seconds and five minutes; jitter adds at most a tenth |
| `GatewayJobWorker.BudgetExceedsStale` | server/src/access/gateway-job-worker.ts:94-110 | A request can hold a job past the stale threshold if and only if the Admin API deadline is thirty seconds or more |
| `StrandedRepair.Sweep` | server/src/access/stranded-repair.ts:89-100 | While rows leave the status, and wherever the process stops, the keyset loop meets rows in order and none twice, each key it met had its job asked for or failed a check, no key is asked for twice, and each asked for passed every check; if it did not stop, every row that kept the status was met |
| `StrandedRepair.Repair.Run` | server/src/access/stranded-repair.ts:119-203 | A run that stops anywhere records nothing, and one that is recorded has asked for a job for every identity and every request stranded throughout it, one per identity and none unjustified, after any number of earlier stops |
| `JsonPointer.Evaluate` | shared/src/openapi.ts:110-150 | The scan that counts segments before splitting returns the value that the reference names, and reads exactly as many segments as splitting gives |
| `JsonPointer.PointerRoundTrip` | shared/src/openapi.ts:96-150 | A path of own keys and indices, escaped and with any characters percent-encoded in UTF-8, evaluates to the value at that path within the length and segment bounds and to nothing beyond them |
| `JsonPointer.TokenRoundTrip` | shared/src/openapi.ts:130-136 | Decoding a segment gives back the token it spells (sections 3, 4 and 6 of RFC 6901) |
| `JsonPointer.IndexRoundTrip` | shared/src/openapi.ts:137-141 | A decimal index names that element, and nothing past the end |
| `JsonPointer.IndexIsCanonical` | shared/src/openapi.ts:137-141 | An accepted index has one spelling only |
| `JsonPointer.PointsInside` | shared/src/openapi.ts:96-150 | Whatever a reference names lies on a path of at most 200 steps from the root |
| `JsonPointer.AtStaysInside` | shared/src/openapi.ts:96-150 | Such a value is a value of the document |
| `RefChains.Resolver.Resolve` | shared/src/openapi.ts:308-323 | After any history of calls the resolution is that of a walk with no memo, and no reference string was ever looked up twice |
| `RefChains.Resolver.Follow` | shared/src/openapi.ts:243-306 | The memoised outcome equals the plain walk's, and outcomes memoised before are kept |
| `RefChains.Resolver.Descend` | shared/src/openapi.ts:253-290 | The loop ends for every finite document, and leads by distinct links to a reference whose outcome is memoised |
| `RefChains.Resolver.CloseLoop` | shared/src/openapi.ts:259-268 | Every reference on a loop is memoised as the one that repeats, as a walk starting there finds it |
| `RefChains.Resolver.Unwind` | shared/src/openapi.ts:291-305 | Every link of the chain is memoised with its plain outcome, innermost first |
| `RefChains.PlainEnds` | shared/src/openapi.ts:194-215 | The outcome of a chain that does not loop: where it ends, after exactly how many lookups, and that the outermost sibling text wins |
| `RefChains.LoopNamesItself` | shared/src/openapi.ts:259-268 | From any reference on a loop, that reference is the one reported |
| `RefChains.CycleExactly` | shared/src/openapi.ts:217-236 | A cycle is reported if and only if the chain never ends, so the hop limit never masks one |
| `RefChains.DepthExactly` | shared/src/openapi.ts:308-322 | `depth` is reported if and only if the chain ends but takes more lookups than the limit, and it names the reference the chain started from |
| `RefChains.ResolvedExactly` | shared/src/openapi.ts:308-322 | A success is the object the chain ends at within the limit, with the outermost texts of the value and of every reference on the way |
| `RefChains.Independent` | shared/src/openapi.ts:243-258 | Where a walk came from does not change its outcome once every reference it can reach is settled, which is what makes sharing the memo right |
| `OpenApiRefs.ViewIsSound` | shared/src/openapi.ts:152-156 | Every chain of a document stays among the document's own references |
| `OpenApiRefs.CreateResolver` | shared/src/openapi.ts:237-241 | A new resolver of a document starts with an empty memo over that document |
| `OpenApiParameters.SpellingIsInjective` | shared/src/openapi.ts:339-362 | Two identities get the same key if and only if `in` and the folded name are equal, whatever characters they hold and for any injective compaction |
| `OpenApiParameters.Keyer.Key` | shared/src/openapi.ts:400-415 | The key is the same whether or not the object was keyed before, and its texts are charged for the first time only |
| `OpenApiParameters.Merge` | shared/src/openapi.ts:462-474 | The two loops build the path-level entries not redeclared, then the operation's own |
| `OpenApiParameters.MergesByIdentity` | shared/src/openapi.ts:454-474 | Exactly the path-level entries whose identity the operation declares are dropped, all others keep their order, and an entry without an identity is never dropped |
| `AgentPathItems.Reader.Resolve` | shared/src/agents.ts:96-139 | With any memo left by earlier calls the chain and target, or the refusal, are those of a read without a memo, and a chain is at most 32 long |
| `AgentPathItems.ChainNeeds` | shared/src/agents.ts:125-130 | A chain found with more hops is the chain with fewer exactly while it fits them, which is what joining a known tail needs |
| `AgentPathItems.RepeatHasNoChain` | shared/src/agents.ts:107-116 | A reference met again means there is no chain, however many hops are allowed |
| `AgentPathItems.ReadMember` | shared/src/agents.ts:141-147 | The loop in place returns the member of the outermost reference that sets it |
| `AgentPathItems.Copy` | shared/src/agents.ts:166-176 | For every key the overlaid copy answers as the read in place does |
| `AgentPathItems.CopyAll` | shared/src/agents.ts:149-178 | One shared memo gives every Path Item the copy it has on its own, in document order, and the whole is refused if and only if one of them has no chain |
| `ConsumerRepair.ApprovedGroups` | server/src/admin/gateway-reconciliation.ts:463-494 | Page by page, the groups that `GroupsForAre` characterises |
| `ConsumerRepair.GroupsForAre` | server/src/admin/gateway-reconciliation.ts:450-494 | A group is written for an identity if and only if an active grant of that very identity, for an API of this namespace, covers it, the account is active, and the application, if any, is its own |
| `ConsumerRepair.RecreatedGroups` | server/src/admin/gateway-reconciliation.ts:690-712 | A pass that recreates a consumer and leaves it there leaves it with exactly those groups, and changes no other consumer |
| `ConsumerRepair.LiveCredentialIds` | server/src/admin/gateway-reconciliation.ts:496-509 | Page by page, exactly the live rows of the consumer, in order |
| `ConsumerRepair.RepairRecorded` | server/src/admin/gateway-reconciliation.ts:511-550 | True if and only if the repair records of that consumer stamped at or after the given time list every one of the rows between them |
| `ConsumerRepair.Site.Attempt` | server/src/admin/gateway-reconciliation.ts:625-787 | One pass: either the relink, the revocations and the record commit together, or none does and the new consumer stays only when it is kept for a later pass or cannot be taken down |
| `ConsumerRepair.Site.Repair` | server/src/admin/gateway-reconciliation.ts:586-846 | However a repair ends as repaired or as present, with a lost lease and whatever others did to the rows and the gateway in between, a row live when the consumer was found missing ends revoked and on a repair record if and only if the first pass committed, or it was already so when the second began, or it was then still stale for the account's consumer and that was missing again or the kept one |
| `ConsumerRepair.SecondPassSettles` | server/src/admin/gateway-reconciliation.ts:563-584 | Per stale row, whether the second pass found a consumer or recreated it again: it ends revoked and on a record if and only if it was already so, or was still stale for the consumer of that moment, unless the pass found one that is not the kept one |
| `ConsumerRepair.RepairAccounts` | server/src/admin/gateway-reconciliation.ts:563-584 | So every stale row is accounted for when others touch those rows by repairs only |
| `ConsumerRepair.ResumeSparesNewRows` | server/src/admin/gateway-reconciliation.ts:643-661 | The resumed pass revokes only rows that were live before the consumer was recreated, never one written for it, and never one revoked or moved since |
| `ConsumerRepair.ResumeFinishes` | server/src/admin/gateway-reconciliation.ts:643-687 | After a resumed pass no stale row is live on the consumer, and its record lists exactly what it revoked |
| `ConsumerRepair.RecordsOnce` | server/src/admin/gateway-reconciliation.ts:577-582 | A resumed pass adds a record if and only if a stale row is still live, some stale row is on no record recent enough, or there were no stale rows |
| `ConsumerRepair.EmptyRepairRecordedTwice` | server/src/admin/gateway-reconciliation.ts:577-582 | A repair without stale rows that another instance recorded whole is recorded again |
| `ConsumerRepair.OwnerRevocationUnlisted` | server/src/admin/gateway-reconciliation.ts:649-662 | A stale row its owner revoked between the passes is on no repair record |
| `Settings.CommitKeepsProvenance` | server/src/admin/settings-service.ts:757-795 | After each of a commit's three writes the stored secret belongs to the stored provider and an enabled, readable challenge was accepted by a self-test; and it ends with an enabled challenge without a secret if and only if the plan counted on a stored one that is gone |
| `Settings.Service.PlanCaptcha` | server/src/admin/settings-service.ts:568-649 | Resolving a patch under a fingerprint whose rows were read at any earlier moments keeps every earlier plan valid, and a challenge is recorded as accepted only if the vendor accepted it |
| `Settings.Service.CommitCaptcha` | server/src/admin/settings-service.ts:757-795 | A plan of any age commits if and only if the rows are still at its fingerprint; every state visible on the way keeps the provenance, even when the writes stop short; and a full commit over the rows it was resolved over leaves an enabled challenge its secret |
| `Settings.FingerprintMissesRemovedSecret` | server/src/admin/settings-service.ts:572-576 | A sequence of plans and commits on a store without transactions after which an enabled challenge has no secret |
| `Settings.UpdateKeepsProvenance` | server/src/admin/settings-service.ts:797-862 | After each write of an SMTP update a stored password belongs to the connection in force; after the last, without an override, the environment's password goes only to the environment's connection |
| `Settings.PresentedIsSupplied` | server/src/email/service.ts:569-602 | Whatever password the mailer presents was supplied for the connection it is presented to |
| `Settings.Service.UpdateSmtp` | server/src/admin/settings-service.ts:797-862 | Over every sequence of updates, admitted or refused, whole or interrupted, in every state a reader may have seen a stored password belongs to the connection in force and nothing is presented to a connection it was not supplied for; after a whole update the environment's password goes only with the environment's connection |
| `Settings.KeptExactly` | server/src/admin/settings-service.ts:836-862 | After an update's first write a row without an override keeps the environment's connection exactly unless the patch drops an override while the connection is another; after the second exactly unless it brings a password for another connection; after the third always |
| `Settings.InterruptedUpdateForgetsOverride` | server/src/admin/settings-service.ts:836-845 | An admitted update whose first write leaves such rows, and the mailer then presents nothing |
| `Html.EscapeIsPerCharacter` | shared/src/html.ts:8-15 | The five passes are one rewrite of each character on its own: no pass touches what an earlier one wrote |
| `Html.EscapeGrows` | shared/src/html.ts:8-15 | Escaping never makes a text smaller in UTF-8 |
| `MassEmail.WorstCase` | server/src/admin/mass-email-service.ts:223-275 | The running maxima dominate every recipient and the fallback name, raw and escaped |
| `MassEmail.EveryCopyFits` | server/src/admin/mass-email-service.ts:420-459 | No copy the fan-out can queue, with its own name or the fallback, is larger than the bound, whatever the link policy refuses |
| `MassEmail.ChunksFit` | server/src/admin/mass-email-service.ts:460-496 | A chunk never takes more than its ceiling when one message fits |
| `MassEmail.KeysAreInjective` | server/src/admin/mass-email-service.ts:620-624 | The outbox key names one (actor, batch, recipient), whatever the batch key holds |
| `MassEmail.Outbox.Admit` | server/src/admin/mass-email-service.ts:497-568 | A campaign is charged once, its retries are recognised by their digest, a reused key and an exhausted budget are refused, and nothing else is written |
| `MassEmail.BudgetHolds` | server/src/admin/mass-email-service.ts:531-553 | In no window, wherever it ends, was an administrator charged more than the limit |
| `MassEmail.Outbox.Enqueue` | server/src/admin/mass-email-service.ts:613-626 | A row is added if and only if its key is free |
| `MassEmail.Outbox.Chunk` | server/src/admin/mass-email-service.ts:593-630 | A chunk's rows are added all or none, for its own recipients, and counted |
| `MassEmail.Outbox.FanOut` | server/src/admin/mass-email-service.ts:587-635 | Over any number of partly failing attempts there is one row per key, each under a charged intent of the same digest, and the reported counts sum to the rows; a failure-free attempt leaves every recipient not refused queued |
| `Publishing.ExpandServerUrl` | shared/src/publishing.ts:54-87 | The early exit agrees with plain substitution of the declared defaults: too long if and only if the substituted text is, in UTF-16 units, and otherwise that text, or nothing if a brace is left or a variable has no text default among its declared values |
| `Publishing.FirstUsable` | shared/src/publishing.ts:94-106 | The first entry that is too long or usable decides, and nothing is chosen only if none does |
| `Publishing.SlugPatternMeans` | shared/src/publishing.ts:14-19 | The pattern accepts exactly the non-empty words and single hyphens with no hyphen at either end |
| `Publishing.SlugifyIsValid` | shared/src/publishing.ts:21-31 | A slug is empty or valid and at most 60 characters |
| `Publishing.SlugifyKeepsSlugs` | shared/src/publishing.ts:21-31 | A valid slug is its own slug |

## Left out

- AccessSagaOwed.AccessIsOwed: one direction; a run that takes a gap may still be owed by a row that its owner is done with, and `OwedThroughout` and `BackedThroughout` are the exact statements.
- AccessSagaLanding.CommitLeavesItsGroups: says nothing of the groups after the commit; that an active grant's groups stay on the gateway is not a promise the code makes, because it restores on an unreadable consumer.
- AccessSagaLanding.LandedWriteSpares: an account teardown's write empties the consumer of a disabled account whatever its grants, the disable sweep's is the subject of `SweepStripsLater`, and writes issued without the consumer key that of `UnfencedRemovalLands`.
- AccessSagaRecovery.RecoveryLeavesGroups: the consumer key is released when the write is acknowledged, before the rows are settled, so a write of another key holder may take effect in between; the lemma then says only that there was one.
- AccessStore.Store.RevokeAndRollBack: only for an active account without an outstanding recovery, where the code does promise a full undo; the other cases are `AccessRows.RestoreExactly`.
- AccessStore.Store.RestoreRevoked: one flag stands for the three refusals of a missing account, a disabled account and a missing application.
- AccessStore.Store.Reschedule: the time of the next attempt is part of `GatewayJobWorker.Queue.Settle`, and the recorded error is not part of this model.
- GatewayJobWorker.Queue.Settle: what the service's recovery comes to is an argument; the saga models the recovery itself, without the clock.
- GatewayJobWorker.Queue.Tick: outcomes are arguments, as above; others touch only rows whose claims they took over during the cycle.
- JsonPointer.Evaluate: texts are sequences of Unicode scalar values, so lone surrogates are not part of this model; the length bound is in UTF-16 units.
- MassEmail.EveryCopyFits: the template is a list of fixed texts and the two recipient variables; the neutral display name and the link policy are arbitrary functions.
- MassEmail.WorstCase: measures texts by two functions, which `EveryCopyFits` ties to UTF-8 sizes.
- MassEmail.Outbox.FanOut: a failed chunk is taken as rolled back, and a re-run of a transaction body as one run of it.
- OpenApiParameters.Keyer.Key: the identity map is by value identity; garbage collection of its entries does not matter here.
- Publishing.ExpandServerUrl: trimming is an arbitrary function, and whether an expanded URL can be used is another; own members only, so an inherited `enum` or `default` is not part of this model.
- Publishing.SlugifyIsValid: starts after Unicode decomposition, lower-casing and the removal of combining marks.
- StrandedRepair.Repair.Run: a job is asked for; whether the row was there already is the store's insert-if-absent, and the run's steps are not interleaved with the saga's.
- The proxy lease of an API is not part of this model. That allows more interleavings than the code does, so the proofs over all runs do not need it; the witness runs respect it: within each, no two of the processes that would hold it work at once.
- Admission reads are one step with the claim they admit.
- Consumers that do not exist yet or any more, applications and their status, and jobs whose request or grant row is gone: the saga's identity always has its consumer and its rows.
- APIs without agent tools, whose grants carry only the approval group, and publishing revisions that retire tool ids: the saga's tool set is fixed.
- Time in the saga: a stale release, a retry and a worker's claim may happen at any moment, which includes every schedule the clock allows. Fairness and liveness are not stated.
- Timers, the sharing of one tick in flight, logging, notifications, audit payloads, and HTTP routes.
- The size ceiling of a whole campaign, its digest (taken as injective), its audience selection and its completion record.
- Settings other than CAPTCHA and SMTP, role checks, encryption and template rendering; blank texts are trimmed of ASCII white space only.
- The reconciliation scans for missing consumers and proxies, `openApiRefSiblingsApply`, agent operation listing and specification change reports, which would only add easy members.
- The store adapters, leases and the gateway client are taken by their contracts: serialised transactions fenced by leases, unique indexes, compare-and-set, and conditional writes.
