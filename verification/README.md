# Burnly: verified models of collect-sync, sessions and refresh

Dafny models of the desktop application's core logic, with proofs over every run of its protocols. One file per module;
`dafny verify dfyconfig.toml` checks all of them.

**The outbox protocol** (`Scopes`, `CommittedUploads`, `Batches`, `OutboxStore`, `SyncMachine`, `SyncService`). Daily
usage is exported, sorted and cut into immutable batches with allocated revisions and idempotency keys; a single worker
pushes them while sign-ins, sign-outs, crashes, lost replies, rate limits and new commits arrive at any time.
`SyncMachine` is the state machine: durable store, volatile control fields, one worker, a network that delays, repeats
or loses requests, and a server that applies each key once. Its histories (what was created and exported, which keys
were drawn, what the last worker exit is to be blamed on) are read by no transition. `SyncService.CollectSync` and
`OutboxStore.CollectSyncStore` are the objects of the program; each method is proved to perform exactly the
corresponding transition, so what the lemmas say of runs holds of the objects. The store follows the in-memory
implementation beside the service; whether the backend answers a call, what the export returns, which fresh keys are
drawn and whether a thread spawns are parameters (`Io`).

One transition is a whole account handler, a whole kick or one of its two halves, or one worker step up to its next
network call together with the exit handling. The session and the sign-in and sign-out handlers move in separate
transitions, as in the program, or in one. The invariants and their runs are in `Delivery` and `DeliveryRuns`
(exactly-once and isolation), `Coverage` (nothing committed is forgotten), `Baseline`, `Contents` (the batches hold
exactly the exported facts), `Timing` (backoff, failures, stale workers), `Idleness` (terminal blocks, honest idleness)
and `Drain` (termination of the worker loop); what each handler, step and reply leaves behind from every reachable state
is in `Handlers` and `Steps`.

**The session** (`CloudSessions`): logins, logouts and single-flight refreshes, with the remote call outside the lock.
**The refresh** (`RefreshRuns`, `Planner`, `CollectionScopes`): the target loop with its failure paths, and the day ranges
it plans. **Smaller cores**: `GapFill` (cost gap filling), `QueryCodec` (percent encoding and the sign-in callback).

Where a promise does not hold of the code, the code is kept and the boundary is proved: `Limits` (and
`FailedSaveReplaysToken`) gives concrete runs, and the lemmas named *ExactlyWhen*, with `CommittedTargetsAreCovered`,
`UnsavedRotationIsReplayed` and `CallbackRoundTrip`, give the exact condition. In short: a commit during the device
registration of a generation can be lost; a refused full-scope merge at sign-in can hollow out the baseline; a kick
caught between its check and its compare-exchange can push in an epoch that has ended terminally; a session that leaves
and comes back without its handler, or a repair while nobody is signed in, can leave the service idle before work;
history before 1970 can be cut by a later full-history target; a failed save after a token rotation replays the old
token; a first catch-up later than three days after a full import, or a freshness refresh that skips days, can leave a
hole; a refresh that breaks off does not announce usage it has already stored; a percent sign in front of a multi-byte
character can make the callback parser panic.

## Model

| member | source | states |
|---|---|---|
| DeliveryRuns.ExactlyOnceInOrder | src-tauri/src/application/collect_sync/service.rs:584-635 | In every run (replies lost before or after the server applied the push, repeats, device-missing replies, crashes, account switches, failing store calls) the server log of a user is a prefix of the batches ever created for that user, in creation order, with revisions 1, 2, 3, … and no key and no body applied twice. |
| DeliveryRuns.EmptyQueueMeansDelivered | src-tauri/src/application/collect_sync/service.rs:427-432 | Whenever an account has nothing queued, its server log equals everything ever created for it. |
| DeliveryRuns.QuiescentMeansDelivered | src-tauri/src/application/collect_sync/service.rs:423-454 | A worker whose step ends Quiescent exits as such with everything ever created for its account in the server log, nothing pending and the baseline complete. |
| Contents.GenerationsHoldTheirExport | src-tauri/src/application/collect_sync/service.rs:490-557 | Every transition of every run adds nothing to the records of a user, or adds one export of the scope that was due, for the account it may work for, and exactly the batches whose bodies, put end to end, are the facts this export returned: same multiset, ascending by date and identity key, equal keys in the given order, cut, windowed and labelled as the contract asks (1000 facts, 100 models). |
| Contents.OutboxSpellsTheExports | src-tauri/src/application/collect_sync/service.rs:513-556 | Over any run the batches created for a user are the exports of that user one after another, each holding exactly the facts it returned, and together they hold every exported fact once. |
| Contents.AppliedExportIsWhole | src-tauri/src/application/collect_sync/service.rs:584-597 | Once the server log of a user reaches to the end of an export, the requests in its place hold exactly the facts of that export. |
| Contents.EmptyQueueMeansUsageDelivered | src-tauri/src/application/collect_sync/service.rs:427-432 | With nothing left in the queue the server holds every fact ever exported for the user, exactly once. |
| Contents.QuiescentMeansUsageDelivered | src-tauri/src/application/collect_sync/service.rs:423-454 | A worker that ends Quiescent has delivered every fact ever exported for its account, exactly once. |
| Contents.CompleteBaselineHoldsEverything | src-tauri/src/application/collect_sync/service.rs:589-620 | Until an empty narrow export completes an unstarted baseline, status complete means some export of everything whose facts, all of them and in order, are in the server log. |
| Contents.CaptureTakesPendingScope | src-tauri/src/application/collect_sync/service.rs:435-458 | A generation that waits for its device registration holds the scope that was pending, or everything, and the stored baseline status, of the account of the signed-in active user. |
| Contents.MaterializeHoldsExport | src-tauri/src/application/collect_sync/service.rs:490-557 | Materialising a generation leaves the records as they are, or adds exactly the export it ran and the batches that hold it. |
| DeliveryRuns.NextKeepsDelivery | src-tauri/src/application/collect_sync/service.rs:384-635 | Every transition keeps the delivery invariant (queue = unaccepted tail of what was created, log at most one batch ahead of acceptance, every sent request an exact created batch no further than the queue head, worker holding that head), and only an accepted reply moves acceptance, by at most one, for one user. |
| DeliveryRuns.WorkersSendTheirOwnBatches | src-tauri/src/application/collect_sync/service.rs:559-588 | A worker sends its own account as expected user, and across any account switches the batch it carries is the head of that very account's queue and belongs to it. |
| DeliveryRuns.PushesGoOnlyToTheirOwner | src-tauri/src/application/collect_sync/service.rs:584-588 | Every request ever sent names as expected user the owner of the batch whose exact body and key it carries, across any account switches. |
| DeliveryRuns.AcceptedOnlyUnderOwner | src-tauri/src/application/collect_sync/service.rs:589-597 | A batch leaves the outbox only through an accepted push of exactly that queue head, by a worker of the owning account; acceptance never goes back. |
| Delivery.DeliverKeeps | src-tauri/src/application/collect_sync/service.rs:584-588 | Delivering any sent request, at any time and any number of times, to a server that applies each idempotency key once keeps the delivery invariant. |
| Delivery.GenerationKeepsDurable | src-tauri/src/application/collect_sync/service.rs:539-556 | A generation whose revisions continue the account and whose keys are unused leaves every queue, log and revision consistent, its own and all others. |
| Delivery.AcceptKeepsDurable | src-tauri/src/application/collect_sync/service.rs:589-597 | Marking an applied head accepted advances exactly that account by exactly one and touches no other. |
| Coverage.NoCommittedUsageIsForgotten | src-tauri/src/application/collect_sync/service.rs:78-99 | Every day of every target of a merged commit is, at all later points of the run and whatever else is committed, inside the pending scope of the account or inside the query of an export taken after the merge; asks only of that one commit that no generation of its account stands between loading a narrower scope and storing its batches, and that no early history is cut. |
| Coverage.RepairReachesEveryAccount | src-tauri/src/infrastructure/database/antigravity_baseline_repair.rs:767-775 | The scope of a baseline repair is, for every known account, signed in or not, at all later points of the run inside the pending scope or a later export, unless a generation of the account stands between loading a narrower scope and storing its batches. |
| Coverage.NextKeepsCoverage | src-tauri/src/application/collect_sync/service.rs:496-556 | No transition forgets a commit it has once kept, whatever else is committed, including while a generation is between loading its scope and storing its batches. |
| Coverage.LateCommitSurvivesExactlyWhen | src-tauri/src/application/collect_sync/service.rs:435-458 | A commit that arrives after the worker loaded the scope and before it stores the generation is remembered afterwards if and only if the loaded scope contains it, field by field. |
| Limits.LateCommitIsForgotten | src-tauri/src/application/collect_sync/service.rs:456-458 | A concrete run from the start in which a commit lands during device registration and its usage is neither pending nor exported afterwards. |
| Baseline.BaselinesAreRealExactlyWhen | src-tauri/src/application/collect_sync/service.rs:460-482 | Over any run, every baseline ever complete stands for a full export whose batches are all accepted, if and only if no empty export of a narrower scope ever completed a baseline stored as not started. |
| Baseline.CompleteBaselineIsReal | src-tauri/src/application/collect_sync/service.rs:218-231 | Until such an export, status complete implies some full export of that account whose batches, all of them, are in the server log. |
| Baseline.FaithfulSignInsNeverHollow | src-tauri/src/application/collect_sync/service.rs:218-231 | As long as the sign-in handler runs for the account of the session and its store calls succeed, no such export ever happens. |
| Baseline.NextKeepsBaseline | src-tauri/src/application/collect_sync/service.rs:460-482 | With no assumption on sign-ins, every transition keeps: not started means no full export was made, in progress means one was, and the baseline a worker captured is the stored one; a transition that hollows no baseline also keeps complete meaning a full export entirely accepted. |
| Baseline.EmptyExportCompletesRightlyExactlyWhen | src-tauri/src/application/collect_sync/service.rs:460-482 | In every reachable state, an empty export that completes the baseline does so rightly if and only if it exported the full scope or the stored status was already in progress. |
| Limits.RefusedSignInMergeHollowsBaseline | src-tauri/src/application/collect_sync/service.rs:223-231 | A concrete run in which the ignored failure of the full-scope merge at sign-in lets the baseline be marked complete without any full export. |
| Timing.BackoffIsRespected | src-tauri/src/application/collect_sync/service.rs:394-415 | If a deadline of an epoch stood at some point, no later push of that epoch starts before it unless retry_now, a sign-in, a sign-out or a restart came in between; holds even when a kick is split between its check and its compare-exchange. |
| Timing.StaleWorkerPushesAtMostOnce | src-tauri/src/application/collect_sync/service.rs:559-576 | After the epoch has moved on, all workers of the old epoch together start at most one more push, for the rest of the process. |
| Timing.NextKeepsControl | src-tauri/src/application/collect_sync/service.rs:271-334 | Running means a worker exists, worker epochs never run ahead, a deadline always belongs to the current epoch, and a worker past its checks is never backing off. |
| Idleness.TerminalStaysQuiet | src-tauri/src/application/collect_sync/service.rs:299-334 | After a terminal exit that no kick straddles, no push starts, in that epoch or a later one, until retry_now, the retry of a repair, a sign-in or a restart; kicks may split anywhere else. |
| Idleness.BlockHoldsExactlyWhen | src-tauri/src/application/collect_sync/service.rs:271-298 | A blocked epoch gets no worker again, in any continuation without those events, if and only if no kick stands between its two halves. |
| Idleness.FailedPushIsNotRepeatedEarly | src-tauri/src/application/collect_sync/service.rs:779-835 | After a failed push or registration of the current epoch the next push of the epoch waits as long as the server asked, or 15, 2 or 5 seconds by kind of error, if another attempt can help, and for a retry, a sign-in or a restart if it cannot. |
| Timing.FailureBacksOffOrBlocks | src-tauri/src/application/collect_sync/service.rs:701-723 | Such a failure always ends the worker, leaves a deadline for the wait or blocks the epoch, and touches no queue. |
| Timing.FailureIsRecorded | src-tauri/src/application/collect_sync/service.rs:701-723 | A failure that can be recorded shows its code, its time and whether another attempt can help, for its account, and nothing else in the store changes. |
| Timing.ErrorsAreClassified | src-tauri/src/application/collect_sync/service.rs:779-835 | Code, retryability and wait of every error, as a table. |
| Limits.SplitKickPushesInBlockedEpoch | src-tauri/src/application/collect_sync/service.rs:271-298 | A concrete run from the start in which a kick that passed its check before the terminal exit starts a worker that pushes in the blocked epoch. |
| Idleness.IdlenessIsHonestExactlyWhen | src-tauri/src/application/collect_sync/service.rs:299-334 | Over any run: in every state, idling in front of the active user's work (no worker, no kick under way, not cancelled, not blocked, no deadline) follows a store or spawn failure, if and only if no transition strands work: a worker that stops while the session is not the active user's and is not started again for whoever holds it, or a repair that merges work for an idle service with nobody signed in. |
| Idleness.LoopHeadStrandsExactlyWhen | src-tauri/src/application/collect_sync/service.rs:384-393 | With every call answered, a worker at the loop head goes idle in front of the active user's work if and only if the session is not that user's and the worker is of the current epoch or sees no work for whoever holds the session. |
| Idleness.IdlenessIsHonest | src-tauri/src/application/collect_sync/service.rs:307-332 | In particular, with the session the active user's since the last sign-in, a service that idles before work got there by a store call that failed or a spawn that failed, whatever split kicks, handlers and failures the run holds. |
| Limits.StraySessionStopsWorker | src-tauri/src/application/collect_sync/service.rs:384-393 | A concrete run, with or without failing reads, in which the session leaves and returns without its handler and the service idles before work with no failure to blame. |
| Limits.RepairStrandsWork | src-tauri/src/infrastructure/database/antigravity_baseline_repair.rs:769-775 | A concrete run in which a repair merges its scope while the session is away, and the service idles before that work once the session is back. |
| Handlers.SignInRevives | src-tauri/src/application/collect_sync/service.rs:207-233 | From every reachable state, whatever a sign-out, a terminal error or a backoff left behind, a sign-in makes its user active in a new epoch with nothing cancelled, blocked or delayed, and, if a thread can be spawned, with a worker: of the new epoch unless an older one has yet to stop. |
| Handlers.SignInAsksForEverything | src-tauri/src/application/collect_sync/service.rs:218-231 | A sign-in leaves the account of the session known and, while its baseline is not complete, asking for everything; field by field nothing else in the store changes. |
| Handlers.SignOutCancels | src-tauri/src/application/collect_sync/service.rs:235-241 | A sign-out cancels, forgets user and deadline and opens a new epoch, and touches neither store nor worker. |
| Handlers.WithoutUserAtMostOnePush | src-tauri/src/application/collect_sync/service.rs:384-393 | After a sign-out, and before the first sign-in, only the one push already past its checks can start, through commits, repairs, retries, kicks caught between their halves and restarts. |
| Handlers.RetryStartsWorker | src-tauri/src/application/collect_sync/service.rs:258-263 | A retry, the one after a repair included, lifts block and deadline and starts a worker unless the service is signed out. |
| Handlers.TimerStartsWorker | src-tauri/src/application/collect_sync/service.rs:336-362 | When its time has come the retry timer clears the deadline and starts a worker unless the epoch is blocked. |
| Handlers.CommitStartsWorker | src-tauri/src/application/collect_sync/service.rs:271-289 | A commit starts a worker exactly when the service is not cancelled, blocked or waiting, and lifts none of these. |
| Handlers.CommitWidensPendingScope | src-tauri/src/application/collect_sync/service.rs:243-256 | A merged commit makes the pending scope of its account the least one that covers the old one and the upload, and changes nothing else in the store. |
| Handlers.RepairWidensEveryPendingScope | src-tauri/src/infrastructure/database/antigravity_baseline_repair.rs:767-775 | A repair does the same for every known account and no other. |
| Handlers.HalfKickStartsWorker | src-tauri/src/application/collect_sync/service.rs:290-333 | The second half of a kick starts a worker unless one runs, without asking again, and then clears the cancel flag. |
| Steps.OnlyClearedWorkersStep | src-tauri/src/application/collect_sync/service.rs:384-402 | A worker at the loop head touches neither store nor network unless it is uncancelled, of the current epoch, past its deadline and working for the active user who holds the session; one of the current epoch that fails this just ends. |
| Steps.StepTakesWhatIsDue | src-tauri/src/application/collect_sync/service.rs:423-458 | What a cleared worker does in every reachable state: the queue head goes out, after a registration if the device is not registered as it is now; an unknown account is entered; a pending scope or an unfinished baseline becomes a generation; it ends on an unreadable store, and otherwise only with nothing due. |
| Steps.UploadsAreWork | src-tauri/src/application/collect_sync/service.rs:365-382 | With both reads answered, work is a queued batch of the account, a pending scope, or a baseline that is not complete, and nothing else. |
| Steps.GenerationGoesOn | src-tauri/src/application/collect_sync/service.rs:460-488 | A stored generation brings a current worker back to the loop head with its control state untouched; one that cannot be stored ends it with a store failure. |
| Steps.EmptyExportIsClean | src-tauri/src/application/collect_sync/service.rs:461-482 | An export that returned nothing leaves its account with no pending scope, a complete baseline, the time of the step and no error, and changes nothing else. |
| Steps.AcceptedPushIsSettled | src-tauri/src/application/collect_sync/service.rs:589-621 | An accepted push takes exactly its batch off the queue, shows time and no error, completes a running baseline if and only if the queue is then empty, touches no other account, and a current worker goes on. |
| Steps.UnmarkedPushEndsWorker | src-tauri/src/application/collect_sync/service.rs:590-597 | An accepted push that cannot be marked leaves the store as it is and ends the worker with a store failure. |
| Steps.MissingDeviceRecovers | src-tauri/src/application/collect_sync/service.rs:622-633 | After a push answered by a missing device the registration is declared void, the device registered again, and the very same batch pushed next, with nothing accepted or reordered in between. |
| Steps.StaleWorkersHandOver | src-tauri/src/application/collect_sync/service.rs:299-327 | A worker left over from an older epoch ends at the loop head or on a reply, and one of the current epoch takes over if and only if whoever holds the session has something to upload and the service is not cancelled, blocked or waiting. |
| SyncService.CollectSync.RunWorker | src-tauri/src/application/collect_sync/service.rs:384-421 | Against an accepting remote and an answering store the worker loop ends with nothing pending, the baseline complete, the server log equal to everything created, and at most rank (hence at most two) further generations. |
| SyncService.CollectSync.DrainStep | src-tauri/src/application/collect_sync/service.rs:423-488 | One pass leaves strictly less to do in the lexicographic order (account known, generations that can still be needed, queued batches), or has ended the worker with nothing left. |
| Drain.MaterializeIteration | src-tauri/src/application/collect_sync/service.rs:490-557 | A healthy generation lowers the number of generations that can still be needed and uses only fresh keys and available revisions. |
| Drain.AcceptedIteration | src-tauri/src/application/collect_sync/service.rs:589-620 | An accepted push takes one batch off the queue, completes a running baseline exactly when the queue is then empty, and needs no new generation. |
| SyncService.CollectSync.constructor | src-tauri/src/application/collect_sync/service.rs:127-151 | A new service over an empty store is an initial state of the machine. |
| SyncService.CollectSync.CurrentAccount | src-tauri/src/application/collect_sync/service.rs:725-737 | The account key: signed-in user with the trimmed device id, none for a blank one. |
| SyncService.CollectSync.HasWork | src-tauri/src/application/collect_sync/service.rs:365-382 | True exactly when queued batches are seen, or a loaded state has a pending scope or an unfinished baseline; failed reads count as nothing. |
| SyncService.CollectSync.Kick | src-tauri/src/application/collect_sync/service.rs:271-334 | The imperative kick performs the machine transition whose runs the lemmas above quantify over. |
| SyncService.CollectSync.CompareExchangeAndSpawn | src-tauri/src/application/collect_sync/service.rs:290-333 | At most one worker runs; a failed spawn leaves none running. |
| SyncService.CollectSync.ResumeKick | src-tauri/src/application/collect_sync/service.rs:290-333 | The second half of a kick that passed its check earlier performs the machine transition. |
| SyncService.CollectSync.EndWorker | src-tauri/src/application/collect_sync/service.rs:299-327 | Exit handling of the worker thread, with its re-kick conditions, refines the machine. |
| SyncService.CollectSync.SettleStep | src-tauri/src/application/collect_sync/service.rs:402-419 | What the loop does with a step result, rechecking cancel and epoch first, refines the machine. |
| SyncService.CollectSync.FailRemotely | src-tauri/src/application/collect_sync/service.rs:701-723 | Recording and classifying a remote failure refines the machine. |
| SyncService.CollectSync.MaterializeGeneration | src-tauri/src/application/collect_sync/service.rs:490-557 | Export, cutting and storing refine the machine; the records stay or grow by exactly the export it ran and the batches that hold all its facts. |
| SyncService.CollectSync.CloseEmptyExport | src-tauri/src/application/collect_sync/service.rs:461-482 | The extra writes after an empty export refine the machine. |
| SyncService.CollectSync.StepAtTop | src-tauri/src/application/collect_sync/service.rs:423-458 | One step from the loop head to its first network call refines the machine. |
| SyncService.CollectSync.AdvanceWorker | src-tauri/src/application/collect_sync/service.rs:384-402 | The loop-head checks, and putting a push with the worker's own account on the network, refine the machine. |
| SyncService.CollectSync.OnDeviceReply | src-tauri/src/application/collect_sync/service.rs:653-679 | What follows a device registration reply refines the machine. |
| SyncService.CollectSync.OnPushReply | src-tauri/src/application/collect_sync/service.rs:584-635 | What follows a push reply refines the machine. |
| SyncService.CollectSync.RecoverDevice | src-tauri/src/application/collect_sync/service.rs:622-633 | The one recovery path for an unknown device: invalidate, register again, retry the same batch. |
| SyncService.CollectSync.AcceptBatch | src-tauri/src/application/collect_sync/service.rs:589-621 | Acceptance bookkeeping, baseline completion included, refines the machine. |
| SyncService.CollectSync.OnSignedIn | src-tauri/src/application/collect_sync/service.rs:207-233 | The sign-in handler refines the machine, and leaves nothing cancelled, blocked or delayed and a worker running if one can be spawned. |
| SyncService.CollectSync.OnSignedOut | src-tauri/src/application/collect_sync/service.rs:235-241 | The sign-out handler refines the machine: cancelled, without user or deadline, in a new epoch. |
| SyncService.CollectSync.OnCommittedDailyUpload | src-tauri/src/application/collect_sync/service.rs:243-256 | The commit handler refines the machine, merging the derived scope into the signed-in account. |
| SyncService.CollectSync.OnBaselineRepair | src-tauri/src/infrastructure/database/antigravity_baseline_repair.rs:769-775 | The merge of a repair into all accounts, with the retry for a signed-in user, refines the machine. |
| SyncService.CollectSync.OnRetryNow | src-tauri/src/application/collect_sync/service.rs:258-263 | Refines the machine: clears block and deadline, and leaves a worker running unless cancelled or unable to spawn. |
| SyncService.CollectSync.OnRetryTimer | src-tauri/src/application/collect_sync/service.rs:336-362 | The retry thread acts only when uncancelled, in its own epoch and on the very deadline it was started for; otherwise nothing changes. |
| CommittedUploads.IntoUploadScope | src-tauri/src/application/collect_sync/service.rs:78-99 | The single pass with running bounds computes the specified upload scope. |
| CommittedUploads.CommittedTargetsAreCovered | src-tauri/src/application/collect_sync/service.rs:86-99 | The derived scope contains every day of every target if and only if it is the full one or no pre-1970 start precedes a full-history target that no later target reaches back over. |
| CommittedUploads.UploadScopeSources | src-tauri/src/application/collect_sync/service.rs:82-98 | The sources of the scope are exactly the sources of the targets; it is full exactly when the refresh was full and every target is full history. |
| CommittedUploads.UploadScopeBounds | src-tauri/src/application/collect_sync/service.rs:84-97 | A narrower scope ends where some target ends and begins where some target begins, or on 1970-01-01 for full history. |
| CommittedUploads.EarlyHistoryCanBeDropped | src-tauri/src/application/collect_sync/service.rs:93-96 | A concrete upload whose days before 1970 are cut by a later full-history target. |
| Scopes.MergeIsLeastUpperBound | src-tauri/src/application/collect_sync/scope.rs:114-141 | The merge of two scopes contains both and is contained in every scope that contains both. |
| Scopes.MergeIsSemilattice | src-tauri/src/application/collect_sync/scope.rs:114-141 | Merging is commutative, associative and idempotent, and the full scope absorbs. |
| Scopes.MergeOrderIsIrrelevant | src-tauri/src/application/collect_sync/scope.rs:110-141 | Any two merge sequences with the same scopes, in any order and with any repetition, leave the same pending scope. |
| Scopes.NewIncremental | src-tauri/src/application/collect_sync/scope.rs:71-92 | An incremental scope exists exactly when the range is ordered and some key is not blank, and then it is valid and covers every listed source key over the whole range. |
| Scopes.QueryIsTheScope | src-tauri/src/application/collect_sync/service.rs:496-510 | A valid pending scope passes the checks of the export query unchanged. |
| Scopes.StoredRoundTrip | src-tauri/src/application/collect_sync/scope.rs:32-68 | Storing and reloading a scope is the identity exactly for the valid scopes. |
| Scopes.FromStored | src-tauri/src/application/collect_sync/scope.rs:49-68 | Whatever is reloaded is valid, and an unreadable date is reported as such. |
| Batches.BuildPreparedBatches | src-tauri/src/application/collect_sync/batch.rs:61-142 | The checking, sorting and cutting loops compute the specified batches or the specified error. |
| Batches.BatchesSpellTheStableOrder | src-tauri/src/application/collect_sync/batch.rs:79-86 | The batches, put end to end, are a permutation of the input, sorted by (date, identity key), with facts of equal key in input order. |
| Batches.StableOrderIsUnique | src-tauri/src/application/collect_sync/batch.rs:79-83 | Sortedness with every group of equal keys in place determines the order, so the stable sort is pinned down completely. |
| Batches.BatchesAreWellCut | src-tauri/src/application/collect_sync/batch.rs:90-139 | Every batch is non-empty and within the limit, all but the last are full, index, count, revision and key are as numbered, device, version, time zone and scope are as given, the window is exactly the earliest and latest date, and no window starts before the previous one ends. |
| Batches.BatchCountRoundsUp | src-tauri/src/application/collect_sync/batch.rs:86-87 | The number of batches is the number of facts divided by the limit, rounded up. |
| Batches.BuildFailsExactlyWhen | src-tauri/src/application/collect_sync/batch.rs:67-77 | No batches exactly for no facts; the model-count error exactly when some fact exceeds the limit. |
| OutboxStore.CreateAppends | src-tauri/src/application/collect_sync/service.rs:1015-1069 | Creating a generation gives its account exactly the new batches, in order and numbered above all others, and changes no other queue. |
| OutboxStore.AcceptRemovesHead | src-tauri/src/application/collect_sync/service.rs:1087-1110 | Accepting the head of a queue removes that batch and nothing else from any queue. |
| OutboxStore.CollectSyncStore.constructor | src-tauri/src/application/collect_sync/service.rs:930-936 | A new store is empty and numbers from 1. |
| OutboxStore.CollectSyncStore.LoadState | src-tauri/src/application/collect_sync/service.rs:940-950 | Reads the account state or fails without effect. |
| OutboxStore.CollectSyncStore.EnsureState | src-tauri/src/application/collect_sync/service.rs:952-976 | Creates the fresh state only when there is none; a failed call changes nothing. |
| OutboxStore.CollectSyncStore.MergePendingScope | src-tauri/src/application/collect_sync/service.rs:978-995 | The new pending scope is the merge of the old one and the given one; everything else stays. |
| OutboxStore.CollectSyncStore.MergePendingScopeForAllAccounts | src-tauri/src/application/collect_sync/service.rs:997-1013 | Merges into every known account and counts them. |
| OutboxStore.CollectSyncStore.CreateGeneration | src-tauri/src/application/collect_sync/service.rs:1015-1069 | Refused with queued batches; otherwise the whole state after it, allocated revisions included. |
| OutboxStore.CollectSyncStore.ListPendingBatches | src-tauri/src/application/collect_sync/service.rs:1071-1085 | The pending batches of the account in creation order. |
| OutboxStore.CollectSyncStore.CountPendingBatches | src-tauri/src/application/collect_sync/service.rs:1112-1117 | The length of that list. |
| OutboxStore.CollectSyncStore.MarkBatchAccepted | src-tauri/src/application/collect_sync/service.rs:1087-1110 | Removes the first batch with that id and account, or reports it missing with no effect. |
| OutboxStore.CollectSyncStore.RecordAttemptResult | src-tauri/src/application/collect_sync/service.rs:1119-1137 | Changes only the attempt fields. |
| OutboxStore.CollectSyncStore.MarkBaselineComplete | src-tauri/src/application/collect_sync/service.rs:1139-1151 | Changes only the baseline status. |
| OutboxStore.CollectSyncStore.SetDeviceRegistration | src-tauri/src/application/collect_sync/service.rs:1153-1167 | Changes only the device registration. |
| CloudSessions.MemoryAndStoreAgree | src-tauri/src/application/cloud_session.rs:178-204 | In every state that any events lead to, whatever store calls fail and whatever tokens the server issues, the store holds a session exactly when memory is active with that very session. |
| CloudSessions.SessionIsTheLastDecision | src-tauri/src/application/cloud_session.rs:178-328 | Over any run memory holds exactly what the last deciding event made of it, and the store the same session if it is active: a login with nothing blank and a successful save, whatever the session was before, a successful clear, or a refresh of the session still there that rotates the token or, by one of four codes, ends the session. |
| CloudSessions.RefreshNeverOverwrites | src-tauri/src/application/cloud_session.rs:256-328 | Whatever logins and logouts come while a refresh is in flight, its return installs the new tokens, or the expiry for one of four codes, for exactly the account it started from, if and only if user and refresh token are still those it started from and the store answers; otherwise memory and store stay as they are. |
| CloudSessions.RotatedTokenIsNeverPresentedAgain | src-tauri/src/application/cloud_session.rs:247-328 | Once a refresh with a token has succeeded and was saved, or the session had changed meanwhile, no later refresher call carries that token, under any interleaving of logins, logouts and refreshes. |
| CloudSessions.UnsavedRotationIsReplayed | src-tauri/src/application/cloud_session.rs:309-323 | In every run, right after a successful rotation the old token can be presented again if and only if the session was unchanged and the save failed. |
| CloudSessions.FailedSaveReplaysToken | src-tauri/src/application/cloud_session.rs:318-321 | A concrete run from an empty store in which a refresh presents a token that was rotated before. |
| CloudSessions.UnreadableRestore | src-tauri/src/application/cloud_session.rs:127-145 | A restore that cannot read leaves memory and store in agreement only if the store was empty. |
| CloudSessions.CloudSession.Restore | src-tauri/src/application/cloud_session.rs:127-145 | Memory takes what the store holds; a failed load changes nothing. |
| CloudSessions.CloudSession.ApplyTokensAndSave | src-tauri/src/application/cloud_session.rs:178-197 | Succeeds exactly when no field is blank and the save succeeds; then memory is active with exactly these tokens and this account and the store holds them, from every state; otherwise both stay as they were. |
| CloudSessions.CloudSession.ClearLocally | src-tauri/src/application/cloud_session.rs:199-204 | Store first, then memory; a failed clear changes neither. |
| CloudSessions.CloudSession.BeginLogout | src-tauri/src/application/cloud_session.rs:208-215 | The first half, under the lock: goes on exactly when there is a session, with the token to revoke exactly when it is active. |
| CloudSessions.CloudSession.EndLogout | src-tauri/src/application/cloud_session.rs:217-224 | The second half, after the lock was released: clears whatever session is there by then, and hands out the captured token only once local state is gone. |
| CloudSessions.CloudSession.StartRefresh | src-tauri/src/application/cloud_session.rs:256-268 | Captures token and account exactly when active for the expected user, with the right error otherwise. |
| CloudSessions.CloudSession.CompleteRefresh | src-tauri/src/application/cloud_session.rs:270-328 | Compare-before-install on the fields: new tokens or expiry exactly for an unchanged session and an answering store, with the error that says why not in every other case. |
| RefreshRuns.EveryRunIsTerminalised | src-tauri/src/application/refresh/execution.rs:66-110 | For every pattern of failures, every import run the refresh opened and its refresh run were sent a terminal outcome, once or twice, the last one to the refresh run being what the caller gets; earlier runs are untouched. |
| RefreshRuns.AcknowledgedRunsEndOnce | src-tauri/src/application/refresh/execution.rs:78-100 | With completions acknowledged, each run becomes terminal exactly once, the refresh run with the returned outcome. |
| RefreshRuns.ReportsMatchRuns | src-tauri/src/application/refresh/execution.rs:203-243 | Whatever fails, the import run of a target was last told the very outcome the caller reads for that target. |
| RefreshRuns.StoredOutcomeIsReturnedExactlyWhen | src-tauri/src/application/refresh/execution.rs:261-287 | The store keeps the outcome the caller got exactly when the last completion got through, or repeats one that did. |
| RefreshRuns.NormalReturn | src-tauri/src/application/refresh/execution.rs:139-258 | One report per target in order: failed if nothing was collected, partial if part of it was, succeeded otherwise; the aggregate is succeeded exactly when all are, failed exactly when all of a non-empty list are. |
| RefreshRuns.UsageChangedExactlyWhen | src-tauri/src/application/refresh/execution.rs:203-243 | The caller hears of changed usage exactly when all targets passed and something was collected, or when the target that broke the refresh off had itself stored its usage. |
| RefreshRuns.AggregateMeaning | src-tauri/src/application/refresh/outcome.rs:61-79 | The counters decide the aggregate as all-succeeded, all-failed of a non-empty list, or partial. |
| RefreshRuns.HandedOverScope | src-tauri/src/application/refresh/execution.rs:225-258 | The upload handed to the outbox holds the stored daily targets in order; its scope is there exactly when there is one, names exactly their sources, begins and ends on their days, covers all of these (for full history every day from 1970-01-01 to 2099-12-31) exactly when, by targets and policy, no history before 1970 is cut, and is full exactly when the policy was full, every target succeeded and every stored daily target was collected in full. |
| RefreshRuns.FullCollectionIsHandedOver | src-tauri/src/application/refresh/execution.rs:307-325 | A source collected in full has every day from 1970-01-01 to 2099-12-31 handed over, whatever the policy, the order of the targets and the ranges of the others. |
| RefreshRuns.StoredUsageIsAnnouncedExactlyWhen | src-tauri/src/application/refresh/execution.rs:211-223 | All stored daily usage is announced if and only if the refresh went through with targets and policy that cut no history before 1970, or nothing daily had been stored before it broke off. |
| RefreshRuns.ExecuteRefresh | src-tauri/src/application/refresh/execution.rs:51-110 | The imperative refresh with its failure path computes the specified records and result. |
| RefreshRuns.ExecuteOpenRefresh | src-tauri/src/application/refresh/execution.rs:112-305 | The target loop with its early exits computes the specified fold. |
| RefreshRuns.Persist | src-tauri/src/application/refresh/execution.rs:327-409 | Begins, reconciles and completes one import run, with the failure that names the run left open. |
| RefreshRuns.TargetRunAccumulator.Record | src-tauri/src/application/refresh/outcome.rs:62-68 | Counts one outcome. |
| RefreshRuns.TargetRunAccumulator.Outcome | src-tauri/src/application/refresh/outcome.rs:70-78 | The aggregate of the counts. |
| Planner.Plan | src-tauri/src/application/refresh/planner.rs:110-149 | Helper: a planned range is always well formed and ends today, so building it never fails. |
| Planner.UnbrokenExactlyWhenGapsAreClosed | src-tauri/src/application/refresh/planner.rs:110-145 | For any mix of freshness and catch-up refreshes, any of them failing, after a full or a partial import, the days in hand are one unbroken interval up to the last success if and only if every gap a refresh opens is closed by a later one that reaches back to it. |
| Planner.MixedRunsExactlyWhen | src-tauri/src/application/refresh/planner.rs:114-145 | Read off modes, days and successes alone, after a full or a partial import: there is no hole if and only if every refresh that skips days is followed by a successful catch-up while the last collected day is within three days of the one before the gap. |
| Planner.CatchUpLeavesNoHoles | src-tauri/src/application/refresh/planner.rs:137-145 | From an incremental import on, catch-ups under a non-decreasing clock, any of them failing, leave the collected days one unbroken interval ending on the day of the last success. |
| Planner.FullThenCatchUpExactlyWhen | src-tauri/src/application/refresh/planner.rs:137-145 | After a full import on day d the collected days are unbroken if and only if the first successful catch-up comes by day d+3. |
| GapFill.FillIsIdempotent | src-tauri/src/application/cost/calculator.rs:180-197 | Filling a candidate twice is filling it once. |
| GapFill.FillTouchesOnlyGaps | src-tauri/src/application/cost/calculator.rs:135-209 | Nothing changes unless the aggregate is a valued zero with tokens; only zero breakdowns change, to their calculated cost; the new aggregate is the capped sum of the valued breakdowns and positive. |
| GapFill.AggregateIsNearlyExact | src-tauri/src/application/cost/calculator.rs:115-124 | Short of saturation a filled aggregate is within half a micro per filled breakdown of the exact amount, each kind of token at its own rate. |
| GapFill.CalculatedCostIsNearest | src-tauri/src/application/cost/calculator.rs:34-84 | A calculated cost is the nearest whole number of micros to the sum of input, output, cache-read (free if unlisted) and cache-write (the input rate if unlisted) tokens, each at its rate; not applicable exactly for no tokens or a charge that rounds to nothing, unavailable for an unlisted model or an amount out of range. |
| GapFill.MicrosAreNearest | src-tauri/src/application/cost/calculator.rs:11-20 | The conversion is the nearest whole number, half up, and fails exactly for negative amounts and amounts that round above 2^64. |
| GapFill.FillAgreesWithCalculator | src-tauri/src/application/cost/calculator.rs:34-113 | A cost changes exactly when it is a valued zero the calculator can price, and then to exactly the calculated cost. |
| GapFill.FindFallsBackToLongestPrefix | src-tauri/src/application/cost/snapshot.rs:56-74 | Without an exact or normalised entry the longest known proper prefix decides, and there is none exactly when nothing is found. |
| GapFill.FindPrefersExactThenDashed | src-tauri/src/application/cost/snapshot.rs:56-64 | An exact entry wins; next comes that of the id with dots, at signs and slashes read as dashes. |
| GapFill.GapFillModelBreakdowns | src-tauri/src/application/cost/calculator.rs:135-173 | The in-place loop rewrites exactly the specified breakdowns and returns the specified aggregate. |
| GapFill.UsageCandidate.GapFill | src-tauri/src/application/cost/calculator.rs:180-197 | Filling a candidate in place gives the specified candidate. |
| QueryCodec.DecodeUndoesEncode | src-tauri/src/application/pkce.rs:50-61 | Decoding the encoding of any byte string gives it back (sections 2.1 and 2.3 of RFC 3986). |
| QueryCodec.EncodeIsInjective | src-tauri/src/application/pkce.rs:50-61 | Different values have different encodings. |
| QueryCodec.EverySpellingDecodes | src-tauri/src/application/auth_loopback.rs:176-203 | Any spelling of a byte string decodes to it: bytes as themselves, a space as a plus sign, any byte as two hexadecimal digits of either case, mixed at will. |
| QueryCodec.StrayPercentStays | src-tauri/src/application/auth_loopback.rs:184-193 | A percent sign that no two digits follow stands for itself, and decoding goes on right behind it. |
| QueryCodec.DecodePanicsExactlyWhen | src-tauri/src/application/auth_loopback.rs:176-203 | Decoding panics if and only if some percent sign stands three bytes before a continuation byte of a multi-byte character. |
| QueryCodec.ParsePanicsExactlyWhen | src-tauri/src/application/auth_loopback.rs:136-174 | A request makes the parser panic if and only if it gets as far as its query and a code or a state in it has such a percent sign; every other request gets an answer. |
| QueryCodec.CallbackRoundTrip | src-tauri/src/application/auth_loopback.rs:136-174 | A GET line with encoded code and state, in either order and with anything after the target, parses to exactly that pair if and only if neither is empty and the expected path has no white space and no question mark. |
| QueryCodec.AcceptedExactlyWhen | src-tauri/src/application/auth_loopback.rs:136-174 | A request is accepted with a code and a state if and only if it is a GET of the expected path with a query in which nothing panics, and these are the decoded values, neither empty, of the last code and the last state among its pairs; all other keys are ignored. |
| QueryCodec.SplitIsExact | src-tauri/src/application/auth_loopback.rs:160-161 | The pairs of a query, joined by ampersands, are the query, and none of them holds one. |
| QueryCodec.PairIsCut | src-tauri/src/application/auth_loopback.rs:161 | A pair is cut at its first equals sign; without one it is a key with an empty value. |
| QueryCodec.EncodeQueryComponent | src-tauri/src/application/pkce.rs:50-61 | The byte loop computes the encoding. |
| QueryCodec.PercentDecode | src-tauri/src/application/auth_loopback.rs:176-203 | The index loop computes the decoding, and stops exactly where slicing the text would panic. |
| QueryCodec.ParseCallbackRequest | src-tauri/src/application/auth_loopback.rs:136-174 | The pair loop, a later key winning, computes the specified outcome. |
| QueryCodec.AcceptedPathIsPlain | src-tauri/src/application/auth_loopback.rs:150-156 | A request gets past the path check only for a path without white space and question marks. |

## Left out

- NoCommittedUsageIsForgotten: asks of the commit itself that it does not land while a generation with a narrower scope is between loading and storing, and that no history before 1970 is cut; LateCommitSurvivesExactlyWhen and CommittedTargetsAreCovered give the exact conditions.
- IdlenessIsHonest: asks that the session has been the active user's since the last sign-in; IdlenessIsHonestExactlyWhen covers all runs. The last check of a step and the exit handling are one transition, so an epoch change between them, after which a quiescent exit does not kick again, is not modelled; the merge of a repair and its retry are one transition too.
- TerminalStaysQuiet: asks that no kick stands between its halves at the terminal exit; BlockHoldsExactlyWhen shows that this is exact, SplitKickPushesInBlockedEpoch gives the run.
- RunWorker: drives the loop for an accepting remote, an answering store, no merges, exports within the contract limits and room for their revisions; with other replies the loop is covered one transition at a time. A server that keeps answering that the device is missing makes the worker loop without backoff, so nothing is claimed about termination there.
- StaleWorkersHandOver: asks that the reads of the exit handling answer and a thread spawns; IdlenessIsHonestExactlyWhen covers the failures. AcceptedPushIsSettled, EmptyExportIsClean and MissingDeviceRecovers ask that the store calls they speak of answer; the invariants cover the rest.
- GenerationsHoldTheirExport: says nothing of the generation id and the time stored with a batch.
- StaleWorkerPushesAtMostOnce: counts pushes within one process; a restart begins with epoch 0 again.
- RotatedTokenIsNeverPresentedAgain: assumes that the server never issues a refresh token twice and that `restore` runs only at startup.
- MemoryAndStoreAgree: assumes store calls that take effect entirely or not at all, and a process that could read its store at startup.
- HandedOverScope: assumes what the types of the original guarantee, source keys from the catalog and ordered ranges.
- AggregateIsNearlyExact: prices and rates are exact rationals; the rounding of `f64` is not modelled.
- DecodeUndoesEncode: stops at the decoded bytes; the replacement of bytes that are not UTF-8 is a library function and is not modelled.
- StoredRoundTrip: days are integers; printing and parsing a calendar date are taken as inverse to each other.
- The SQLite stores, the keyring, the HTTP client, the TCP accept loop, the thread library and the lock poisoning paths: only the results of their calls appear.
- SHA-256 hashes, JSON serialisation and UUID drawing: bodies are the request records themselves, keys are fresh strings.
- The mapping of exported rows to facts, error messages, status publication, diagnostics, import counts, retention of old import runs and budget evaluation.
- The login URL builder, PKCE verifiers and challenges, and the redirect parser: one-branch or library code.
- The target list, request planning details, collectors, scheduler and refresh coordinator: targets and the answers about them are a parameter sequence.
- Settings, updater, tray, the TypeScript interface and generated contracts.
