/**
 * The collect-sync service as an object: its volatile fields, its handlers, and its worker. Every method
 * is proved to perform exactly the corresponding transition of the state machine.
 */
module SyncService {
  import opened Basics
  import Batches
  import CommittedUploads
  import Contents
  import Coverage
  import Delivery
  import DeliveryRuns
  import opened Drain
  import opened OutboxStore
  import Scopes
  import opened SyncMachine

  class CollectSync {
    const config: Config
    const store: CollectSyncStore
    // what the session object and the clock report
    var session: Option<string>
    var now: int
    // the service's own volatile fields
    var running: bool
    var cancel: bool
    var epoch: nat
    var terminalBlockedEpoch: Option<nat>
    var activeUser: Option<string>
    var nextRetry: Option<Deadline>
    // where the worker thread is
    var worker: Worker
    // kicks between their halves, the last exit, and the world outside
    ghost var latent: nat
    ghost var blame: Blame
    ghost var sent: set<Push>
    ghost var server: map<string, seq<Push>>
    ghost var history: History

    ghost function View(): World
      reads this, store
    {
      World(config, session, now,
          Control(running, cancel, epoch, terminalBlockedEpoch, activeUser, nextRetry, latent, blame),
            worker, store.View(), sent, server, history)
    }

    constructor (config: Config, store: CollectSyncStore, now: int)
      requires store.View() == EMPTY_STORE
      ensures this.store == store && this.config == config && Initial(View())
    {
      this.config, this.store, this.now := config, store, now;
      session, worker := None, NoWorker;
      running, cancel, epoch := false, false, 0;
      terminalBlockedEpoch, activeUser, nextRetry := None, None, None;
      latent, blame, sent, server := 0, NoFailure, {}, map[];
      history := NO_HISTORY;
    }

    // ---- readers ----

    method CurrentAccount() returns (r: Option<Account>)
      ensures r == AccountKey(View())
      ensures r == if session.Some? && Trim(config.deviceId) != ""
                   then Some(Account(session.value, Trim(config.deviceId))) else None
    {
      if session.None? {
        return None;
      }
      var device := Trim(config.deviceId);
      if device == "" {
        return None;
      }
      return Some(Account(session.value, device));
    }

    method HasWork(io: Io) returns (r: bool)
      ensures r == SeesWork(View(), io.workCounted, io.workLoaded)
    {
      var account := CurrentAccount();
      if account.None? {
        return false;
      }
      var count := store.CountPendingBatches(account.value, io.workCounted);
      if count.Success? && count.value > 0 {
        return true;
      }
      var state := store.LoadState(account.value, io.workLoaded);
      return state.Success? && state.value.Some?
             && (state.value.value.pendingScope.Some? || NeedsBaseline(state.value.value.baselineStatus));
    }

    // ---- kick ----

    method Kick(io: Io)
      modifies this
      ensures View() == SyncMachine.Kick(old(View()), io)
    {
      if cancel || terminalBlockedEpoch == Some(epoch) {
        return;
      }
      if nextRetry.Some? && nextRetry.value.epoch == epoch && now < nextRetry.value.until {
        return;
      }
      if io.deferKick {
        latent := latent + 1;
      } else {
        CompareExchangeAndSpawn(io.spawned);
      }
    }

    method CompareExchangeAndSpawn(spawned: bool)
      modifies this
      ensures View() == StartWorker(old(View()), spawned)
    {
      if running {
        return;
      }
      running := true;
      cancel := false;
      if spawned {
        worker := AtTop(epoch);
      } else {
        running := false;
        blame := SpawnFailed;
      }
    }

    /** The second half of a kick that had passed its check earlier. */
    method ResumeKick(io: Io)
      requires latent > 0
      modifies this
      ensures View() == Next(old(View()), KickStart(io))
    {
      latent := latent - 1;
      CompareExchangeAndSpawn(io.spawned);
    }

    // ---- worker exits ----

    method KickIfWork(io: Io)
      modifies this
      ensures var w := old(View());
              View() == if SeesWork(w, io.workCounted, io.workLoaded) then SyncMachine.Kick(w, io) else w
    {
      hide SyncMachine.Kick, SeesWork;
      var work := HasWork(io);
      if work {
        Kick(io);
      }
    }

    method EndWorker(own: nat, exit: WorkerExit, io: Io)
      modifies this
      ensures View() == Exit(old(View()), own, exit, io)
    {
      hide SyncMachine.Kick, SeesWork, WorkReadFails;
      ghost var failed := exit.ExitStoreFailure? || (LooksForWork(View(), own, exit) && WorkReadFails(View(), io));
      if exit.ExitTerminal? {
        terminalBlockedEpoch := Some(own);
      }
      running := false;
      worker := NoWorker;
      blame := if failed then StoreFailed else NoFailure;
      match exit
      case ExitQuiescent =>
        if !cancel && epoch == own { KickIfWork(io); }
      case ExitStopped =>
        if !cancel && epoch != own { KickIfWork(io); }
      case _ =>
    }

    method SettleStep(own: nat, result: StepResult, io: Io)
      modifies this
      ensures View() == Settle(old(View()), own, result, io)
    {
      if cancel || epoch != own {
        EndWorker(own, ExitStopped, io);
        return;
      }
      match result
      case Continue => worker := AtTop(own);
      case Quiescent => EndWorker(own, ExitQuiescent, io);
      case Backoff(until) =>
        nextRetry := Some(Deadline(own, until));
        EndWorker(own, ExitBackoff, io);
      case Terminal => EndWorker(own, ExitTerminal, io);
      case StoreFailure => EndWorker(own, ExitStoreFailure, io);
      case Stop => EndWorker(own, ExitStopped, io);
    }

    method FailRemotely(own: nat, account: Account, at: int, error: RemoteError, io: Io)
      modifies this, store
      ensures View() == RemoteFailure(old(View()), own, account, at, error, io)
    {
      var c := ClassifyRemoteError(error);
      store.RecordAttemptResult(account, at, Some(c.code), Some(c.retryable), io.recorded);
      SettleStep(own, if c.retryable then Backoff(SaturatingAdd(at, c.backoff)) else Terminal, io);
    }

    // ---- one step ----

    method MaterializeGeneration(own: nat, account: Account, scope: Scopes.UploadScope, baseline: BaselineStatus,
                                 at: int,
                                 io: Io)
      modifies this, store
      ensures View() == Materialize(old(View()), own, account, scope, baseline, at, io)
      ensures Scopes.Valid(scope) && account == AccountFor(config, account.userId) ==>
                || history == old(history)
                || (&& io.exported.Some?
                    && Contents.ExportAdded(old(View()), View(), account.userId, scope, io.exported.value))
    {
      hide Settle, AfterEmptyExport, Scopes.ExportQuery, Scopes.Valid, Batches.Build, Contents.ExportAdded,
          CreatedGeneration,
           DeviceKey;
      if Scopes.Valid(scope) && account == AccountFor(config, account.userId) {
        Contents.MaterializeHoldsExport(View(), own, account, scope, baseline, at, io);
      }
      var query := Scopes.ExportQuery(scope);
      if query.Failure? || io.exported.None? {
        SettleStep(own, StoreFailure, io);
        return;
      }
      var loaded := store.LoadState(account, io.reloaded);
      if loaded.Failure? || loaded.value.None? {
        SettleStep(own, StoreFailure, io);
        return;
      }
      var state := loaded.value.value;
      var prepared :=
        Batches.BuildPreparedBatches(io.exported.value, MetaOf(config, scope), Batches.BACKEND_V1,
            state.nextClientRevision, io.keys);
      if prepared.Failure? {
        SettleStep(own, StoreFailure, io);
        return;
      }
      var input := GenerationFor(account, state, scope, prepared.value, at, io);
      ghost var before := View();
      var created := store.CreateGeneration(input, io.created);
      if created.Failure? {
        SettleStep(own, StoreFailure, io);
        return;
      }
      history := WithGeneration(before, input, store.View(), query.value).history;
      if prepared.value == [] {
        CloseEmptyExport(account, baseline, at, io);
      }
      SettleStep(own, Continue, io);
    }

    method CloseEmptyExport(account: Account, baseline: BaselineStatus, at: int, io: Io)
      modifies this, store
      ensures View() == AfterEmptyExport(old(View()), account, baseline, at, io)
    {
      var again := store.CreateGeneration(GenerationInput(account, io.generationId, [], at, false, true), io.cleared);
      if NeedsBaseline(baseline) {
        store.MarkBaselineComplete(account, io.completed);
      }
      store.RecordAttemptResult(account, at, None, None, io.recorded);
    }

    method StepAtTop(own: nat, account: Account, io: Io)
      modifies this, store
      ensures View() == StepFromTop(old(View()), own, account, io)
    {
      hide Settle, Materialize;
      var listed := store.ListPendingBatches(account, io.listed);
      if listed.Failure? {
        SettleStep(own, StoreFailure, io);
        return;
      }
      var loaded := store.LoadState(account, io.loaded);
      if listed.value != [] {
        if loaded.Success? && loaded.value.Some? && !DeviceIsRegistered(config, loaded.value.value) {
          worker := Registering(own, account, now, ForBatch(listed.value[0]));
        } else {
          worker := ReadyToPush(own, account, listed.value[0], now);
        }
        return;
      }
      if loaded.Failure? {
        SettleStep(own, StoreFailure, io);
        return;
      }
      if loaded.value.None? {
        var ensured := store.EnsureState(account, io.ensured);
        SettleStep(own, Continue, io);
        return;
      }
      var state := loaded.value.value;
      if state.pendingScope.None? && !NeedsBaseline(state.baselineStatus) {
        SettleStep(own, Quiescent, io);
        return;
      }
      var scope := if state.pendingScope.Some? then state.pendingScope.value else Scopes.Full;
      if DeviceIsRegistered(config, state) {
        MaterializeGeneration(own, account, scope, state.baselineStatus, now, io);
      } else {
        worker := Registering(own, account, now, ForGeneration(scope, state.baselineStatus));
      }
    }

    /** The worker's next move of its own: a loop iteration up to the network, or putting a push on the wire. */
    method AdvanceWorker(io: Io)
      requires worker.AtTop? || worker.ReadyToPush?
      modifies this, store
      ensures View() == Next(old(View()), Advance(io))
    {
      hide Exit, StepFromTop;
      match worker
      case AtTop(own) =>
        var account := CurrentAccount();
        if cancel || epoch != own || account.None? || activeUser != session {
          EndWorker(own, ExitStopped, io);
        } else if nextRetry.Some? && nextRetry.value.epoch == epoch && now < nextRetry.value.until {
          EndWorker(own, ExitBackoff, io);
        } else {
          StepAtTop(own, account.value, io);
        }
      case ReadyToPush(own, account, batch, at) =>
        sent := sent + {RequestFor(account, batch)};
        worker := Pushing(own, account, batch, at);
    }

    method OnDeviceReply(reply: DeviceReply, io: Io)
      requires worker.Registering?
      modifies this, store
      ensures View() == Next(old(View()), DeviceReplied(reply, io))
    {
      hide Settle, Materialize, RemoteFailure;
      var Registering(own, account, at, cause) := worker;
      match reply
      case RegisterFailed(error) => FailRemotely(own, account, at, error, io);
      case Registered =>
        store.SetDeviceRegistration(account, config.fingerprint, 1, io.registered);
        match cause
        case ForBatch(batch) => worker := ReadyToPush(own, account, batch, at);
        case ForGeneration(scope, baseline) => MaterializeGeneration(own, account, scope, baseline, at, io);
        case Recovery => SettleStep(own, Continue, io);
    }

    method OnPushReply(reply: PushReply, io: Io)
      requires worker.Pushing?
      modifies this, store
      ensures View() == Next(old(View()), PushReplied(reply, io))
    {
      hide Settle, RemoteFailure, AfterAccepted;
      var Pushing(own, account, batch, at) := worker;
      match reply
      case PushAccepted => AcceptBatch(own, account, batch, io);
      case PushFailed(DeviceNotFound) => RecoverDevice(own, account, batch, at, io);
      case PushFailed(error) => FailRemotely(own, account, at, error, io);
    }

    /** The server does not know the device: forget its registration and register again before the retry. */
    method RecoverDevice(own: nat, account: Account, batch: OutboxBatch, at: int, io: Io)
      modifies this, store
      ensures View() == AfterPushReply(old(View()), own, account, batch, at, PushFailed(DeviceNotFound), io)
    {
      hide Settle, RemoteFailure;
      var loaded := store.LoadState(account, io.loaded);
      if loaded.Failure? || loaded.value.None? {
        SettleStep(own, Continue, io);
        return;
      }
      store.SetDeviceRegistration(account, "invalidate", 0, io.registered);
      if epoch != own {
        FailRemotely(own, account, at, Internal, io);
      } else {
        worker := Registering(own, account, at, Recovery);
      }
    }

    method AcceptBatch(own: nat, account: Account, batch: OutboxBatch, io: Io)
      modifies this, store
      ensures View() == AfterAccepted(old(View()), own, account, batch, io)
    {
      hide Settle, AcceptedBatch, BaselineCompleted, Recorded, PendingOf;
      var marked := store.MarkBatchAccepted(account, batch.id, now, io.accepted);
      if marked.Failure? {
        SettleStep(own, StoreFailure, io);
        return;
      }
      var remaining := store.CountPendingBatches(account, io.counted);
      if remaining.Failure? {
        SettleStep(own, StoreFailure, io);
        return;
      }
      if remaining.value == 0 {
        CompleteRunningBaseline(account, io);
      }
      store.RecordAttemptResult(account, now, None, None, io.recorded);
      SettleStep(own, Continue, io);
    }

    method CompleteRunningBaseline(account: Account, io: Io)
      modifies store
      ensures var before := old(store.View());
              var completes := io.loaded && account in before.states
                  && before.states[account].baselineStatus == InProgress && io.completed;
              store.View() == if completes then BaselineCompleted(before, account) else before
    {
      var loaded := store.LoadState(account, io.loaded);
      if loaded.Success? && loaded.value.Some? && loaded.value.value.baselineStatus == InProgress {
        store.MarkBaselineComplete(account, io.completed);
      }
    }

    // ---- account and commit handlers ----

    method OnSignedIn(user: string, io: Io)
      modifies this, store
      ensures View() == SignedInHandler(old(View()), user, io)
      ensures activeUser == Some(user) && epoch == old(epoch) + 1
      ensures !cancel && terminalBlockedEpoch.None? && nextRetry.None?
      ensures io.spawned && !io.deferKick ==> running
    {
      hide SignInStore;
      EnterEpoch(user);
      var account := CurrentAccount();
      if account.Some? {
        RequestBaseline(account.value, io);
      }
      Kick(io);
    }

    method EnterEpoch(user: string)
      modifies this
      ensures View() == old(View()).(control :=
              old(View()).control.(active := Some(user), cancel := false, blocked := None,
                                                                     epoch := old(epoch) + 1, retry := None))
    {
      activeUser := Some(user);
      cancel := false;
      terminalBlockedEpoch := None;
      epoch := epoch + 1;
      nextRetry := None;
    }

    /** After the baseline repair of a refresh: its scope for every account, and a retry for a signed-in user. */
    method OnBaselineRepair(scope: Scopes.UploadScope, io: Io)
      modifies this, store
      ensures View() == MergeForAllHandler(old(View()), scope, io)
    {
      var merged := store.MergePendingScopeForAllAccounts(scope, io.merged);
      if merged.Success? {
        if session.Some? {
          OnRetryNow(io);
        } else {
          blame := NoFailure;
        }
      }
    }

    method RequestBaseline(account: Account, io: Io)
      modifies store
      ensures store.View() == SignInStore(old(store.View()), account, io)
    {
      var ensured := store.EnsureState(account, io.ensured);
      var loaded := store.LoadState(account, io.loaded);
      if loaded.Success? && loaded.value.Some? && NeedsBaseline(loaded.value.value.baselineStatus) {
        var merged := store.MergePendingScope(account, Scopes.Full, io.merged);
      }
    }

    method OnSignedOut()
      modifies this
      ensures View() == SignedOutHandler(old(View()))
      ensures cancel && activeUser.None? && nextRetry.None? && epoch == old(epoch) + 1
      ensures running == old(running) && worker == old(worker)
    {
      cancel := true;
      epoch := epoch + 1;
      activeUser := None;
      nextRetry := None;
    }

    method OnCommittedDailyUpload(upload: CommittedUploads.CommittedDailyUpload, io: Io)
      modifies this, store
      ensures View() == CommitHandler(old(View()), upload, io)
    {
      var scope := CommittedUploads.IntoUploadScope(upload);
      if scope.None? {
        return;
      }
      var account := CurrentAccount();
      if account.None? {
        return;
      }
      var merged := store.MergePendingScope(account.value, scope.value, io.merged);
      Kick(io);
    }

    method OnRetryNow(io: Io)
      modifies this
      ensures View() == Next(old(View()), RetryNow(io))
      ensures terminalBlockedEpoch.None? && nextRetry.None? && epoch == old(epoch) && cancel == old(cancel)
      ensures !cancel && io.spawned && !io.deferKick ==> running
    {
      terminalBlockedEpoch := None;
      nextRetry := None;
      Kick(io);
    }

    /** The retry thread of deadline (`own`, `until`), at a moment it finds the time reached. */
    method OnRetryTimer(own: nat, until: int, io: Io)
      requires until <= now
      modifies this
      ensures var w := old(View()); var due := w.control.retry == Some(Deadline(own, until)) && w.control.epoch == own;
              View() == if Enabled(w, RetryDue(io)) && due then Next(w, RetryDue(io)) else w
    {
      if cancel || epoch != own {
        return;
      }
      if nextRetry != Some(Deadline(own, until)) {
        return;
      }
      nextRetry := None;
      Kick(io);
    }

    /** The server receives a request that is on the network. */
    ghost method Receive(push: Push)
      modifies this
      ensures View() == Next(old(View()), Deliver(push))
    {
      server := DeliverTo(View(), push).server;
    }

    // ---- the worker loop ----

    /** A checked push goes out, and the server receives it. */
    method SendHead(io: Io)
      requires Delivery.DeliveryInv(View()) && Coverage.CoverageInv(View(), None) && FreshKeys(View(), io)
      requires worker.ReadyToPush?
      modifies this, store
      ensures Delivery.DeliveryInv(View()) && Coverage.CoverageInv(View(), None)
      ensures worker == Pushing(old(worker.epoch), old(worker.account), old(worker.batch), old(worker.at))
      ensures Applied(View(), RequestFor(worker.account, worker.batch))
      ensures View() == old(View()).(worker := worker, sent := sent, server := server)
    {
      hide Delivery.DurableOk, Coverage.CoverageInv, FreshKeys, FromTop, SignedInHandler, CommitHandler;
      ghost var w0 := View();
      DeliveryRuns.NextKeepsDelivery(w0, Advance(io));
      Coverage.NextKeepsCoverage(w0, Advance(io), None);
      AdvanceWorker(io);
      ghost var push := RequestFor(worker.account, worker.batch);
      ghost var w1 := View();
      DeliveryRuns.NextKeepsDelivery(w1, Deliver(push));
      Coverage.NextKeepsCoverage(w1, Deliver(push), None);
      Receive(push);
      DeliveredIsApplied(w1, push);
    }

    /** A checked push, received by the server and acknowledged. */
    method PushHead(user: string, bound: nat, io: Io)
      requires Delivery.DeliveryInv(View()) && Coverage.CoverageInv(View(), None) && Headroom(View(), user, bound)
      requires Healthy(io)
      requires FreshKeys(View(), io)
      requires worker.ReadyToPush? && worker.epoch == epoch && worker.account == AccountFor(config, user)
      requires Known(View(), user)
      requires Draining(View().(worker := AtTop(epoch)), user)
      modifies this, store
      ensures Progress(old(View()), View(), user, bound) && Coverage.CoverageInv(View(), None)
      ensures history == old(history) && Rank(View(), user) == Rank(old(View()), user)
    {
      SendHead(io);
      ghost var w2 := View();
      AcceptedIteration(w2, user, bound, io);
      Coverage.NextKeepsCoverage(w2, PushReplied(PushAccepted, io), None);
      OnPushReply(PushAccepted, io);
    }

    /** One pass of the loop for a queued batch. */
    method DrainOne(user: string, bound: nat, io: Io)
      requires Delivery.DeliveryInv(View()) && Coverage.CoverageInv(View(), None) && Draining(View(), user)
      requires Headroom(View(), user, bound)
      requires Healthy(io) && FreshKeys(View(), io) && Known(View(), user) && Delivery.Queue(View(), user) != []
      modifies this, store
      ensures Progress(old(View()), View(), user, bound) && Coverage.CoverageInv(View(), None)
      ensures history == old(history)
    {
      hide Delivery.DeliveryInv, Coverage.CoverageInv, Delivery.WorkerOk;
      ghost var w0 := View();
      PushIterationStarts(w0, user, io);
      DeliveryRuns.NextKeepsDelivery(w0, Advance(io));
      Coverage.NextKeepsCoverage(w0, Advance(io), None);
      AdvanceWorker(io);
      if worker.Registering? {
        ghost var w1 := View();
        DeliveryRuns.NextKeepsDelivery(w1, DeviceReplied(Registered, io));
        Coverage.NextKeepsCoverage(w1, DeviceReplied(Registered, io), None);
        RegistrationIsNeutral(w0, user, ReadyToPush(epoch, AccountFor(config, user), Delivery.Queue(w0, user)[0], now));
        OnDeviceReply(Registered, io);
      }
      PushHead(user, bound, io);
    }

    /** One pass of the loop that cuts the next generation. */
    method DrainGeneration(user: string, facts: Scopes.UploadScope -> seq<Batches.Fact>, bound: nat, io: Io)
      requires Delivery.DeliveryInv(View()) && Coverage.CoverageInv(View(), None) && Draining(View(), user)
      requires Headroom(View(), user, bound)
      requires Healthy(io) && FreshKeys(View(), io) && Known(View(), user) && Delivery.Queue(View(), user) == []
      requires Rank(View(), user) > 0
      requires Exportable(facts, bound) && io.exported == Some(facts(Coverage.ScopeToExport(View(), user)))
      modifies this, store
      ensures Progress(old(View()), View(), user, bound) && Coverage.CoverageInv(View(), None)
      ensures forall key :: key in history.keys ==> key in old(history.keys) || key in io.keys
    {
      ghost var w0 := View();
      Scopes.QueryIsTheScope(Coverage.ScopeToExport(w0, user));
      GenerationIteration(w0, user, facts, bound, io);
      RoundKeepsCoverage(w0, io);
      AdvanceWorker(io);
      if worker.Registering? {
        OnDeviceReply(Registered, io);
      }
    }

    /** The scope the next generation would export. */
    function PlannedScope(user: string): (r: Scopes.UploadScope)
      reads this, store
      ensures r == Coverage.ScopeToExport(View(), user)
    {
      var account := Account(user, Trim(config.deviceId));
      if account in store.states && store.states[account].pendingScope.Some?
      then store.states[account].pendingScope.value
      else Scopes.Full
    }

    /** One pass of the loop: it leaves less to do, or the worker has ended with nothing left. */
    method DrainStep(user: string, facts: Scopes.UploadScope -> seq<Batches.Fact>, bound: nat, io: Io)
      requires Delivery.DeliveryInv(View()) && Coverage.CoverageInv(View(), None) && Draining(View(), user)
      requires Headroom(View(), user, bound)
      requires Healthy(io) && FreshKeys(View(), io) && Exportable(facts, bound)
      requires io.exported == Some(facts(Coverage.ScopeToExport(View(), user)))
      modifies this, store
      ensures Delivery.DeliveryInv(View()) && Coverage.CoverageInv(View(), None)
      ensures if worker == NoWorker then Finished(View(), user)
              && GenerationsMade(View(), user) <= GenerationsMade(old(View()), user)
              else Progress(old(View()), View(), user, bound)
      ensures forall key :: key in history.keys ==> key in old(history.keys) || key in io.keys
    {
      ghost var w0 := View();
      var account := Account(user, Trim(config.deviceId));
      assert account == AccountFor(config, user);
      var loaded := store.LoadState(account, true);
      var queued := store.CountPendingBatches(account, true);
      if loaded.value.None? {
        EnsureIteration(w0, user, bound, io);
        Coverage.NextKeepsCoverage(w0, Advance(io), None);
        AdvanceWorker(io);
      } else if queued.value > 0 {
        DrainOne(user, bound, io);
      } else if loaded.value.value.pendingScope.None? && loaded.value.value.baselineStatus == Complete {
        QuiescentIteration(w0, user, io);
        DeliveryRuns.NextKeepsDelivery(w0, Advance(io));
        Coverage.NextKeepsCoverage(w0, Advance(io), None);
        AdvanceWorker(io);
      } else {
        DrainGeneration(user, facts, bound, io);
      }
    }

    /**
     * `run_worker` against an accepting remote and an answering store, with no merges arriving: it ends,
     * Quiescent, with everything delivered, after at most two further generations. `draw` is the supply
     * of idempotency keys.
     */
    method RunWorker(user: string, facts: Scopes.UploadScope -> seq<Batches.Fact>, bound: nat, draw: nat -> string)
      requires Delivery.DeliveryInv(View()) && Coverage.CoverageInv(View(), None) && Draining(View(), user)
      requires Headroom(View(), user, bound)
      requires Exportable(facts, bound)
      requires forall i, j :: 0 <= i < j ==> draw(i) != draw(j)
      requires forall i :: 0 <= i ==> draw(i) !in history.keys
      modifies this, store
      ensures Delivery.DeliveryInv(View()) && Finished(View(), user)
      ensures GenerationsMade(View(), user) <= GenerationsMade(old(View()), user) + Rank(old(View()), user)
              <= GenerationsMade(old(View()), user) + 2
      ensures |LogOf(server, user)| == |CreatedBy(history, user)|
      ensures forall k :: 0 <= k < |CreatedBy(history, user)| ==>
              LogOf(server, user)[k] == PushOf(CreatedBy(history, user)[k])
    {
      hide Delivery.DeliveryInv, Coverage.CoverageInv, Finished, Headroom, Exportable;
      var drawn: nat := 0;
      ghost var start := View();
      while worker != NoWorker
        invariant Delivery.DeliveryInv(View()) && Coverage.CoverageInv(View(), None)
        invariant if worker == NoWorker then Finished(View(), user)
            else Draining(View(), user) && Headroom(View(), user, bound)
        invariant GenerationsMade(View(), user) + Rank(View(), user) <= GenerationsMade(start, user) + Rank(start, user)
        invariant forall i :: drawn <= i ==> draw(i) !in history.keys
        decreases worker != NoWorker, !Known(View(), user), Rank(View(), user), |Delivery.Queue(View(), user)|
      {
        var exported := facts(PlannedScope(user));
        var keys := seq(|exported|, i requires 0 <= i < |exported| => draw(drawn + i));
        var io := Io(true, true, true, true, Some(exported), true, true, true, true, true, true, true, true, true, true,
            true, false, keys, draw(drawn));
        DrawnKeysAreFresh(View(), io, draw, drawn);
        DrainStep(user, facts, bound, io);
        drawn := drawn + |exported|;
      }
      FinishedMeansDelivered(View(), user);
    }
  }

  lemma DrawnKeysAreFresh(w: World, io: Io, draw: nat -> string, drawn: nat)
    requires forall i, j :: 0 <= i < j ==> draw(i) != draw(j)
    requires forall i :: drawn <= i ==> draw(i) !in w.history.keys
    requires io.exported.Some?
    requires io.keys == seq(|io.exported.value|, i requires 0 <= i < |io.exported.value| => draw(drawn + i))
    ensures FreshKeys(w, io)
    ensures forall i :: drawn + |io.keys| <= i ==> draw(i) !in io.keys
  {
  }

  lemma FinishedMeansDelivered(w: World, user: string)
    requires Delivery.DeliveryInv(w) && Finished(w, user)
    ensures |LogOf(w.server, user)| == |CreatedBy(w.history, user)|
    ensures forall k :: 0 <= k < |CreatedBy(w.history, user)| ==>
            LogOf(w.server, user)[k] == PushOf(CreatedBy(w.history, user)[k])
  {
    assert Delivery.QueueOk(w, user);
  }

  lemma RoundKeepsCoverage(w: World, io: Io)
    requires Delivery.DeliveryInv(w) && Coverage.CoverageInv(w, None) && w.worker.AtTop? && FreshKeys(w, io)
    ensures Coverage.CoverageInv(GenerationRound(w, io), None)
  {
    DeliveryRuns.NextKeepsDelivery(w, Advance(io));
    Coverage.NextKeepsCoverage(w, Advance(io), None);
    var a := Next(w, Advance(io));
    if a.worker.Registering? {
      Coverage.NextKeepsCoverage(a, DeviceReplied(Registered, io), None);
    }
  }

  lemma DeliveredIsApplied(w: World, push: Push)
    ensures Applied(DeliverTo(w, push), push)
  {
    var v := DeliverTo(w, push);
    if !Applied(w, push) {
      assert LogOf(v.server, push.user)[|LogOf(w.server, push.user)|] == push;
    }
  }
}
