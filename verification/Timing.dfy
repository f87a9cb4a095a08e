/** When the worker runs: backoff deadlines, terminal blocks, stale workers, and honest idleness. */
module Timing {
  import opened Basics
  import CommittedUploads
  import opened OutboxStore
  import Scopes
  import opened SyncMachine

  /** This transition puts a push on the network. */
  predicate Sends(w: World, e: Event) { e.Advance? && w.worker.ReadyToPush? }

  predicate OnTheWay(worker: Worker) { worker.Registering? || worker.ReadyToPush? || worker.Pushing? }

  /**
   * Worker epochs never run ahead, deadlines are of the current epoch, and a worker past its checks is not backing off.
   */
  predicate ControlOk(w: World)
  {
    && (w.control.running <==> w.worker != NoWorker)
    && (w.worker != NoWorker ==> w.worker.epoch <= w.control.epoch)
    && (w.control.retry.Some? ==> w.control.retry.value.epoch == w.control.epoch)
    && (OnTheWay(w.worker) && w.worker.epoch == w.control.epoch ==> !BackingOff(w))
  }

  lemma SettleControl(w: World, epoch: nat, result: StepResult, io: Io)
    requires ControlOk(w) && epoch <= w.control.epoch && w.control.running
    ensures ControlOk(Settle(w, epoch, result, io))
  {
  }

  lemma ExitControl(w: World, epoch: nat, exit: WorkerExit, io: Io)
    requires ControlOk(w)
    ensures ControlOk(Exit(w, epoch, exit, io))
  {
  }

  lemma StepControl(w: World, epoch: nat, account: Account, io: Io)
    requires ControlOk(w) && w.worker == AtTop(epoch) && epoch == w.control.epoch && !BackingOff(w)
    ensures ControlOk(StepFromTop(w, epoch, account, io))
  {
    hide Settle, Materialize;
    SettleControl(w, epoch, StoreFailure, io);
    SettleControl(w, epoch, Quiescent, io);
    SettleControl(w, epoch, Continue, io);
    SettleControl(w.(store := Ensured(w.store, account)), epoch, Continue, io);
    if account in w.store.states {
      var state := w.store.states[account];
      var scope := if state.pendingScope.Some? then state.pendingScope.value else Scopes.Full;
      MaterializeControl(w, epoch, account, scope, state.baselineStatus, w.now, io);
    }
  }

  lemma MaterializeControl(w: World, epoch: nat, account: Account, scope: Scopes.UploadScope, baseline: BaselineStatus,
                           at: int, io: Io)
    requires ControlOk(w) && epoch <= w.control.epoch && w.control.running
    ensures ControlOk(Materialize(w, epoch, account, scope, baseline, at, io))
  {
    SettleControl(w, epoch, StoreFailure, io);
    var plan := PlanGeneration(w.config, w.store, account, scope, at, io);
    if plan.Some? {
      var after := AfterPlan(w, plan.value, baseline, at, io).(worker := w.worker);
      SettleControl(after, epoch, Continue, io);
      assert Settle(after, epoch, Continue, io)
          == Settle(AfterPlan(w, plan.value, baseline, at, io), epoch, Continue, io);
    }
  }

  lemma RemoteFailureControl(w: World, epoch: nat, account: Account, at: int, error: RemoteError, io: Io)
    requires ControlOk(w) && epoch <= w.control.epoch && w.control.running
    ensures ControlOk(RemoteFailure(w, epoch, account, at, error, io))
  {
    var c := ClassifyRemoteError(error);
    var recorded :=
      if io.recorded then w.(store := Recorded(w.store, account, at, Some(c.code), Some(c.retryable))) else w;
    SettleControl(recorded, epoch, if c.retryable then Backoff(SaturatingAdd(at, c.backoff)) else Terminal, io);
  }

  lemma StoreChangeControl(w: World, store: StoreState, epoch: nat, result: StepResult, io: Io)
    requires ControlOk(w) && epoch <= w.control.epoch && w.control.running
    ensures ControlOk(w.(store := store)) && ControlOk(Settle(w.(store := store), epoch, result, io))
  {
    SettleControl(w.(store := store), epoch, result, io);
  }

  lemma PushReplyControl(w: World, reply: PushReply, io: Io)
    requires ControlOk(w) && w.worker.Pushing?
    ensures ControlOk(AfterPushReply(w, w.worker.epoch, w.worker.account, w.worker.batch, w.worker.at, reply, io))
  {
    var Pushing(epoch, account, batch, at) := w.worker;
    if reply.PushAccepted? {
      AfterAcceptedControl(w, epoch, account, batch, io);
    } else if reply.error.DeviceNotFound? {
      SettleControl(w, epoch, Continue, io);
      StoreChangeControl(w, DeviceRegistered(w.store, account, "invalidate", 0), epoch, Continue, io);
      var invalidated := if io.registered then w.(store := DeviceRegistered(w.store, account, "invalidate", 0)) else w;
      RemoteFailureControl(invalidated, epoch, account, at, Internal, io);
    } else {
      RemoteFailureControl(w, epoch, account, at, reply.error, io);
    }
  }

  lemma AfterAcceptedControl(w: World, epoch: nat, account: Account, batch: OutboxBatch, io: Io)
    requires ControlOk(w) && epoch <= w.control.epoch && w.control.running
    ensures ControlOk(AfterAccepted(w, epoch, account, batch, io))
  {
    SettleControl(w, epoch, StoreFailure, io);
    var taken := AcceptedBatch(w.store, account, batch.id, w.now);
    if taken.Success? && io.accepted {
      StoreChangeControl(w, taken.value, epoch, StoreFailure, io);
      if io.counted {
        var v := AfterAccepted(w, epoch, account, batch, io);
        StoreChangeControl(w, v.store, epoch, Continue, io);
      }
    }
  }

  lemma DeviceReplyControl(w: World, reply: DeviceReply, io: Io)
    requires ControlOk(w) && w.worker.Registering?
    ensures ControlOk(AfterDeviceReply(w, w.worker.epoch, w.worker.account, w.worker.at, w.worker.cause, reply, io))
  {
    var Registering(epoch, account, at, cause) := w.worker;
    match reply
    case RegisterFailed(error) => RemoteFailureControl(w, epoch, account, at, error, io);
    case Registered =>
      StoreChangeControl(w, DeviceRegistered(w.store, account, w.config.fingerprint, 1), epoch, Continue, io);
      SettleControl(w, epoch, Continue, io);
      var known :=
        if io.registered then w.(store := DeviceRegistered(w.store, account, w.config.fingerprint, 1)) else w;
      match cause
      case ForBatch(batch) =>
      case ForGeneration(scope, baseline) => MaterializeControl(known, epoch, account, scope, baseline, at, io);
      case Recovery =>
  }

  lemma FromTopControl(w: World, epoch: nat, io: Io)
    requires ControlOk(w) && w.worker == AtTop(epoch)
    ensures ControlOk(FromTop(w, epoch, io))
  {
    ExitControl(w, epoch, ExitStopped, io);
    ExitControl(w, epoch, ExitBackoff, io);
    if epoch == w.control.epoch && AccountKey(w).Some? && !BackingOff(w) {
      StepControl(w, epoch, AccountKey(w).value, io);
    }
  }

  lemma KickControl(w: World, io: Io)
    requires ControlOk(w)
    ensures ControlOk(Kick(w, io)) && ControlOk(StartWorker(w, io.spawned))
  {
  }

  /** The events that come from outside the worker. */
  lemma OutsideControl(w: World, e: Event)
    requires ControlOk(w) && Enabled(w, e) && !e.Advance? && !e.DeviceReplied? && !e.PushReplied?
    ensures ControlOk(Next(w, e))
  {
    match e
    case SignedIn(user, io) => SignedInControl(w, user, io);
    case SignIn(user, io) => SignedInControl(w.(session := Some(user)), user, io);
    case Commit(upload, io) => CommitControl(w, upload, io);
    case MergeForAll(scope, io) =>
      var merged := w.(store := MergedForAll(w.store, scope));
      KickControl(merged.(control := w.control.(blocked := None, retry := None)), io);
    case RetryNow(io) => KickControl(w.(control := w.control.(blocked := None, retry := None)), io);
    case RetryDue(io) => KickControl(w.(control := w.control.(retry := None)), io);
    case KickStart(io) => KickControl(w.(control := w.control.(latent := w.control.latent - 1)), io);
    case _ =>
  }

  lemma SignedInControl(w: World, user: string, io: Io)
    requires ControlOk(w)
    ensures ControlOk(SignedInHandler(w, user, io))
  {
    var control := w.control.(active := Some(user), cancel := false, blocked := None, epoch := w.control.epoch + 1,
                              retry := None);
    var entered := w.(control := control);
    var prepared :=
      if AccountKey(w).None? then entered else entered.(store := SignInStore(w.store, AccountKey(w).value, io));
    KickControl(prepared, io);
  }

  lemma CommitControl(w: World, upload: CommittedUploads.CommittedDailyUpload, io: Io)
    requires ControlOk(w)
    ensures ControlOk(CommitHandler(w, upload, io))
  {
    KickControl(w, io);
    var scope := CommittedUploads.UploadScopeOf(upload);
    if scope.Some? && AccountKey(w).Some? && io.merged {
      var account := AccountKey(w).value;
      KickControl(w.(store := MergedPending(w.store, account, scope.value)), io);
    }
  }

  lemma NextKeepsControl(w: World, e: Event)
    requires ControlOk(w) && Enabled(w, e)
    ensures ControlOk(Next(w, e))
  {
    match e
    case Advance(io) =>
      if w.worker.AtTop? {
        FromTopControl(w, w.worker.epoch, io);
      }
    case DeviceReplied(reply, io) => DeviceReplyControl(w, reply, io);
    case PushReplied(reply, io) => PushReplyControl(w, reply, io);
    case _ => OutsideControl(w, e);
  }

  lemma {:induction false} RunsKeepControl(ws: seq<World>, es: seq<Event>, i: nat)
    requires RunFromStart(ws, es) && i < |ws|
    ensures ControlOk(ws[i])
  {
    if i > 0 {
      RunsKeepControl(ws, es, i - 1);
      assert Takes(ws, es, i - 1);
      NextKeepsControl(ws[i - 1], es[i - 1]);
    }
  }

  // ---- backoff ----------------------------------------------------------------------------

  predicate ClearsDeadline(w: World, e: Event)
  {
    Retries(w, e) || e.SignedIn? || e.SignedOut? || e.SignIn? || e.SignOut? || e.Crash?
  }

  /** A recorded deadline stands until its time comes or something clears it. */
  lemma DeadlineStands(w: World, e: Event, deadline: Deadline)
    requires ControlOk(w) && Enabled(w, e) && !ClearsDeadline(w, e)
    requires w.control.retry == Some(deadline) && w.now < deadline.until
    ensures Next(w, e).control.retry == Some(deadline) && Next(w, e).control.epoch == w.control.epoch
  {
    assert BackingOff(w);
    match e
    case DeviceReplied(reply, io) => DeviceReplyKeepsDeadline(w, reply, io);
    case PushReplied(reply, io) => PushReplyKeepsDeadline(w, reply, io);
    case _ =>
  }

  /** A worker of an older epoch settles as stopped, whatever its step returned. */
  lemma StaleSettle(w: World, epoch: nat, result: StepResult, io: Io)
    requires epoch != w.control.epoch
    ensures Settle(w, epoch, result, io).control.retry == w.control.retry
    ensures Settle(w, epoch, result, io).control.epoch == w.control.epoch
    ensures Settle(w, epoch, result, io).worker == NoWorker
            || Settle(w, epoch, result, io).worker == AtTop(w.control.epoch)
  {
  }

  lemma DeviceReplyKeepsDeadline(w: World, reply: DeviceReply, io: Io)
    requires ControlOk(w) && w.worker.Registering? && BackingOff(w)
    ensures var v := AfterDeviceReply(w, w.worker.epoch, w.worker.account, w.worker.at, w.worker.cause, reply, io);
            v.control.retry == w.control.retry && v.control.epoch == w.control.epoch
  {
    var Registering(epoch, account, at, cause) := w.worker;
    if reply.RegisterFailed? {
      RemoteFailureIsStale(w, epoch, account, at, reply.error, io);
    } else {
      var known :=
        if io.registered then w.(store := DeviceRegistered(w.store, account, w.config.fingerprint, 1)) else w;
      StaleSettle(known, epoch, Continue, io);
      if cause.ForGeneration? { MaterializeIsStale(known, epoch, account, cause.scope, cause.baseline, at, io); }
    }
  }

  lemma RemoteFailureIsStale(w: World, epoch: nat, account: Account, at: int, error: RemoteError, io: Io)
    requires epoch != w.control.epoch
    ensures var v := RemoteFailure(w, epoch, account, at, error, io);
            v.control.retry == w.control.retry && v.control.epoch == w.control.epoch
                && (v.worker == NoWorker || v.worker == AtTop(w.control.epoch))
  {
    var c := ClassifyRemoteError(error);
    var recorded :=
      if io.recorded then w.(store := Recorded(w.store, account, at, Some(c.code), Some(c.retryable))) else w;
    StaleSettle(recorded, epoch, if c.retryable then Backoff(SaturatingAdd(at, c.backoff)) else Terminal, io);
  }

  lemma MaterializeIsStale(w: World, epoch: nat, account: Account, scope: Scopes.UploadScope, baseline: BaselineStatus,
                           at: int, io: Io)
    requires epoch != w.control.epoch
    ensures var v := Materialize(w, epoch, account, scope, baseline, at, io);
            v.control.retry == w.control.retry && v.control.epoch == w.control.epoch
                && (v.worker == NoWorker || v.worker == AtTop(w.control.epoch))
  {
    StaleSettle(w, epoch, StoreFailure, io);
    var plan := PlanGeneration(w.config, w.store, account, scope, at, io);
    if plan.Some? { StaleSettle(AfterPlan(w, plan.value, baseline, at, io), epoch, Continue, io); }
  }

  lemma AfterAcceptedIsStale(w: World, epoch: nat, account: Account, batch: OutboxBatch, io: Io)
    requires epoch != w.control.epoch
    ensures var v := AfterAccepted(w, epoch, account, batch, io);
            v.control.retry == w.control.retry && v.control.epoch == w.control.epoch
                && (v.worker == NoWorker || v.worker == AtTop(w.control.epoch))
  {
    StaleSettle(w, epoch, StoreFailure, io);
    var v := AfterAccepted(w, epoch, account, batch, io);
    StaleSettle(w.(store := v.store), epoch, Continue, io);
    StaleSettle(w.(store := v.store), epoch, StoreFailure, io);
  }

  lemma PushReplyKeepsDeadline(w: World, reply: PushReply, io: Io)
    requires ControlOk(w) && w.worker.Pushing? && BackingOff(w)
    ensures var v := AfterPushReply(w, w.worker.epoch, w.worker.account, w.worker.batch, w.worker.at, reply, io);
            v.control.retry == w.control.retry && v.control.epoch == w.control.epoch
  {
    PushReplyIsStale(w, reply, io);
  }

  lemma PushReplyIsStale(w: World, reply: PushReply, io: Io)
    requires w.worker.Pushing? && w.worker.epoch != w.control.epoch
    ensures var v := AfterPushReply(w, w.worker.epoch, w.worker.account, w.worker.batch, w.worker.at, reply, io);
            v.control.retry == w.control.retry && v.control.epoch == w.control.epoch
                && (v.worker == NoWorker || v.worker == AtTop(w.control.epoch))
  {
    var Pushing(epoch, account, batch, at) := w.worker;
    if reply.PushAccepted? {
      AfterAcceptedIsStale(w, epoch, account, batch, io);
    } else if reply.error.DeviceNotFound? {
      StaleSettle(w, epoch, Continue, io);
      var invalidated := if io.registered then w.(store := DeviceRegistered(w.store, account, "invalidate", 0)) else w;
      RemoteFailureIsStale(invalidated, epoch, account, at, Internal, io);
    } else {
      RemoteFailureIsStale(w, epoch, account, at, reply.error, io);
    }
  }

  lemma {:induction false} DeadlineHolds(ws: seq<World>, es: seq<Event>, i: nat, j: nat, deadline: Deadline)
    requires RunFromStart(ws, es) && i <= j < |ws| && ws[i].control.retry == Some(deadline)
    requires forall k :: i <= k < j ==> !ClearsDeadline(ws[k], es[k])
    ensures ws[j].now >= deadline.until
            || (ws[j].control.retry == Some(deadline) && ws[j].control.epoch == deadline.epoch)
  {
    RunsKeepControl(ws, es, i);
    if i < j {
      DeadlineHolds(ws, es, i, j - 1, deadline);
      RunsKeepControl(ws, es, j - 1);
      assert Takes(ws, es, j - 1);
      ClockAdvances(ws[j - 1], es[j - 1]);
      if ws[j - 1].now < deadline.until { DeadlineStands(ws[j - 1], es[j - 1], deadline); }
    }
  }

  lemma ClockAdvances(w: World, e: Event)
    requires Enabled(w, e)
    ensures w.now <= Next(w, e).now
  {
  }

  /**
   * Backoff is respected even when a kick slips between its check and its start: if a deadline of this
   * epoch stood at some point, no later push of the epoch happens before it, unless a retry, a
   * sign-in, a sign-out or a restart came in between.
   */
  lemma BackoffIsRespected(ws: seq<World>, es: seq<Event>, i: nat, j: nat, deadline: Deadline)
    requires RunFromStart(ws, es) && i <= j < |es| && ws[i].control.retry == Some(deadline)
    requires Sends(ws[j], es[j]) && ws[j].worker.epoch == deadline.epoch
    ensures ws[j].now >= deadline.until || exists k :: i <= k < j && ClearsDeadline(ws[k], es[k])
  {
    assert Takes(ws, es, j);
    if forall k :: i <= k < j ==> !ClearsDeadline(ws[k], es[k]) {
      DeadlineHolds(ws, es, i, j, deadline);
      RunsKeepControl(ws, es, j);
    }
  }

  // ---- failures ---------------------------------------------------------------------------

  /** The errors after which another attempt is pointless until something outside changes. */
  predicate IsPermanent(error: RemoteError)
  {
    || error.Unauthorized? || error.Validation? || error.ContractUnsupported? || error.Conflict?
    || error.PayloadTooLarge? || error.Forbidden? || error.Decode?
    || (error.Problem? && error.code.Some?
        && error.code.value in {"VALIDATION_FAILED", "SYNC_CONTRACT_UNSUPPORTED", "FORBIDDEN"})
  }

  /** The milliseconds to wait after any other error: what the server asked for, if it did. */
  function LeastWait(error: RemoteError): nat
  {
    if error.RateLimited? && error.retryAfterSeconds.Some? then
      var seconds := error.retryAfterSeconds.value;
      if seconds > I64_MAX then 60000 else Min(1000 * seconds, I64_MAX)
    else if error.RateLimited? then 15000
    else if error.IdempotencyInProgress? then 2000
    else if error.DeviceNotFound? then 1000
    else 5000
  }

  /** The code under which an error is shown to the user. */
  predicate ShownAs(error: RemoteError, code: string)
  {
    match code
    case "NETWORK" => error.Network?
    case "TIMEOUT" => error.Timeout?
    case "RATE_LIMITED" => error.RateLimited?
    case "IDEMPOTENCY_IN_PROGRESS" => error.IdempotencyInProgress?
    case "UNAUTHORIZED" => error.Unauthorized?
    case "VALIDATION_FAILED" => error.Validation?
    case "SYNC_CONTRACT_UNSUPPORTED" => error.ContractUnsupported?
    case "SYNC_DEVICE_NOT_FOUND" => error.DeviceNotFound?
    case "CONFLICT" => error.Conflict?
    case "PAYLOAD_TOO_LARGE" => error.PayloadTooLarge?
    case "FORBIDDEN" => error.Forbidden?
    case "PROBLEM" => error.Problem?
    case "DECODE" => error.Decode?
    case "INTERNAL" => error.Internal?
    case _ => false
  }

  lemma ErrorsAreClassified(error: RemoteError)
    ensures var c := ClassifyRemoteError(error);
            ShownAs(error, c.code) && c.retryable == !IsPermanent(error)
                && (c.retryable ==> c.backoff == LeastWait(error))
  {
  }

  /** The remote error this transition reports for a step, apart from the missing device a push can recover from. */
  function FailureOf(e: Event): Option<RemoteError>
  {
    match e
    case PushReplied(PushFailed(error), _) => if error.DeviceNotFound? then None else Some(error)
    case DeviceReplied(RegisterFailed(error), _) => Some(error)
    case _ => None
  }

  lemma FailureIsRemote(w: World, e: Event)
    requires Enabled(w, e) && FailureOf(e).Some?
    ensures OnTheWay(w.worker)
    ensures Next(w, e)
            == RemoteFailure(w, w.worker.epoch, w.worker.account, w.worker.at, FailureOf(e).value, e.io)
  {
    hide RemoteFailure, Materialize, AfterAccepted, Settle;
  }

  /**
   * The other half: a failed push or registration of the current epoch always ends the worker, and leaves a
   * deadline when another attempt can help, a blocked epoch when it cannot.
   */
  lemma FailureBacksOffOrBlocks(w: World, e: Event)
    requires ControlOk(w) && Enabled(w, e) && FailureOf(e).Some? && w.worker.epoch == w.control.epoch
    requires !w.control.cancel
    ensures var v, error := Next(w, e), FailureOf(e).value;
            && v.worker == NoWorker && v.store.batches == w.store.batches && v.history == w.history
            && v.control == w.control.(running := false, blame := NoFailure, retry := v.control.retry,
                                       blocked := v.control.blocked)
            && (if IsPermanent(error)
                then v.control.retry == w.control.retry && v.control.blocked == Some(w.control.epoch)
                else && v.control.retry == Some(Deadline(w.control.epoch, SaturatingAdd(w.worker.at, LeastWait(error))))
                     && v.control.blocked == w.control.blocked)
  {
    hide ClassifyRemoteError, IsPermanent, LeastWait, ShownAs, Next;
    FailureIsRemote(w, e);
    ErrorsAreClassified(FailureOf(e).value);
  }

  /** A failure that can be recorded is shown for the account, with its code, and nothing else in the store changes. */
  lemma FailureIsRecorded(w: World, e: Event)
    requires Enabled(w, e) && FailureOf(e).Some?
    ensures var s, t, account, error := w.store, Next(w, e).store, w.worker.account, FailureOf(e).value;
            if !e.io.recorded then t == s
            else
              && t.batches == s.batches && t.nextId == s.nextId && account in t.states
              && (forall a :: a != account ==> StateOf(t, a) == StateOf(s, a))
              && var state := t.states[account];
              && state.lastAttemptAt == Some(w.worker.at) && state.lastErrorRetryable == Some(!IsPermanent(error))
              && state.lastErrorCode.Some? && ShownAs(error, state.lastErrorCode.value)
              && state == EnsuredState(s, account).(lastAttemptAt := state.lastAttemptAt,
                            lastErrorCode := state.lastErrorCode, lastErrorRetryable := state.lastErrorRetryable)
  {
    hide ClassifyRemoteError, IsPermanent, ShownAs, Next, Settle;
    FailureIsRemote(w, e);
    ErrorsAreClassified(FailureOf(e).value);
  }

  // ---- stale workers ----------------------------------------------------------------------

  /** How many pushes a worker of epoch `epoch` can still start once the epoch has moved on. */
  function PushesLeft(w: World, epoch: nat): nat
  {
    match w.worker
    case Registering(e, _, _, ForBatch(_)) => if e == epoch then 1 else 0
    case ReadyToPush(e, _, _, _) => if e == epoch then 1 else 0
    case _ => 0
  }

  lemma StaleStep(w: World, e: Event, epoch: nat)
    requires Enabled(w, e) && !e.Crash? && epoch < w.control.epoch
    ensures epoch < Next(w, e).control.epoch
    ensures (if Sends(w, e) && w.worker.epoch == epoch then 1 else 0) + PushesLeft(Next(w, e), epoch)
            <= PushesLeft(w, epoch)
  {
    hide StepFromTop, AfterDeviceReply, AfterPushReply, SignInStore, CommittedUploads.UploadScopeOf;
    match e
    case Advance(io) =>
      if w.worker.AtTop? && w.worker.epoch != epoch { EpochKept(w, w.worker.epoch, io); }
    case DeviceReplied(reply, io) => DeviceReplyPotential(w, reply, io, epoch);
    case PushReplied(reply, io) => PushReplyPotential(w, reply, io, epoch);
    case _ =>
  }

  lemma StepFromTopEpoch(w: World, epoch: nat, account: Account, io: Io)
    ensures var v := StepFromTop(w, epoch, account, io);
            v.control.epoch == w.control.epoch
                && (v.worker == NoWorker || v.worker.epoch == epoch || v.worker == AtTop(w.control.epoch))
  {
    hide Settle, Materialize;
    SettleEpoch(w, epoch, StoreFailure, io);
    SettleEpoch(w, epoch, Quiescent, io);
    SettleEpoch(w, epoch, Continue, io);
    SettleEpoch(w.(store := Ensured(w.store, account)), epoch, Continue, io);
    if account in w.store.states {
      var state := w.store.states[account];
      var scope := if state.pendingScope.Some? then state.pendingScope.value else Scopes.Full;
      MaterializeEpoch(w, epoch, account, scope, state.baselineStatus, w.now, io);
    }
  }

  lemma ExitEpoch(w: World, epoch: nat, exit: WorkerExit, io: Io)
    ensures Exit(w, epoch, exit, io).control.epoch == w.control.epoch
    ensures var v := Exit(w, epoch, exit, io).worker; v == NoWorker || v == AtTop(w.control.epoch)
  {
  }

  /** A transition never changes the epoch except through the account handlers. */
  lemma EpochKept(w: World, epoch: nat, io: Io)
    ensures FromTop(w, epoch, io).control.epoch == w.control.epoch
    ensures var v := FromTop(w, epoch, io).worker; v == NoWorker || v.epoch == epoch || v == AtTop(w.control.epoch)
  {
    ExitEpoch(w, epoch, ExitStopped, io);
    ExitEpoch(w, epoch, ExitBackoff, io);
    if AccountKey(w).Some? {
      StepFromTopEpoch(w, epoch, AccountKey(w).value, io);
    }
  }

  lemma SettleEpoch(w: World, epoch: nat, result: StepResult, io: Io)
    ensures Settle(w, epoch, result, io).control.epoch == w.control.epoch
    ensures var v := Settle(w, epoch, result, io).worker;
            v == NoWorker || v == AtTop(epoch) || v == AtTop(w.control.epoch)
  {
  }

  lemma MaterializeEpoch(w: World, epoch: nat, account: Account, scope: Scopes.UploadScope, baseline: BaselineStatus,
                         at: int, io: Io)
    ensures Materialize(w, epoch, account, scope, baseline, at, io).control.epoch == w.control.epoch
    ensures var v := Materialize(w, epoch, account, scope, baseline, at, io).worker;
            v == NoWorker || v == AtTop(epoch) || v == AtTop(w.control.epoch)
  {
    SettleEpoch(w, epoch, StoreFailure, io);
    var plan := PlanGeneration(w.config, w.store, account, scope, at, io);
    if plan.Some? { SettleEpoch(AfterPlan(w, plan.value, baseline, at, io), epoch, Continue, io); }
  }

  lemma RemoteFailureEpoch(w: World, epoch: nat, account: Account, at: int, error: RemoteError, io: Io)
    ensures var v := RemoteFailure(w, epoch, account, at, error, io);
            v.control.epoch == w.control.epoch
                && (v.worker == NoWorker || v.worker == AtTop(epoch) || v.worker == AtTop(w.control.epoch))
  {
    var c := ClassifyRemoteError(error);
    var recorded :=
      if io.recorded then w.(store := Recorded(w.store, account, at, Some(c.code), Some(c.retryable))) else w;
    SettleEpoch(recorded, epoch, if c.retryable then Backoff(SaturatingAdd(at, c.backoff)) else Terminal, io);
  }

  lemma DeviceReplyPotential(w: World, reply: DeviceReply, io: Io, epoch: nat)
    requires w.worker.Registering?
    ensures var v := AfterDeviceReply(w, w.worker.epoch, w.worker.account, w.worker.at, w.worker.cause, reply, io);
            v.control.epoch == w.control.epoch && PushesLeft(v, epoch) <= PushesLeft(w, epoch)
  {
    var Registering(own, account, at, cause) := w.worker;
    if reply.RegisterFailed? {
      RemoteFailureEpoch(w, own, account, at, reply.error, io);
    } else {
      var known :=
        if io.registered then w.(store := DeviceRegistered(w.store, account, w.config.fingerprint, 1)) else w;
      SettleEpoch(known, own, Continue, io);
      if cause.ForGeneration? { MaterializeEpoch(known, own, account, cause.scope, cause.baseline, at, io); }
    }
  }

  lemma AfterAcceptedEpoch(w: World, epoch: nat, account: Account, batch: OutboxBatch, io: Io)
    ensures var v := AfterAccepted(w, epoch, account, batch, io);
            v.control.epoch == w.control.epoch
                && (v.worker == NoWorker || v.worker == AtTop(epoch) || v.worker == AtTop(w.control.epoch))
  {
    var v := AfterAccepted(w, epoch, account, batch, io);
    SettleEpoch(w, epoch, StoreFailure, io);
    SettleEpoch(w.(store := v.store), epoch, StoreFailure, io);
    SettleEpoch(w.(store := v.store), epoch, Continue, io);
  }

  lemma PushReplyPotential(w: World, reply: PushReply, io: Io, epoch: nat)
    requires w.worker.Pushing?
    ensures var v := AfterPushReply(w, w.worker.epoch, w.worker.account, w.worker.batch, w.worker.at, reply, io);
            v.control.epoch == w.control.epoch && PushesLeft(v, epoch) == 0
  {
    var Pushing(own, account, batch, at) := w.worker;
    if reply.PushAccepted? {
      AfterAcceptedEpoch(w, own, account, batch, io);
    } else if reply.error.DeviceNotFound? {
      SettleEpoch(w, own, Continue, io);
      var invalidated := if io.registered then w.(store := DeviceRegistered(w.store, account, "invalidate", 0)) else w;
      RemoteFailureEpoch(invalidated, own, account, at, Internal, io);
    } else {
      RemoteFailureEpoch(w, own, account, at, reply.error, io);
    }
  }

  /** The pushes started by workers of one epoch between two points of a run. */
  function PushesOf(ws: seq<World>, es: seq<Event>, i: nat, j: nat, epoch: nat): nat
    requires i <= j <= |es| && |ws| == |es| + 1
  {
    if i == j then 0
    else
      var sends := Sends(ws[j - 1], es[j - 1]) && ws[j - 1].worker.epoch == epoch;
      PushesOf(ws, es, i, j - 1, epoch) + (if sends then 1 else 0)
  }

  /** After the epoch has moved on, the old worker starts at most one more push, however long the process runs. */
  lemma {:induction false} StaleWorkerPushesAtMostOnce(ws: seq<World>, es: seq<Event>, i: nat, j: nat, epoch: nat)
    requires Run(ws, es) && i <= j <= |es| && epoch < ws[i].control.epoch
    requires forall k :: i <= k < j ==> !es[k].Crash?
    ensures epoch < ws[j].control.epoch
    ensures PushesOf(ws, es, i, j, epoch) + PushesLeft(ws[j], epoch) <= PushesLeft(ws[i], epoch) <= 1
  {
    if i < j {
      hide Next, Enabled;
      StaleWorkerPushesAtMostOnce(ws, es, i, j - 1, epoch);
      assert Takes(ws, es, j - 1);
      StaleStep(ws[j - 1], es[j - 1], epoch);
    }
  }
}
