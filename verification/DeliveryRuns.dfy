/** The delivery invariant holds along every run, and what follows from it. */
module DeliveryRuns {
  import opened Basics
  import CommittedUploads
  import opened Delivery
  import opened OutboxStore
  import Scopes
  import opened SyncMachine

  /** A planned generation continues the account's revisions with unused keys. */
  lemma PlanFits(w: World, account: Account, scope: Scopes.UploadScope, at: int, io: Io)
    requires DurableOk(w) && account.clientDeviceId == DeviceKey(w.config) && Queue(w, account.userId) == []
    requires FreshKeys(w, io)
    ensures var plan := PlanGeneration(w.config, w.store, account, scope, at, io);
            plan.Some? ==>
              && GenerationFits(w, plan.value.input) && plan.value.input.account == account
              && CreatedGeneration(w.store, plan.value.input) == Success(plan.value.store)
              && Scopes.ExportQuery(scope) == Success(plan.value.scope)
  {
    if account in w.store.states && io.exported.Some? {
      BuiltBatchesFit(w, account, scope, io);
    }
  }

  lemma MaterializeKeeps(w: World, epoch: nat, account: Account, scope: Scopes.UploadScope, baseline: BaselineStatus,
                         at: int, io: Io)
    requires DurableOk(w) && w.control.running && account.clientDeviceId == DeviceKey(w.config)
    requires Queue(w, account.userId) == [] && FreshKeys(w, io)
    ensures DeliveryInv(Materialize(w, epoch, account, scope, baseline, at, io))
    ensures SameAccepted(w, Materialize(w, epoch, account, scope, baseline, at, io))
  {
    PlanFits(w, account, scope, at, io);
    match PlanGeneration(w.config, w.store, account, scope, at, io)
    case None => SettleKeeps(w, epoch, StoreFailure, io);
    case Some(plan) =>
      GenerationKeepsDurable(w, plan.input, plan.scope);
      var made := AfterGeneration(w, plan.input, plan.scope);
      if plan.input.prepared == [] {
        EmptyExportKeeps(made, account, baseline, at, io);
      }
      SettleKeeps(AfterPlan(w, plan, baseline, at, io), epoch, Continue, io);
  }

  lemma EmptyExportKeeps(w: World, account: Account, baseline: BaselineStatus, at: int, io: Io)
    requires DurableOk(w) && account in w.store.states
    ensures DurableOk(AfterEmptyExport(w, account, baseline, at, io))
    ensures QueuesKept(w, AfterEmptyExport(w, account, baseline, at, io))
    ensures SameAccepted(w, AfterEmptyExport(w, account, baseline, at, io))
  {
    var v := AfterEmptyExport(w, account, baseline, at, io);
    assert w.store.batches + [] == w.store.batches;
    KeptQueuesStayOk(w, v);
  }

  lemma RemoteFailureKeeps(w: World, epoch: nat, account: Account, at: int, error: RemoteError, io: Io)
    requires DurableOk(w) && w.control.running
    ensures DeliveryInv(RemoteFailure(w, epoch, account, at, error, io))
    ensures SameAccepted(w, RemoteFailure(w, epoch, account, at, error, io))
  {
    var c := ClassifyRemoteError(error);
    var recorded :=
      if io.recorded then w.(store := Recorded(w.store, account, at, Some(c.code), Some(c.retryable))) else w;
    KeptQueuesStayOk(w, recorded);
    var result := if c.retryable then Backoff(SaturatingAdd(at, c.backoff)) else Terminal;
    SettleSettles(recorded, epoch, result, io);
    SettledKeeps(recorded, Settle(recorded, epoch, result, io));
  }

  lemma SettleKeeps(w: World, epoch: nat, result: StepResult, io: Io)
    requires DurableOk(w) && w.control.running
    ensures DeliveryInv(Settle(w, epoch, result, io))
    ensures SameAccepted(w, Settle(w, epoch, result, io))
  {
    SettleSettles(w, epoch, result, io);
    SettledKeeps(w, Settle(w, epoch, result, io));
  }

  lemma FromTopKeeps(w: World, epoch: nat, io: Io)
    requires DeliveryInv(w) && w.worker == AtTop(epoch) && FreshKeys(w, io)
    ensures DeliveryInv(FromTop(w, epoch, io))
    ensures SameAccepted(w, FromTop(w, epoch, io))
  {
    ExitSettles(w, epoch, ExitStopped, io);
    ExitSettles(w, epoch, ExitBackoff, io);
    SettledKeeps(w, Exit(w, epoch, ExitStopped, io));
    SettledKeeps(w, Exit(w, epoch, ExitBackoff, io));
    if AccountKey(w).Some? {
      StepFromTopKeeps(w, epoch, AccountKey(w).value, io);
    }
  }

  lemma StepFromTopKeeps(w: World, epoch: nat, account: Account, io: Io)
    requires DeliveryInv(w) && w.worker == AtTop(epoch) && FreshKeys(w, io)
    requires account.clientDeviceId == DeviceKey(w.config)
    ensures DeliveryInv(StepFromTop(w, epoch, account, io))
    ensures SameAccepted(w, StepFromTop(w, epoch, account, io))
  {
    SettleKeeps(w, epoch, StoreFailure, io);
    SettleKeeps(w, epoch, Continue, io);
    SettleKeeps(w, epoch, Quiescent, io);
    assert account == AccountFor(w.config, account.userId);
    var v := StepFromTop(w, epoch, account, io);
    if io.listed {
      var pending := PendingOf(w.store.batches, account);
      if pending != [] {
        KeptQueuesStayOk(w, v);
      } else if io.loaded {
        if account !in w.store.states {
          var ensured := w.(store := Ensured(w.store, account));
          KeptQueuesStayOk(w, ensured);
          SettleKeeps(ensured, epoch, Continue, io);
        } else {
          var state := w.store.states[account];
          var scope := if state.pendingScope.Some? then state.pendingScope.value else Scopes.Full;
          MaterializeKeeps(w, epoch, account, scope, state.baselineStatus, w.now, io);
          KeptQueuesStayOk(w, w.(worker :=
              Registering(epoch, account, w.now, ForGeneration(scope, state.baselineStatus))));
        }
      }
    }
  }

  lemma AfterAcceptedKeeps(w: World, epoch: nat, account: Account, batch: OutboxBatch, io: Io)
    requires DeliveryInv(w) && w.control.running && HoldsHead(w, account, batch) && Applied(w, PushOf(batch))
    ensures DeliveryInv(AfterAccepted(w, epoch, account, batch, io))
    ensures forall other :: other != account.userId ==>
            AcceptedCount(AfterAccepted(w, epoch, account, batch, io), other) == AcceptedCount(w, other)
    ensures AcceptedCount(w, account.userId)
            <= AcceptedCount(AfterAccepted(w, epoch, account, batch, io), account.userId)
                <= AcceptedCount(w, account.userId) + 1
  {
    SettleKeeps(w, epoch, StoreFailure, io);
    AcceptKeepsDurable(w, account, batch);
    var accepted := w.(store := AcceptedBatch(w.store, account, batch.id, w.now).value);
    SettleKeeps(accepted, epoch, StoreFailure, io);
    var completed := accepted.(store := BaselineCompleted(accepted.store, account));
    KeptQueuesStayOk(accepted, completed);
    SettleKeeps(completed, epoch, Continue, io);
    SettleKeeps(accepted, epoch, Continue, io);
    RecordedKeeps(accepted, epoch, account, io);
    RecordedKeeps(completed, epoch, account, io);
  }

  lemma RecordedKeeps(w: World, epoch: nat, account: Account, io: Io)
    requires DurableOk(w) && w.control.running
    ensures DeliveryInv(Settle(w.(store := Recorded(w.store, account, w.now, None, None)), epoch, Continue, io))
    ensures SameAccepted(w, Settle(w.(store := Recorded(w.store, account, w.now, None, None)), epoch, Continue, io))
  {
    var v := w.(store := Recorded(w.store, account, w.now, None, None));
    KeptQueuesStayOk(w, v);
    SettleKeeps(v, epoch, Continue, io);
  }

  lemma DeviceRecordedKeeps(w: World, account: Account, fingerprint: string, revision: int)
    requires DurableOk(w)
    ensures var v := w.(store := DeviceRegistered(w.store, account, fingerprint, revision));
            DurableOk(v) && (forall user :: Queue(v, user) == Queue(w, user)) && SameAccepted(w, v)
  {
    KeptQueuesStayOk(w, w.(store := DeviceRegistered(w.store, account, fingerprint, revision)));
  }

  lemma PushReplyKeeps(w: World, io: Io, reply: PushReply)
    requires DeliveryInv(w) && w.worker.Pushing? && (reply.PushAccepted? ==> Applied(w, PushOf(w.worker.batch)))
    ensures DeliveryInv(AfterPushReply(w, w.worker.epoch, w.worker.account, w.worker.batch, w.worker.at, reply, io))
    ensures var v := AfterPushReply(w, w.worker.epoch, w.worker.account, w.worker.batch, w.worker.at, reply, io);
            if reply.PushAccepted? then
              && (forall other :: other != w.worker.account.userId ==>
                   AcceptedCount(v, other) == AcceptedCount(w, other))
              && AcceptedCount(w, w.worker.account.userId) <= AcceptedCount(v, w.worker.account.userId)
                   <= AcceptedCount(w, w.worker.account.userId) + 1
            else SameAccepted(w, v)
  {
    hide DurableOk, AfterAccepted, RemoteFailure, Settle;
    var Pushing(epoch, account, batch, at) := w.worker;
    if reply.PushAccepted? {
      AfterAcceptedKeeps(w, epoch, account, batch, io);
    } else if reply.error.DeviceNotFound? {
      SettleKeeps(w, epoch, Continue, io);
      DeviceRecordedKeeps(w, account, "invalidate", 0);
      var invalidated := if io.registered then w.(store := DeviceRegistered(w.store, account, "invalidate", 0)) else w;
      RemoteFailureKeeps(invalidated, epoch, account, at, Internal, io);
      KeptQueuesStayOk(invalidated, invalidated.(worker := Registering(epoch, account, at, Recovery)));
    } else {
      RemoteFailureKeeps(w, epoch, account, at, reply.error, io);
    }
  }

  lemma DeviceReplyKeeps(w: World, io: Io, reply: DeviceReply)
    requires DeliveryInv(w) && w.worker.Registering? && FreshKeys(w, io)
    ensures DeliveryInv(AfterDeviceReply(w, w.worker.epoch, w.worker.account, w.worker.at, w.worker.cause, reply, io))
    ensures SameAccepted(w,
            AfterDeviceReply(w, w.worker.epoch, w.worker.account, w.worker.at, w.worker.cause, reply, io))
  {
    var Registering(epoch, account, at, cause) := w.worker;
    match reply
    case RegisterFailed(error) => RemoteFailureKeeps(w, epoch, account, at, error, io);
    case Registered =>
      DeviceRecordedKeeps(w, account, w.config.fingerprint, 1);
      var known :=
        if io.registered then w.(store := DeviceRegistered(w.store, account, w.config.fingerprint, 1)) else w;
      match cause
      case ForBatch(batch) =>
        KeptQueuesStayOk(known, known.(worker := ReadyToPush(epoch, account, batch, at)));
      case ForGeneration(scope, baseline) =>
        MaterializeKeeps(known, epoch, account, scope, baseline, at, io);
      case Recovery => SettleKeeps(known, epoch, Continue, io);
  }

  lemma SignedInKeeps(w: World, user: string, io: Io)
    requires DeliveryInv(w)
    ensures DeliveryInv(SignedInHandler(w, user, io))
    ensures SameAccepted(w, SignedInHandler(w, user, io))
  {
    var control := w.control.(active := Some(user), cancel := false, blocked := None, epoch := w.control.epoch + 1,
                              retry := None);
    var entered := w.(control := control);
    var prepared :=
      if AccountKey(w).None? then entered else entered.(store := SignInStore(w.store, AccountKey(w).value, io));
    assert RevisionsKept(w.store, prepared.store);
    KeptQueuesStayOk(w, prepared);
    assert WorkerOk(prepared);
    KickKeeps(prepared, io);
    assert SignedInHandler(w, user, io) == Kick(prepared, io);
  }

  lemma CommitKeeps(w: World, upload: CommittedUploads.CommittedDailyUpload, io: Io)
    requires DeliveryInv(w)
    ensures DeliveryInv(CommitHandler(w, upload, io))
    ensures SameAccepted(w, CommitHandler(w, upload, io))
  {
    KickKeeps(w, io);
    var scope := CommittedUploads.UploadScopeOf(upload);
    if scope.Some? && AccountKey(w).Some? {
      var account := AccountKey(w).value;
      var merged := w.(store := MergedPending(w.store, account, scope.value));
      KeptQueuesStayOk(w, merged);
      KickKeeps(merged, io);
    }
  }

  lemma MergeForAllKeeps(w: World, scope: Scopes.UploadScope, io: Io)
    requires DeliveryInv(w)
    ensures DeliveryInv(MergeForAllHandler(w, scope, io)) && SameAccepted(w, MergeForAllHandler(w, scope, io))
  {
    var merged := w.(store := MergedForAll(w.store, scope));
    KeptQueuesStayOk(w, merged);
    KeptQueuesStayOk(w, merged.(control := w.control.(blame := NoFailure)));
    var cleared := merged.(control := w.control.(blocked := None, retry := None));
    KeptQueuesStayOk(w, cleared);
    KickKeeps(cleared, io);
  }

  lemma AdvanceKeeps(w: World, io: Io)
    requires DeliveryInv(w) && Enabled(w, Advance(io))
    ensures DeliveryInv(Next(w, Advance(io)))
    ensures SameAccepted(w, Next(w, Advance(io)))
  {
    match w.worker
    case AtTop(epoch) => FromTopKeeps(w, epoch, io);
    case ReadyToPush(epoch, account, batch, at) =>
      SendKeepsDurable(w, account, batch);
      HeldBatchIsOwn(w, account, batch);
      KeptQueuesStayOk(w.(sent := w.sent + {RequestFor(account, batch)}), Next(w, Advance(io)));
  }

  /** Every transition keeps the delivery invariant, whatever fails and whatever the network does. */
  lemma NextKeepsDelivery(w: World, e: Event)
    requires DeliveryInv(w) && Enabled(w, e)
    ensures DeliveryInv(Next(w, e))
    ensures if e.PushReplied? && e.push.PushAccepted? then
              && (forall other :: other != w.worker.account.userId ==>
                   AcceptedCount(Next(w, e), other) == AcceptedCount(w, other))
              && AcceptedCount(w, w.worker.account.userId) <= AcceptedCount(Next(w, e), w.worker.account.userId)
                   <= AcceptedCount(w, w.worker.account.userId) + 1
            else SameAccepted(w, Next(w, e))
  {
    hide FromTop, AfterDeviceReply, AfterPushReply, SignedInHandler, CommitHandler, MergeForAllHandler;
    match e
    case Tick(_) | Session(_) | SignedOut | SignOut | Crash => KeptQueuesStayOk(w, Next(w, e));
    case SignedIn(user, io) => SignedInKeeps(w, user, io);
    case SignIn(user, io) =>
      KeptQueuesStayOk(w, w.(session := Some(user)));
      SignedInKeeps(w.(session := Some(user)), user, io);
    case Commit(upload, io) => CommitKeeps(w, upload, io);
    case MergeForAll(scope, io) => MergeForAllKeeps(w, scope, io);
    case RetryNow(io) =>
      var cleared := w.(control := w.control.(blocked := None, retry := None));
      KeptQueuesStayOk(w, cleared);
      KickKeeps(cleared, io);
    case RetryDue(io) =>
      var cleared := w.(control := w.control.(retry := None));
      KeptQueuesStayOk(w, cleared);
      KickKeeps(cleared, io);
    case KickStart(io) =>
      var taken := w.(control := w.control.(latent := w.control.latent - 1));
      KeptQueuesStayOk(w, taken);
      KickKeeps(taken, io);
    case Advance(io) => AdvanceKeeps(w, io);
    case DeviceReplied(reply, io) => DeviceReplyKeeps(w, io, reply);
    case PushReplied(reply, io) =>
      HeldBatchIsOwn(w, w.worker.account, w.worker.batch);
      PushReplyKeeps(w, io, reply);
    case Deliver(request) => DeliverKeeps(w, request);
  }

  lemma InitialDelivery(w: World)
    requires Initial(w)
    ensures DeliveryInv(w)
  {
    forall user ensures QueueOk(w, user) { }
  }

  lemma {:induction false} RunsKeepDelivery(ws: seq<World>, es: seq<Event>, i: nat)
    requires RunFromStart(ws, es) && i < |ws|
    ensures DeliveryInv(ws[i])
  {
    if i == 0 {
      InitialDelivery(ws[0]);
    } else {
      RunsKeepDelivery(ws, es, i - 1);
      assert Takes(ws, es, i - 1);
      NextKeepsDelivery(ws[i - 1], es[i - 1]);
    }
  }

  // ---- what every run guarantees ----------------------------------------------------------

  /**
   * The server's log is a prefix of the batches ever created for the user, in creation order, with
   * revisions 1, 2, 3, ... and no key or body applied twice.
   */
  lemma ExactlyOnceInOrder(ws: seq<World>, es: seq<Event>, i: nat, user: string)
    requires RunFromStart(ws, es) && i < |ws|
    ensures var log, created := LogOf(ws[i].server, user), CreatedBy(ws[i].history, user);
            && |log| <= |created|
            && (forall k :: 0 <= k < |log| ==> log[k] == PushOf(created[k]) && log[k].body.clientRevision == k + 1)
            && (forall j, k :: 0 <= j < k < |log| ==> log[j].key != log[k].key && log[j].body != log[k].body)
            && (forall k :: 0 <= k < |created| ==> created[k].clientRevision == k + 1)
  {
    RunsKeepDelivery(ws, es, i);
    LogIsExact(ws[i], user);
  }

  lemma LogIsExact(w: World, user: string)
    requires DeliveryInv(w)
    ensures var log, created := LogOf(w.server, user), CreatedBy(w.history, user);
            && |log| <= |created|
            && (forall k :: 0 <= k < |log| ==> log[k] == PushOf(created[k]) && log[k].body.clientRevision == k + 1)
            && (forall j, k :: 0 <= j < k < |log| ==> log[j].key != log[k].key && log[j].body != log[k].body)
            && (forall k :: 0 <= k < |created| ==> created[k].clientRevision == k + 1)
  {
    var log, created := LogOf(w.server, user), CreatedBy(w.history, user);
    assert QueueOk(w, user);
    forall k | 0 <= k < |created| ensures created[k].clientRevision == k + 1 { assert BatchOk(w, user, k); }
    forall k | 0 <= k < |log|
      ensures log[k] == PushOf(created[k]) && log[k].body.clientRevision == k + 1
    {
      assert BatchOk(w, user, k);
    }
    forall j, k | 0 <= j < k < |log| ensures log[j].key != log[k].key && log[j].body != log[k].body {
      assert BatchOk(w, user, j) && BatchOk(w, user, k);
    }
  }

  /** With nothing left in the queue, everything ever created has been applied, once. */
  lemma EmptyQueueMeansDelivered(ws: seq<World>, es: seq<Event>, i: nat, user: string)
    requires RunFromStart(ws, es) && i < |ws|
    ensures var log, created := LogOf(ws[i].server, user), CreatedBy(ws[i].history, user);
            Queue(ws[i], user) == [] ==>
              |log| == |created| && forall k :: 0 <= k < |created| ==> log[k] == PushOf(created[k])
  {
    RunsKeepDelivery(ws, es, i);
    assert QueueOk(ws[i], user);
  }

  /** The step the worker takes next ends Quiescent. */
  predicate EndsQuiescent(w: World, io: Io)
  {
    && w.worker.AtTop? && MayStep(w, w.worker.epoch) && !BackingOff(w)
    && NextMove(w.store, AccountKey(w).value, io) == Finish(Quiescent)
  }

  /**
   * A worker that ends Quiescent has delivered everything: the server log is all that was ever created for
   * its account, the baseline is complete, nothing is pending, and the run ends in the quiescent exit.
   */
  lemma QuiescentMeansDelivered(ws: seq<World>, es: seq<Event>, i: nat)
    requires RunFromStart(ws, es) && i < |es| && es[i].Advance? && EndsQuiescent(ws[i], es[i].io)
    ensures var w, account := ws[i], AccountKey(ws[i]).value;
            var log, created := LogOf(w.server, account.userId), CreatedBy(w.history, account.userId);
            && ws[i + 1] == Exit(w, w.worker.epoch, ExitQuiescent, es[i].io)
            && |log| == |created| && (forall k :: 0 <= k < |created| ==> log[k] == PushOf(created[k]))
            && account in w.store.states && w.store.states[account].pendingScope.None?
            && w.store.states[account].baselineStatus == Complete
  {
    assert Takes(ws, es, i);
    var user := AccountKey(ws[i]).value.userId;
    EmptyQueueMeansDelivered(ws, es, i, user);
    assert AccountKey(ws[i]).value == AccountFor(ws[i].config, user);
  }

  /**
   * A worker that puts a batch on the network holds a batch of its own account: the expected user it sends is
   * the owner of the batch, across any account switches since the batch was read.
   */
  lemma WorkersSendTheirOwnBatches(ws: seq<World>, es: seq<Event>, i: nat)
    requires RunFromStart(ws, es) && i < |es| && es[i].Advance? && ws[i].worker.ReadyToPush?
    ensures var account, batch := ws[i].worker.account, ws[i].worker.batch;
            && batch.account == account && Queue(ws[i], account.userId) != []
            && Queue(ws[i], account.userId)[0] == batch
            && ws[i + 1].sent == ws[i].sent + {Push(batch.account.userId, batch.requestBody, batch.idempotencyKey)}
  {
    RunsKeepDelivery(ws, es, i);
    assert Takes(ws, es, i);
    HeldBatchIsOwn(ws[i], ws[i].worker.account, ws[i].worker.batch);
  }

  /** Every request ever sent names as expected user the owner of the batch whose exact body and key it carries. */
  lemma PushesGoOnlyToTheirOwner(ws: seq<World>, es: seq<Event>, i: nat, push: Push)
    requires RunFromStart(ws, es) && i < |ws| && push in ws[i].sent
    ensures var created := CreatedBy(ws[i].history, push.user);
            exists k :: 0 <= k < |created| && push == PushOf(created[k]) && created[k].account.userId == push.user
  {
    RunsKeepDelivery(ws, es, i);
    assert SentOk(ws[i], push) && QueueOk(ws[i], push.user);
    assert BatchOk(ws[i], push.user, push.body.clientRevision - 1);
  }

  /** A batch leaves the outbox only on an accepted push of exactly that batch, by the worker of its own account. */
  lemma AcceptedOnlyUnderOwner(ws: seq<World>, es: seq<Event>, i: nat, user: string)
    requires RunFromStart(ws, es) && i < |es|
    ensures 0 <= AcceptedCount(ws[i], user) <= AcceptedCount(ws[i + 1], user) <= AcceptedCount(ws[i], user) + 1
    ensures AcceptedCount(ws[i + 1], user) != AcceptedCount(ws[i], user) ==>
              && es[i].PushReplied? && es[i].push.PushAccepted? && ws[i].worker.Pushing?
              && ws[i].worker.account == AccountFor(ws[i].config, user) == ws[i].worker.batch.account
              && Queue(ws[i], user) != [] && ws[i].worker.batch == Queue(ws[i], user)[0]
  {
    RunsKeepDelivery(ws, es, i);
    assert Takes(ws, es, i);
    NextKeepsDelivery(ws[i], es[i]);
    var w := ws[i];
    assert QueueOk(w, user);
    if AcceptedCount(ws[i + 1], user) != AcceptedCount(w, user) {
      assert w.worker.account.userId == user;
      assert BatchOk(w, user, AcceptedCount(w, user));
    }
  }
}
