/** What the worker does next, and what the answers of the remote leave behind, in every reachable state. */
module Steps {
  import opened Basics
  import Baseline
  import Contents
  import Coverage
  import opened Delivery
  import opened DeliveryRuns
  import opened Handlers
  import opened OutboxStore
  import Scopes
  import opened SyncMachine
  import opened Timing

  /** The worker at the loop head works for the user it is allowed to work for, and nothing makes it wait. */
  predicate Cleared(w: World, user: string)
  {
    && w.worker == AtTop(w.control.epoch) && !w.control.cancel && w.session == Some(user) == w.control.active
    && DeviceKey(w.config) != "" && (w.control.retry.Some? ==> w.control.retry.value.until <= w.now)
  }

  /** Registered with the configuration of now. */
  predicate RegisteredNow(w: World, user: string)
  {
    var account := AccountFor(w.config, user);
    && account in w.store.states && w.store.states[account].deviceFingerprint == Some(w.config.fingerprint)
    && w.store.states[account].deviceRegisteredRevision.Some?
  }

  /** The account waits for an upload: queued batches, a pending scope, or a baseline that is not complete. */
  predicate HasUploads(s: StoreState, account: Account)
  {
    || (exists i :: 0 <= i < |s.batches| && s.batches[i].account == account && s.batches[i].status == Pending)
    || (account in s.states && (s.states[account].pendingScope.Some? || s.states[account].baselineStatus != Complete))
  }

  lemma UploadsAreWork(s: StoreState, account: Account)
    ensures WorkFor(s, account, true, true) <==> HasUploads(s, account)
  {
    PendingOfMembers(s.batches, account);
    var queue := PendingOf(s.batches, account);
    if queue != [] {
      assert queue[0] in queue;
      var i :| 0 <= i < |s.batches| && s.batches[i] == queue[0];
      assert IsPendingOf(s.batches[i], account);
    } else {
      forall i | 0 <= i < |s.batches| ensures !IsPendingOf(s.batches[i], account) {
        assert s.batches[i] in s.batches;
      }
    }
  }

  /** The worker ends and nothing else happens; what is to blame aside. */
  predicate JustEnds(w: World, v: World)
  {
    v == w.(worker := NoWorker, control := w.control.(running := false, blame := v.control.blame))
  }

  lemma UnclearedWorkersLeave(w: World, io: Io)
    requires ControlOk(w) && w.worker.AtTop? && !(w.session.Some? && Cleared(w, w.session.value))
    ensures OnlyControl(w, Next(w, Advance(io))) && !OnTheWay(Next(w, Advance(io)).worker)
    ensures w.worker.epoch == w.control.epoch ==> JustEnds(w, Next(w, Advance(io)))
  {
    hide StepFromTop;
    ExitEpoch(w, w.worker.epoch, ExitStopped, io);
    ExitEpoch(w, w.worker.epoch, ExitBackoff, io);
  }

  lemma SteppingAccount(w: World, io: Io)
    requires w.worker.AtTop? && w.session.Some? && Cleared(w, w.session.value)
    ensures var v := Next(w, Advance(io)).worker;
            OnTheWay(v) ==> v.account == AccountFor(w.config, w.session.value)
  {
    hide Settle, Materialize;
    var epoch, account := w.worker.epoch, AccountFor(w.config, w.session.value);
    match NextMove(w.store, account, io)
    case Finish(result) => SettleEpoch(w, epoch, result, io);
    case EnsureAccount =>
      SettleEpoch(if io.ensured then w.(store := Ensured(w.store, account)) else w, epoch, Continue, io);
    case SendFirst(_) =>
    case CutGeneration(scope, baseline) => MaterializeEpoch(w, epoch, account, scope, baseline, w.now, io);
  }

  /**
   * A worker at the loop head touches neither store nor network unless all its checks pass; one of the current
   * epoch that fails them just ends.
   */
  lemma OnlyClearedWorkersStep(ws: seq<World>, es: seq<Event>, i: nat)
    requires RunFromStart(ws, es) && i < |es| && es[i].Advance? && ws[i].worker.AtTop?
    ensures var w, v := ws[i], ws[i + 1];
            if w.session.Some? && Cleared(w, w.session.value)
            then OnTheWay(v.worker) ==> v.worker.account == AccountFor(w.config, w.session.value)
            else
              && v.store == w.store && v.history == w.history && v.sent == w.sent && !OnTheWay(v.worker)
              && (w.worker.epoch == w.control.epoch ==> JustEnds(w, v))
  {
    hide Next, Enabled;
    RunsKeepControl(ws, es, i);
    assert Takes(ws, es, i);
    if ws[i].session.Some? && Cleared(ws[i], ws[i].session.value) {
      SteppingAccount(ws[i], es[i].io);
    } else {
      UnclearedWorkersLeave(ws[i], es[i].io);
    }
  }

  /**
   * What a cleared worker does. If the queue cannot be read it ends. The head of the queue goes out, after a
   * registration if the account is known to be registered otherwise than now. With nothing queued, it ends if the
   * account cannot be read; an unknown account is entered; a pending scope, or everything for a baseline that is not
   * complete, becomes a generation; and only when none of this is due the worker ends with nothing to blame.
   */
  lemma StepTakesWhatIsDue(ws: seq<World>, es: seq<Event>, i: nat, user: string)
    requires RunFromStart(ws, es) && i < |es| && es[i].Advance? && Cleared(ws[i], user)
    ensures var w, v, io := ws[i], ws[i + 1], es[i].io;
            var account, queue, epoch := AccountFor(w.config, user), Queue(w, user), w.control.epoch;
            if !io.listed || (queue == [] && !io.loaded) then JustEnds(w, v) && v.control.blame == StoreFailed
            else if queue != [] then
              v == w.(worker := if io.loaded && account in w.store.states && !RegisteredNow(w, user)
                                then Registering(epoch, account, w.now, ForBatch(queue[0]))
                                else ReadyToPush(epoch, account, queue[0], w.now))
            else if account !in w.store.states then
              && v == w.(store := v.store) && OnlyAccount(w.store, v.store, account)
              && (account in v.store.states <==> io.ensured)
              && (account in v.store.states ==>
                    Untouched(v.store.states[account]) && v.store.states[account].pendingScope.None?)
            else if !HasUploads(w.store, account) then JustEnds(w, v) && (io.workCounted && io.workLoaded ==>
                                                         v.control.blame == NoFailure)
            else
              RegisteredNow(w, user)
              || v == w.(worker := Registering(epoch, account, w.now, ForGeneration(Coverage.ScopeToExport(w, user),
                                   w.store.states[account].baselineStatus)))
  {
    hide Materialize;
    RunsKeepControl(ws, es, i);
    assert Takes(ws, es, i);
    UploadsAreWork(ws[i].store, AccountFor(ws[i].config, user));
  }

  /** A stored generation brings a current worker back to the loop head; one that cannot be stored ends the worker. */
  lemma GenerationGoesOn(w: World, e: Event)
    requires Enabled(w, e) && Baseline.CutBy(w, e).Some? && w.worker.epoch == w.control.epoch && !w.control.cancel
    ensures var v := Next(w, e);
            if Contents.PlanBy(w, e).Some? then v.worker == AtTop(w.control.epoch) && v.control == w.control
            else
              && v.worker == NoWorker && v.store == Baseline.CutBy(w, e).value.store && v.history == w.history
              && v.control == w.control.(running := false, blame := StoreFailed)
  {
    hide PlanGeneration, AfterPlan;
  }

  // ---- what replies leave behind ----------------------------------------------------------

  /** The account as an accepted push leaves it, when `left` batches were queued before. */
  predicate Settles(before: SyncState, after: SyncState, now: int, left: nat)
  {
    && after.lastAcceptedAt == after.lastAttemptAt == Some(now)
    && after.lastErrorCode.None? && after.lastErrorRetryable.None?
    && after.baselineStatus
         == (if before.baselineStatus == InProgress && left == 1 then Complete else before.baselineStatus)
    && after == before.(lastAcceptedAt := after.lastAcceptedAt, lastAttemptAt := after.lastAttemptAt,
                        lastErrorCode := None, lastErrorRetryable := None, account := after.account,
                        baselineStatus := after.baselineStatus)
  }

  /** Every call that follows an accepted push is answered. */
  predicate Answers(io: Io) { io.accepted && io.counted && io.loaded && io.completed && io.recorded }

  lemma AcceptedStore(w: World, io: Io)
    requires DeliveryInv(w) && w.worker.Pushing? && Applied(w, PushOf(w.worker.batch)) && Answers(io)
    ensures var Pushing(epoch, account, _, _) := w.worker; var user := account.userId;
            var t := AfterAccepted(w, epoch, account, w.worker.batch, io).store;
            && Queue(w, user) != [] && PendingOf(t.batches, account) == Queue(w, user)[1..]
            && (forall a :: a != account ==> StateOf(t, a) == StateOf(w.store, a)
                                             && PendingOf(t.batches, a) == PendingOf(w.store.batches, a))
            && account in w.store.states && account in t.states
            && Settles(w.store.states[account], t.states[account], w.now, |Queue(w, user)|)
  {
    hide Settle, PendingOf;
    var Pushing(epoch, account, batch, _) := w.worker;
    var user := account.userId;
    assert account == AccountFor(w.config, user) && QueueOk(w, user) && Queue(w, user)[0] == batch;
    forall a
      ensures var r := AcceptedBatch(w.store, account, batch.id, w.now);
              && r.Success? && PendingOf(r.value.batches, account) == Queue(w, user)[1..]
              && (a != account ==> PendingOf(r.value.batches, a) == PendingOf(w.store.batches, a))
    {
      AcceptRemovesHead(w.store, account, w.now, a);
    }
  }

  /**
   * An accepted push, with the store answering: the batch leaves the queue of its account, the account shows the
   * time and no error, a baseline in progress is complete if and only if the queue is then empty, nothing else
   * changes, and a worker of the current epoch goes on.
   */
  lemma AcceptedPushIsSettled(ws: seq<World>, es: seq<Event>, i: nat)
    requires RunFromStart(ws, es) && i < |es| && es[i].PushReplied? && es[i].push.PushAccepted? && Answers(es[i].io)
    ensures ws[i].worker.Pushing?
    ensures var w, v, account := ws[i], ws[i + 1], ws[i].worker.account; var queue := Queue(w, account.userId);
            && queue != [] && Queue(v, account.userId) == queue[1..]
            && (forall a :: a != account ==> StateOf(v.store, a) == StateOf(w.store, a)
                                             && PendingOf(v.store.batches, a) == PendingOf(w.store.batches, a))
            && account in w.store.states && account in v.store.states
            && Settles(w.store.states[account], v.store.states[account], w.now, |queue|)
            && (w.worker.epoch == w.control.epoch && !w.control.cancel ==>
                 v.worker == AtTop(w.control.epoch) && v.control == w.control)
  {
    hide Settle, DurableOk, PendingOf, Settles, AcceptedBatch;
    RunsKeepDelivery(ws, es, i);
    assert Takes(ws, es, i);
    var w := ws[i];
    HeldBatchIsOwn(w, w.worker.account, w.worker.batch);
    AcceptedStore(w, es[i].io);
    if w.worker.epoch == w.control.epoch && !w.control.cancel {
      AcceptedWorker(w, es[i].io);
    }
  }

  lemma AcceptedWorker(w: World, io: Io)
    requires w.worker.Pushing? && w.worker.epoch == w.control.epoch && !w.control.cancel && Answers(io)
    requires AcceptedBatch(w.store, w.worker.account, w.worker.batch.id, w.now).Success?
    ensures var v := AfterAccepted(w, w.worker.epoch, w.worker.account, w.worker.batch, io);
            v.worker == AtTop(w.control.epoch) && v.control == w.control
  {
  }

  /** An accepted push that cannot be marked leaves the store as it is and ends the worker. */
  lemma UnmarkedPushEndsWorker(ws: seq<World>, es: seq<Event>, i: nat)
    requires RunFromStart(ws, es) && i < |es| && es[i].PushReplied? && es[i].push.PushAccepted? && !es[i].io.accepted
    requires ws[i].worker.Pushing? && ws[i].worker.epoch == ws[i].control.epoch && !ws[i].control.cancel
    ensures JustEnds(ws[i], ws[i + 1]) && ws[i + 1].control.blame == StoreFailed
  {
    assert Takes(ws, es, i);
  }

  /**
   * An export that returned nothing, with the store answering, leaves its account with no pending scope, the
   * baseline complete, the time of the step and no error; nothing else changes.
   */
  lemma EmptyExportIsClean(ws: seq<World>, es: seq<Event>, i: nat)
    requires RunFromStart(ws, es) && i < |es| && Contents.PlanBy(ws[i], es[i]).Some?
    requires Contents.PlanBy(ws[i], es[i]).value.input.prepared == [] && es[i].io.completed && es[i].io.recorded
    ensures var cut := Baseline.CutBy(ws[i], es[i]).value; var s, t, account := cut.store, ws[i + 1].store, cut.account;
            && t.batches == s.batches && t.nextId == s.nextId && account in s.states && account in t.states
            && (forall a :: a != account ==> StateOf(t, a) == StateOf(s, a))
            && t.states[account] == s.states[account].(pendingScope := None, baselineStatus := Complete,
                   lastAttemptAt := Some(cut.at), lastErrorCode := None, lastErrorRetryable := None,
                   account := t.states[account].account)
  {
    hide Settle, Baseline.CutBy, PlanGeneration, Next, Enabled, DurableOk;
    var w, e := ws[i], es[i];
    var cut, plan := Baseline.CutBy(w, e).value, Contents.PlanBy(w, e).value;
    assert Takes(ws, es, i);
    Baseline.RunsKeepBaseline(ws, es, i, false);
    Baseline.CutLeaves(w, e);
    CutsStoredStatus(w, e);
    EmptyPlanLeaves(w.(store := cut.store), cut.account, cut.scope, cut.baseline, cut.at, cut.io);
  }

  lemma CutsStoredStatus(w: World, e: Event)
    requires Baseline.CaptureOk(w) && Enabled(w, e) && Baseline.CutBy(w, e).Some?
    ensures var cut := Baseline.CutBy(w, e).value;
            && cut.account in cut.store.states && cut.baseline == cut.store.states[cut.account].baselineStatus
            && cut.io == e.io
  {
  }

  lemma EmptyPlanLeaves(w: World, account: Account, scope: Scopes.UploadScope, baseline: BaselineStatus, at: int,
                        io: Io)
    requires PlanGeneration(w.config, w.store, account, scope, at, io).Some? && io.completed && io.recorded
    requires PlanGeneration(w.config, w.store, account, scope, at, io).value.input.prepared == []
    requires account in w.store.states && baseline == w.store.states[account].baselineStatus
    ensures var plan := PlanGeneration(w.config, w.store, account, scope, at, io).value;
            var s, t := w.store, AfterPlan(w, plan, baseline, at, io).store;
            && t.batches == s.batches && t.nextId == s.nextId && account in t.states
            && (forall a :: a != account ==> StateOf(t, a) == StateOf(s, a))
            && t.states[account] == s.states[account].(pendingScope := None, baselineStatus := Complete,
                   lastAttemptAt := Some(at), lastErrorCode := None, lastErrorRetryable := None,
                   account := t.states[account].account)
  {
    hide Scopes.ExportQuery;
    assert w.store.batches + [] == w.store.batches;
  }

  /** The device is registered for the account under a fingerprint and revision, and nothing else differs. */
  predicate Registration(s: StoreState, t: StoreState, account: Account, fingerprint: string, revision: int)
  {
    && t.batches == s.batches && t.nextId == s.nextId && t.states.Keys == s.states.Keys + {account}
    && (forall a :: a in s.states && a != account ==> t.states[a] == s.states[a])
    && t.states[account] == EnsuredState(s, account).(deviceFingerprint := Some(fingerprint),
                                                      deviceRegisteredRevision := Some(revision))
  }

  lemma DeviceVoided(w: World, io: Io)
    requires DeliveryInv(w) && w.worker.Pushing? && w.worker.epoch == w.control.epoch && io.loaded && io.registered
    ensures var v, worker := Next(w, PushReplied(PushFailed(DeviceNotFound), io)), w.worker;
            && v == w.(worker := Registering(worker.epoch, worker.account, worker.at, Recovery), store := v.store)
            && Registration(w.store, v.store, worker.account, "invalidate", 0)
  {
    hide RemoteFailure, Settle;
    var user := w.worker.account.userId;
    assert w.worker.account == AccountFor(w.config, user) && QueueOk(w, user);
  }

  lemma DeviceFound(w: World, io: Io)
    requires w.worker.Registering? && w.worker.cause == Recovery && io.registered
    requires w.worker.epoch == w.control.epoch && !w.control.cancel
    ensures var v := Next(w, DeviceReplied(Registered, io));
            && v == w.(worker := AtTop(w.control.epoch), store := v.store)
            && Registration(w.store, v.store, w.worker.account, w.config.fingerprint, 1)
  {
    hide RemoteFailure, Materialize;
  }

  lemma HeadGoesNext(w: World, user: string, io: Io)
    requires Cleared(w, user) && RegisteredNow(w, user) && Queue(w, user) != [] && io.listed && io.loaded
    ensures Next(w, Advance(io))
            == w.(worker := ReadyToPush(w.control.epoch, AccountFor(w.config, user), Queue(w, user)[0], w.now))
  {
    hide Materialize, Settle;
  }

  /**
   * A push answered by a missing device loses nothing: the registration is declared void, the device registered
   * again, and the very same batch is pushed next, with nothing accepted or reordered in between.
   */
  lemma MissingDeviceRecovers(w: World, lost: Io, found: Io, next: Io)
    requires DeliveryInv(w) && w.worker.Pushing?
    requires Cleared(w.(worker := AtTop(w.worker.epoch)), w.worker.account.userId)
    requires lost.loaded && lost.registered && found.registered && next.listed && next.loaded
    ensures var Pushing(epoch, account, batch, at) := w.worker;
            var without := Next(w, PushReplied(PushFailed(DeviceNotFound), lost));
            var again := Next(without, DeviceReplied(Registered, found));
            && without == w.(worker := Registering(epoch, account, at, Recovery), store := without.store)
            && Registration(w.store, without.store, account, "invalidate", 0)
            && again == w.(worker := AtTop(epoch), store := again.store)
            && Registration(without.store, again.store, account, w.config.fingerprint, 1)
            && Next(again, Advance(next)) == again.(worker := ReadyToPush(epoch, account, batch, w.now))
  {
    hide Next, DurableOk;
    var user := w.worker.account.userId;
    assert w.worker.account == AccountFor(w.config, user);
    DeviceVoided(w, lost);
    var without := Next(w, PushReplied(PushFailed(DeviceNotFound), lost));
    DeviceFound(without, found);
    var again := Next(without, DeviceReplied(Registered, found));
    HeadGoesNext(again, user, next);
  }

  // ---- stale workers hand over ------------------------------------------------------------

  /** Every read of the exit handling is answered and a worker can be started. */
  predicate Restarts(io: Io) { Spawns(io) && io.workCounted && io.workLoaded }

  /** Nothing keeps a worker of the current epoch from starting. */
  predicate Free(w: World)
  {
    && !w.control.cancel && w.control.blocked != Some(w.control.epoch)
    && (w.control.retry.Some? ==> w.control.retry.value.until <= w.now)
  }

  /**
   * A worker of an older epoch ends in `v`; one of the current epoch takes over if it may and has something to upload.
   */
  predicate HandsOver(w: World, v: World)
  {
    && v.control == w.control.(running := v.worker != NoWorker, blame := v.control.blame)
    && v.worker == (if Free(w) && AccountKey(w).Some? && HasUploads(v.store, AccountKey(w).value)
                    then AtTop(w.control.epoch) else NoWorker)
  }

  lemma StaleSettleHandsOver(w: World, own: nat, result: StepResult, io: Io)
    requires own != w.control.epoch && Restarts(io)
    requires w.control.retry.Some? ==> w.control.retry.value.epoch == w.control.epoch
    ensures HandsOver(w, Settle(w, own, result, io))
  {
    hide HasUploads, WorkFor;
    if AccountKey(w).Some? {
      UploadsAreWork(w.store, AccountKey(w).value);
    }
  }

  /**
   * The transitions that end a worker of an older epoch: the loop head, and every reply that does not lead to a push.
   */
  predicate EndsStale(w: World, e: Event)
  {
    && w.worker != NoWorker && w.worker.epoch != w.control.epoch
    && match e
       case Advance(_) => w.worker.AtTop?
       case DeviceReplied(reply, _) =>
         w.worker.Registering? && (reply.RegisterFailed? || !w.worker.cause.ForBatch?)
       case PushReplied(_, _) => w.worker.Pushing?
       case _ => false
  }

  lemma StaleFailureSettles(w: World, error: RemoteError, io: Io) returns (x: World, result: StepResult)
    requires OnTheWay(w.worker)
    ensures x == w.(store := x.store)
    ensures RemoteFailure(w, w.worker.epoch, w.worker.account, w.worker.at, error, io)
            == Settle(x, w.worker.epoch, result, io)
  {
    hide Settle;
    var c := ClassifyRemoteError(error);
    x := w;
    if io.recorded {
      x := w.(store := Recorded(w.store, w.worker.account, w.worker.at, Some(c.code), Some(c.retryable)));
    }
    result := if c.retryable then Backoff(SaturatingAdd(w.worker.at, c.backoff)) else Terminal;
  }

  lemma StaleDeviceReplySettles(w: World, reply: DeviceReply, io: Io) returns (x: World, result: StepResult)
    requires EndsStale(w, DeviceReplied(reply, io)) && w.worker.Registering?
    ensures x == w.(store := x.store, history := x.history)
    ensures Next(w, DeviceReplied(reply, io)) == Settle(x, w.worker.epoch, result, io)
  {
    hide Settle, RemoteFailure, PlanGeneration;
    var Registering(epoch, account, at, cause) := w.worker;
    if reply.RegisterFailed? {
      x, result := StaleFailureSettles(w, reply.error, io);
    } else {
      var stored := w.(store := DeviceRegistered(w.store, account, w.config.fingerprint, 1));
      x, result := if io.registered then stored else w, Continue;
      if cause.ForGeneration? {
        var plan := PlanGeneration(x.config, x.store, account, cause.scope, at, io);
        if plan.None? { result := StoreFailure; } else { x := AfterPlan(x, plan.value, cause.baseline, at, io); }
      }
    }
  }

  lemma StalePushReplySettles(w: World, reply: PushReply, io: Io) returns (x: World, result: StepResult)
    requires EndsStale(w, PushReplied(reply, io)) && w.worker.Pushing?
    ensures x == w.(store := x.store, history := x.history)
    ensures Next(w, PushReplied(reply, io)) == Settle(x, w.worker.epoch, result, io)
  {
    hide Settle, RemoteFailure;
    var Pushing(epoch, account, batch, at) := w.worker;
    match reply
    case PushAccepted =>
      var taken := AcceptedBatch(w.store, account, batch.id, w.now);
      x := w.(store := AfterAccepted(w, epoch, account, batch, io).store);
      result := if io.accepted && taken.Success? && io.counted then Continue else StoreFailure;
    case PushFailed(DeviceNotFound) =>
      if !io.loaded || account !in w.store.states {
        x, result := w, Continue;
      } else {
        var stored := w.(store := DeviceRegistered(w.store, account, "invalidate", 0));
        x, result := StaleFailureSettles(if io.registered then stored else w, Internal, io);
      }
    case PushFailed(error) => x, result := StaleFailureSettles(w, error, io);
  }

  /**
   * A worker left over from an older epoch does not keep the service from running: as soon as it ends, at the loop
   * head or on a reply, it looks for uploads of whoever holds the session, as the store then is, and a worker of
   * the current epoch takes over if and only if there are some and the service is not cancelled, blocked or waiting.
   */
  lemma StaleWorkersHandOver(ws: seq<World>, es: seq<Event>, i: nat)
    requires RunFromStart(ws, es) && i < |es| && EndsStale(ws[i], es[i]) && Restarts(es[i].io)
    ensures HandsOver(ws[i], ws[i + 1])
  {
    hide Settle, AfterDeviceReply, AfterPushReply, StepFromTop, HasUploads;
    RunsKeepControl(ws, es, i);
    assert Takes(ws, es, i);
    var w, x, result := ws[i], ws[i], Stop;
    match es[i] {
      case DeviceReplied(reply, io) => x, result := StaleDeviceReplySettles(w, reply, io);
      case PushReplied(reply, io) => x, result := StalePushReplySettles(w, reply, io);
      case Advance(io) => StaleTopSettles(w, io);
    }
    StaleSettleHandsOver(x, w.worker.epoch, result, es[i].io);
  }

  lemma StaleTopSettles(w: World, io: Io)
    requires w.worker.AtTop? && w.worker.epoch != w.control.epoch
    ensures Next(w, Advance(io)) == Settle(w, w.worker.epoch, Stop, io)
  {
  }
}
