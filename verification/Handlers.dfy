/** What sign-ins, sign-outs, commits, retries and the exit handling do to the service, from every reachable state. */
module Handlers {
  import opened Basics
  import CommittedUploads
  import Coverage
  import DeliveryRuns
  import opened Idleness
  import opened OutboxStore
  import opened Scopes
  import opened SyncMachine
  import opened Timing

  /** A thread can be spawned, and a kick goes through in one piece. */
  predicate Spawns(io: Io) { io.spawned && !io.deferKick }

  /** `v` follows `w` by an attempt to start a worker that passes its checks if and only if `allowed`. */
  predicate Attempted(w: World, v: World, allowed: bool, io: Io)
  {
    && v.worker == (if allowed && Spawns(io) && w.worker.NoWorker? then AtTop(v.control.epoch) else w.worker)
    && v.control.running == (v.worker != NoWorker)
    && v.control.latent == w.control.latent + (if allowed && io.deferKick then 1 else 0)
    && SameBackground(w.(session := v.session), v) && v.history == w.history
  }

  /** No queue and no account but one is touched. */
  ghost predicate OnlyAccount(s: StoreState, t: StoreState, account: Account)
  {
    && t.batches == s.batches && t.nextId == s.nextId
    && (forall a :: a != account ==> StateOf(t, a) == StateOf(s, a))
    && (account in s.states ==> account in t.states)
  }

  lemma KickAttempts(w: World, io: Io)
    requires w.control.running <==> w.worker != NoWorker
    ensures var v := Kick(w, io);
            && Attempted(w, v, MayStart(w), io) && v.store == w.store && v.session == w.session
            && v.control == w.control.(running := v.control.running, latent := v.control.latent,
                 blame := v.control.blame)
  {
  }

  // ---- sign-in and sign-out ---------------------------------------------------------------

  /**
   * Whatever a sign-out, a terminal error or a backoff left behind, a sign-in makes the service run: nothing is
   * cancelled, blocked or delayed, and a worker exists, of the new epoch unless an older one has yet to stop.
   */
  lemma SignInRevives(ws: seq<World>, es: seq<Event>, i: nat)
    requires RunFromStart(ws, es) && i < |es| && IsSignIn(es[i])
    ensures var w, v, io := ws[i], ws[i + 1], es[i].io;
            && v.control.active == Some(es[i].userId) && v.control.epoch == w.control.epoch + 1
            && !v.control.cancel && v.control.blocked.None? && v.control.retry.None?
            && v.session == (if es[i].SignIn? then Some(es[i].userId) else w.session)
            && Attempted(w, v, true, io) && (Spawns(io) ==> v.worker != NoWorker)
  {
    hide FromTop, AfterDeviceReply, AfterPushReply, CommitHandler, MergeForAllHandler, Kick, SignInStore;
    RunsKeepControl(ws, es, i);
    assert Takes(ws, es, i);
    var w, user := if es[i].SignIn? then ws[i].(session := Some(es[i].userId)) else ws[i], es[i].userId;
    var entered := w.(control := w.control.(active := Some(user), cancel := false, blocked := None,
                                            epoch := w.control.epoch + 1, retry := None));
    var store := if AccountKey(w).None? then w.store else SignInStore(w.store, AccountKey(w).value, es[i].io);
    KickAttempts(entered.(store := store), es[i].io);
  }

  /** Nothing uploaded, nothing pending, no attempt, no device: revisions begin at 1. */
  predicate Untouched(state: SyncState)
  {
    && state.nextClientRevision == 1 && state.baselineStatus == NotStarted && state.activeGenerationId.None?
    && state.lastAttemptAt.None? && state.lastAcceptedAt.None? && state.lastErrorCode.None?
    && state.lastErrorRetryable.None? && state.deviceFingerprint.None? && state.deviceRegisteredRevision.None?
  }

  /** The account exists if the store lets it, and asks for everything as long as its baseline is not complete. */
  ghost predicate AsksForEverything(s: StoreState, t: StoreState, account: Account, io: Io)
  {
    && OnlyAccount(s, t, account) && (account in t.states <==> account in s.states || io.ensured)
    && (account in t.states ==>
          var state := t.states[account];
          && (account in s.states ==>
                state == s.states[account].(pendingScope := state.pendingScope, account := state.account))
          && (account !in s.states ==> Untouched(state) && state.account == account)
          && state.pendingScope == if state.baselineStatus != Complete && io.loaded && io.merged then Some(Full)
                                   else Coverage.PendingScopeOf(s, account))
  }

  lemma SignInWrites(s: StoreState, account: Account, io: Io)
    ensures AsksForEverything(s, SignInStore(s, account, io), account, io)
  {
  }

  /** A sign-in leaves the account of the session asking for everything, and nothing else in the store changes. */
  lemma SignInAsksForEverything(ws: seq<World>, es: seq<Event>, i: nat)
    requires RunFromStart(ws, es) && i < |es| && IsSignIn(es[i])
    ensures match AccountKey(ws[i + 1])
            case None => ws[i + 1].store == ws[i].store
            case Some(account) => AsksForEverything(ws[i].store, ws[i + 1].store, account, es[i].io)
  {
    hide FromTop, AfterDeviceReply, AfterPushReply, CommitHandler, MergeForAllHandler, Kick, SignInStore,
         AsksForEverything;
    assert Takes(ws, es, i);
    if AccountKey(ws[i + 1]).Some? {
      SignInWrites(ws[i].store, AccountKey(ws[i + 1]).value, es[i].io);
    }
  }

  /** A sign-out cancels the worker, forgets the user and the deadline, and opens a new epoch. */
  lemma SignOutCancels(ws: seq<World>, es: seq<Event>, i: nat)
    requires RunFromStart(ws, es) && i < |es| && (es[i].SignedOut? || es[i].SignOut?)
    ensures var w, v := ws[i], ws[i + 1];
            && v.control.cancel && v.control.active.None? && v.control.retry.None?
            && v.control.epoch == w.control.epoch + 1 && v.control.blocked == w.control.blocked
            && v.worker == w.worker && v.store == w.store && v.history == w.history && v.sent == w.sent
            && v.session == (if es[i].SignOut? then None else w.session)
  {
    assert Takes(ws, es, i);
  }

  /** The pushes started between two points of a run, by workers of any epoch. */
  function PushesStarted(ws: seq<World>, es: seq<Event>, i: nat, j: nat): nat
    requires i <= j <= |es| && |ws| == |es| + 1
  {
    if i == j then 0 else PushesStarted(ws, es, i, j - 1) + (if Sends(ws[j - 1], es[j - 1]) then 1 else 0)
  }

  /** The push of a worker that is past its checks. */
  function PushUnderWay(w: World): nat
  {
    if w.worker.ReadyToPush? || (w.worker.Registering? && w.worker.cause.ForBatch?) then 1 else 0
  }

  lemma WithoutUserStep(w: World, e: Event)
    requires Enabled(w, e) && w.control.active.None? && !IsSignIn(e)
    ensures Next(w, e).control.active.None?
    ensures PushUnderWay(Next(w, e)) + (if Sends(w, e) then 1 else 0) <= PushUnderWay(w)
  {
    hide StepFromTop, Settle, RemoteFailure, Materialize, AfterAccepted, CommittedUploads.UploadScopeOf;
    match e
    case DeviceReplied(reply, io) =>
      var Registering(epoch, account, at, cause) := w.worker;
      var known :=
        if io.registered then w.(store := DeviceRegistered(w.store, account, w.config.fingerprint, 1)) else w;
      if reply.RegisterFailed? { FailureIdles(w, epoch, account, at, reply.error, io); }
      if cause.ForGeneration? { GenerationIdles(known, epoch, account, cause.scope, cause.baseline, at, io); }
      SettleIdles(known, epoch, Continue, io);
    case PushReplied(reply, io) =>
      var Pushing(epoch, account, batch, at) := w.worker;
      var invalidated := if io.registered then w.(store := DeviceRegistered(w.store, account, "invalidate", 0)) else w;
      SettleIdles(w, epoch, Continue, io);
      AcceptedIdles(w, epoch, account, batch, io);
      FailureIdles(invalidated, epoch, account, at, Internal, io);
      if reply.PushFailed? { FailureIdles(w, epoch, account, at, reply.error, io); }
    case _ =>
  }

  lemma SettleIdles(w: World, epoch: nat, result: StepResult, io: Io)
    ensures var v := Settle(w, epoch, result, io); PushUnderWay(v) == 0 && v.control.active == w.control.active
  {
  }

  lemma FailureIdles(w: World, epoch: nat, account: Account, at: int, error: RemoteError, io: Io)
    ensures var v := RemoteFailure(w, epoch, account, at, error, io);
            PushUnderWay(v) == 0 && v.control.active == w.control.active
  {
    hide Settle;
    var c := ClassifyRemoteError(error);
    var noted := w.(store := Recorded(w.store, account, at, Some(c.code), Some(c.retryable)));
    var result := if c.retryable then Backoff(SaturatingAdd(at, c.backoff)) else Terminal;
    SettleIdles(if io.recorded then noted else w, epoch, result, io);
  }

  lemma GenerationIdles(w: World, epoch: nat, account: Account, scope: UploadScope, baseline: BaselineStatus, at: int,
                        io: Io)
    ensures var v := Materialize(w, epoch, account, scope, baseline, at, io);
            PushUnderWay(v) == 0 && v.control.active == w.control.active
  {
    hide Settle, PlanGeneration;
    SettleIdles(w, epoch, StoreFailure, io);
    var plan := PlanGeneration(w.config, w.store, account, scope, at, io);
    if plan.Some? { SettleIdles(AfterPlan(w, plan.value, baseline, at, io), epoch, Continue, io); }
  }

  lemma AcceptedIdles(w: World, epoch: nat, account: Account, batch: OutboxBatch, io: Io)
    ensures var v := AfterAccepted(w, epoch, account, batch, io);
            PushUnderWay(v) == 0 && v.control.active == w.control.active
  {
    hide Settle;
    var v := AfterAccepted(w, epoch, account, batch, io);
    SettleIdles(w, epoch, StoreFailure, io);
    SettleIdles(w.(store := v.store), epoch, StoreFailure, io);
    SettleIdles(w.(store := v.store), epoch, Continue, io);
  }

  /**
   * After a sign-out, and before the first sign-in, only the push already past its checks can still start, however
   * long the process runs, through commits, repairs, retries, kicks caught between their halves and restarts.
   */
  lemma {:induction false} WithoutUserAtMostOnePush(ws: seq<World>, es: seq<Event>, i: nat, j: nat)
    requires Run(ws, es) && i <= j <= |es| && ws[i].control.active.None?
    requires forall k :: i <= k < j ==> !IsSignIn(es[k])
    ensures ws[j].control.active.None?
    ensures PushesStarted(ws, es, i, j) + PushUnderWay(ws[j]) <= PushUnderWay(ws[i]) <= 1
  {
    if i < j {
      hide Next, Enabled, Sends, PushUnderWay;
      WithoutUserAtMostOnePush(ws, es, i, j - 1);
      assert Takes(ws, es, j - 1);
      WithoutUserStep(ws[j - 1], es[j - 1]);
    }
  }

  // ---- commits and retries ----------------------------------------------------------------

  /**
   * A retry, the one after a repair included, lifts a terminal block and a deadline, and starts a worker unless
   * the service is signed out. Only the repair changes the store.
   */
  lemma RetryStartsWorker(ws: seq<World>, es: seq<Event>, i: nat)
    requires RunFromStart(ws, es) && i < |es| && Retries(ws[i], es[i])
    ensures var w, v := ws[i], ws[i + 1];
            && v.control.blocked.None? && v.control.retry.None? && v.control.cancel == w.control.cancel
            && v.control.epoch == w.control.epoch && v.control.active == w.control.active && v.session == w.session
            && Attempted(w, v, !w.control.cancel, es[i].io) && (es[i].RetryNow? ==> v.store == w.store)
  {
    hide FromTop, AfterDeviceReply, AfterPushReply, SignedInHandler, CommitHandler, Kick;
    RunsKeepControl(ws, es, i);
    assert Takes(ws, es, i);
    var w := ws[i];
    var store := if es[i].RetryNow? then w.store else MergedForAll(w.store, es[i].scope);
    KickAttempts(w.(store := store, control := w.control.(blocked := None, retry := None)), es[i].io);
  }

  /** When its time has come, the retry timer clears the deadline and starts a worker in an epoch not blocked. */
  lemma TimerStartsWorker(ws: seq<World>, es: seq<Event>, i: nat)
    requires RunFromStart(ws, es) && i < |es| && es[i].RetryDue?
    ensures var w, v := ws[i], ws[i + 1];
            && v.control.retry.None? && v.control.blocked == w.control.blocked && v.store == w.store
            && !v.control.cancel && v.control.epoch == w.control.epoch && v.control.active == w.control.active
            && v.session == w.session && Attempted(w, v, w.control.blocked != Some(w.control.epoch), es[i].io)
  {
    hide FromTop, AfterDeviceReply, AfterPushReply, SignedInHandler, CommitHandler, MergeForAllHandler, Kick;
    RunsKeepControl(ws, es, i);
    assert Takes(ws, es, i);
    KickAttempts(ws[i].(control := ws[i].control.(retry := None)), es[i].io);
  }

  /**
   * A committed upload with something in it starts a worker unless the service is signed out, blocked or waiting,
   * and lifts none of these.
   */
  lemma CommitStartsWorker(ws: seq<World>, es: seq<Event>, i: nat)
    requires RunFromStart(ws, es) && i < |es| && es[i].Commit?
    requires CommittedUploads.UploadScopeOf(es[i].upload).Some? && AccountKey(ws[i]).Some?
    ensures var w, v := ws[i], ws[i + 1];
            var free := && !w.control.cancel && w.control.blocked != Some(w.control.epoch)
                        && (w.control.retry.Some? ==> w.control.retry.value.until <= w.now);
            && v.control == w.control.(running := v.control.running, latent := v.control.latent,
                 blame := v.control.blame)
            && v.session == w.session && Attempted(w, v, free, es[i].io)
  {
    hide FromTop, AfterDeviceReply, AfterPushReply, SignedInHandler, MergeForAllHandler, Kick, MergedPending,
         CommittedUploads.UploadScopeOf;
    RunsKeepControl(ws, es, i);
    assert Takes(ws, es, i);
    var w, scope := ws[i], CommittedUploads.UploadScopeOf(es[i].upload).value;
    KickAttempts(w, es[i].io);
    KickAttempts(w.(store := MergedPending(w.store, AccountKey(w).value, scope)), es[i].io);
  }

  /** The pending scope `after` is the least one that covers both `before` and `more`. */
  ghost predicate LeastCovering(before: Option<UploadScope>, more: UploadScope, after: Option<UploadScope>)
  {
    && after.Some? && Valid(after.value) && Within(more, after.value)
    && (before.Some? ==> Within(before.value, after.value))
    && forall bound :: Within(more, bound) && (before.Some? ==> Within(before.value, bound)) ==>
         Within(after.value, bound)
  }

  lemma MergeIsLeastCovering(before: Option<UploadScope>, more: UploadScope)
    requires Valid(more) && (before.Some? ==> Valid(before.value))
    ensures LeastCovering(before, more, Some(MergeUploadScopes(before, more)))
  {
    forall bound | Within(more, bound) && (before.Some? ==> Within(before.value, bound))
      ensures Within(MergeUploadScopes(before, more), bound)
    {
      if before.Some? { MergeIsLeastUpperBound(before.value, more, bound); }
    }
    if before.Some? { MergeIsLeastUpperBound(before.value, more, Full); }
  }

  /**
   * A merged commit widens the pending scope of its account to cover the upload, by no more, and changes nothing else.
   */
  lemma CommitWidensPendingScope(ws: seq<World>, es: seq<Event>, i: nat)
    requires RunFromStart(ws, es) && i < |es| && es[i].Commit? && es[i].io.merged
    requires CommittedUploads.UploadScopeOf(es[i].upload).Some? && AccountKey(ws[i]).Some?
    ensures var account, s, t := AccountKey(ws[i]).value, ws[i].store, ws[i + 1].store;
            && OnlyAccount(s, t, account) && account in t.states
            && LeastCovering(Coverage.PendingScopeOf(s, account),
                 CommittedUploads.UploadScopeOf(es[i].upload).value, t.states[account].pendingScope)
            && t.states[account].(pendingScope := None) == EnsuredState(s, account).(pendingScope := None)
  {
    hide FromTop, AfterDeviceReply, AfterPushReply, SignedInHandler, MergeForAllHandler, Kick, LeastCovering,
         CommittedUploads.UploadScopeOf, MergeUploadScopes, Coverage.CommitKept;
    Coverage.InitialCoverage(ws[0]);
    Coverage.RunsKeepCoverage(ws, es, 0, i, None);
    assert Takes(ws, es, i);
    CommittedUploads.UploadScopeIsValid(es[i].upload);
    MergeIsLeastCovering(Coverage.PendingScopeOf(ws[i].store, AccountKey(ws[i]).value),
      CommittedUploads.UploadScopeOf(es[i].upload).value);
  }

  /** A repair widens the pending scope of every known account in the same way, and of no other. */
  lemma RepairWidensEveryPendingScope(ws: seq<World>, es: seq<Event>, i: nat)
    requires RunFromStart(ws, es) && i < |es| && es[i].MergeForAll? && es[i].io.merged
    ensures var s, t := ws[i].store, ws[i + 1].store;
            && t.batches == s.batches && t.nextId == s.nextId && t.states.Keys == s.states.Keys
            && forall a :: a in s.states ==>
                 && LeastCovering(s.states[a].pendingScope, es[i].scope, t.states[a].pendingScope)
                 && t.states[a] == s.states[a].(pendingScope := t.states[a].pendingScope)
  {
    hide FromTop, AfterDeviceReply, AfterPushReply, SignedInHandler, CommitHandler, Kick, LeastCovering,
         MergeUploadScopes, Coverage.CommitKept;
    Coverage.InitialCoverage(ws[0]);
    Coverage.RunsKeepCoverage(ws, es, 0, i, None);
    assert Takes(ws, es, i);
    forall a | a in ws[i].store.states
      ensures LeastCovering(ws[i].store.states[a].pendingScope, es[i].scope,
                Some(MergeUploadScopes(ws[i].store.states[a].pendingScope, es[i].scope)))
    {
      MergeIsLeastCovering(ws[i].store.states[a].pendingScope, es[i].scope);
    }
  }

  /**
   * The second half of a kick asks nothing any more: it starts a worker unless one runs, and clears the cancel flag.
   */
  lemma HalfKickStartsWorker(ws: seq<World>, es: seq<Event>, i: nat)
    requires RunFromStart(ws, es) && i < |es| && es[i].KickStart?
    ensures var w, v := ws[i], ws[i + 1];
            && w.control.latent > 0 && v == w.(worker := v.worker, control := v.control)
            && v.worker == (if es[i].io.spawned && w.worker.NoWorker? then AtTop(w.control.epoch) else w.worker)
            && v.control == w.control.(latent := w.control.latent - 1, running := v.worker != NoWorker,
                                       cancel := w.control.cancel && w.worker != NoWorker, blame := v.control.blame)
  {
    RunsKeepControl(ws, es, i);
    assert Takes(ws, es, i);
  }
}
