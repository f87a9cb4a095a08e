/** Terminal blocks and honest idleness. */
module Idleness {
  import opened Basics
  import CommittedUploads
  import Drain
  import opened OutboxStore
  import Scopes
  import opened SyncMachine
  import opened Timing

  // ---- terminal blocks --------------------------------------------------------------------

  predicate Unblocks(w: World, e: Event) { Retries(w, e) || e.SignedIn? || e.SignIn? || e.Crash? }

  /** No worker is left, no kick is under way, and no new one passes its checks. */
  predicate Silent(w: World)
  {
    && w.worker == NoWorker && !w.control.running && w.control.latent == 0
    && (w.control.cancel || w.control.blocked == Some(w.control.epoch))
  }

  lemma SilenceStays(w: World, e: Event)
    requires Silent(w) && Enabled(w, e) && !Unblocks(w, e)
    ensures Silent(Next(w, e))
  {
  }

  lemma {:induction false} SilenceHolds(ws: seq<World>, es: seq<Event>, i: nat, j: nat)
    requires Run(ws, es) && i <= j < |ws| && Silent(ws[i])
    requires forall k :: i <= k < j ==> !Unblocks(ws[k], es[k])
    ensures Silent(ws[j])
  {
    if i < j {
      hide Next, Enabled, Silent;
      SilenceHolds(ws, es, i, j - 1);
      assert Takes(ws, es, j - 1);
      SilenceStays(ws[j - 1], es[j - 1]);
    }
  }

  /**
   * After a terminal exit no push starts, in its epoch or a later one, until a retry, a sign-in or a
   * restart. Kicks may stop between their halves at any time, only not across the terminal exit itself.
   */
  lemma TerminalStaysQuiet(ws: seq<World>, es: seq<Event>, i: nat, j: nat)
    requires RunFromStart(ws, es) && i <= j < |es|
    requires ws[i].worker == NoWorker && ws[i].control.latent == 0
    requires ws[i].control.blocked == Some(ws[i].control.epoch)
    requires Sends(ws[j], es[j])
    ensures exists k :: i <= k < j && Unblocks(ws[k], es[k])
  {
    RunsKeepControl(ws, es, i);
    if forall k :: i <= k < j ==> !Unblocks(ws[k], es[k]) {
      SilenceHolds(ws, es, i, j);
    }
  }

  /**
   * A push or registration of the current epoch that failed is never followed too early by a push: when another
   * attempt can help, the next push of the epoch waits, counted from the start of the failed step, as long as the
   * server asked, or else 15 seconds after a rate limit, 2 while the same key is in progress and 5 otherwise (1 for
   * a registration that misses the device), unless a retry, a sign-in, a sign-out or a restart comes first; when it
   * cannot, none comes before a retry, a sign-in or a restart, provided no kick was between its halves.
   */
  lemma FailedPushIsNotRepeatedEarly(ws: seq<World>, es: seq<Event>, i: nat, j: nat)
    requires RunFromStart(ws, es) && i < j < |es| && FailureOf(es[i]).Some?
    requires OnTheWay(ws[i].worker) && ws[i].worker.epoch == ws[i].control.epoch && !ws[i].control.cancel
    requires Sends(ws[j], es[j]) && ws[j].worker.epoch == ws[i].control.epoch
    ensures var error := FailureOf(es[i]).value;
            if IsPermanent(error) then ws[i].control.latent == 0 ==> exists k :: i < k < j && Unblocks(ws[k], es[k])
            else
              || ws[j].now >= SaturatingAdd(ws[i].worker.at, LeastWait(error))
              || exists k :: i < k < j && ClearsDeadline(ws[k], es[k])
  {
    var error := FailureOf(es[i]).value;
    assert Takes(ws, es, i);
    RunsKeepControl(ws, es, i);
    FailureBacksOffOrBlocks(ws[i], es[i]);
    if !IsPermanent(error) {
      var until := SaturatingAdd(ws[i].worker.at, LeastWait(error));
      BackoffIsRespected(ws, es, i + 1, j, Deadline(ws[i].control.epoch, until));
    } else if ws[i].control.latent == 0 {
      TerminalStaysQuiet(ws, es, i + 1, j);
    }
  }

  /** What can follow `w` while nothing lifts a block. */
  ghost predicate Follows(w: World, ws: seq<World>, es: seq<Event>)
  {
    Run(ws, es) && ws[0] == w && forall k :: 0 <= k < |es| ==> !Unblocks(ws[k], es[k])
  }

  /** A thread that can be spawned, and nothing else of interest. */
  const SPAWNS: Io :=
    Io(true, true, true, true, None, true, true, true, true, true, true, true, true, true, true, true, false, [], "")

  /** That limit is exact: a blocked epoch gets no worker again if and only if no kick is between its two halves. */
  lemma BlockHoldsExactlyWhen(w: World)
    requires ControlOk(w) && w.worker == NoWorker && w.control.blocked == Some(w.control.epoch)
    ensures w.control.latent == 0
            <==> forall ws: seq<World>, es: seq<Event> :: Follows(w, ws, es) ==> ws[|es|].worker == NoWorker
  {
    if w.control.latent == 0 {
      forall ws: seq<World>, es: seq<Event> | Follows(w, ws, es) ensures ws[|es|].worker == NoWorker {
        SilenceHolds(ws, es, 0, |es|);
      }
    } else {
      var ws, es := [w, Next(w, KickStart(SPAWNS))], [KickStart(SPAWNS)];
      assert Takes(ws, es, 0);
      assert Follows(w, ws, es) && ws[|es|].worker == AtTop(w.control.epoch);
    }
  }

  // ---- honest idleness --------------------------------------------------------------------

  /** No kick is under way, and nothing would keep one from starting a worker. */
  predicate Quiet(w: World)
  {
    && w.control.latent == 0 && !w.control.cancel
    && w.control.blocked != Some(w.control.epoch) && w.control.retry.None?
  }

  predicate Idle(w: World) { w.worker == NoWorker && Quiet(w) }

  /** There is something to upload for the active user. */
  predicate ActiveHasWork(w: World)
  {
    && w.control.active.Some? && DeviceKey(w.config) != ""
    && WorkFor(w.store, AccountFor(w.config, w.control.active.value), true, true)
  }

  /** If the service idles in front of the active user's work, a store call or a spawn has failed. */
  predicate Honest(w: World)
  {
    Idle(w) && ActiveHasWork(w) ==> w.control.blame == StoreFailed || w.control.blame == SpawnFailed
  }

  /** The session is the active user's. */
  predicate AtHome(w: World) { w.session == w.control.active }

  /**
   * A worker of epoch `own` that stops in `w` leaves the active user's work behind: the session is not that user's,
   * and the exit handling does not look for work, or sees none for whoever holds the session.
   */
  predicate StopStrands(w: World, own: nat, io: Io)
  {
    && Quiet(w) && !AtHome(w) && ActiveHasWork(w)
    && (w.control.epoch == own || !SeesWork(w, io.workCounted, io.workLoaded))
  }

  /** A step of a worker from an older epoch ends in a stop, with the store as the step left it. */
  predicate StaleStopStrands(w: World, store: StoreState, own: nat, io: Io)
  {
    w.control.epoch != own && StopStrands(w.(store := store), own, io)
  }

  /**
   * The transitions that leave work behind with no failure: a worker stops while the session is not the active
   * user's, or a repair merges work for a service that idles while nobody is signed in.
   */
  predicate Strands(w: World, e: Event)
  {
    match e
    case Advance(io) => w.worker.AtTop? && !MayStep(w, w.worker.epoch) && StopStrands(w, w.worker.epoch, io)
    case DeviceReplied(reply, io) =>
      && w.worker.Registering? && !(reply.Registered? && w.worker.cause.ForBatch?)
      && StaleStopStrands(w, Next(w, e).store, w.worker.epoch, io)
    case PushReplied(_, io) => w.worker.Pushing? && StaleStopStrands(w, Next(w, e).store, w.worker.epoch, io)
    case MergeForAll(_, io) => io.merged && w.session.None? && Idle(w) && ActiveHasWork(w.(store := Next(w, e).store))
    case _ => false
  }

  lemma KickIsHonest(w: World, io: Io)
    requires w.control.running <==> w.worker != NoWorker
    ensures Honest(Kick(w, io))
  {
  }

  lemma ExitIsHonestExactlyWhen(w: World, own: nat, exit: WorkerExit, io: Io)
    requires exit.ExitStopped? ==> w.control.cancel || w.control.epoch != own || AccountKey(w).None? || !AtHome(w)
    requires exit.ExitQuiescent? ==> w.control.epoch == own && AtHome(w)
    requires exit.ExitTerminal? ==> w.control.epoch == own
    requires exit.ExitBackoff? ==> w.control.retry.Some?
    ensures Honest(Exit(w, own, exit, io)) <==> !(exit.ExitStopped? && StopStrands(w, own, io))
  {
  }

  lemma SettleIsHonestExactlyWhen(w: World, own: nat, result: StepResult, io: Io)
    requires !result.Stop? && (result.Quiescent? ==> AtHome(w))
    ensures Honest(Settle(w, own, result, io)) <==> !StaleStopStrands(w, w.store, own, io)
  {
    if w.control.cancel || w.control.epoch != own {
      ExitIsHonestExactlyWhen(w, own, ExitStopped, io);
    } else {
      match result
      case Quiescent => ExitIsHonestExactlyWhen(w, own, ExitQuiescent, io);
      case Backoff(until) =>
        var waiting := w.(control := w.control.(retry := Some(Deadline(own, until))));
        ExitIsHonestExactlyWhen(waiting, own, ExitBackoff, io);
      case Terminal => ExitIsHonestExactlyWhen(w, own, ExitTerminal, io);
      case StoreFailure => ExitIsHonestExactlyWhen(w, own, ExitStoreFailure, io);
      case Continue =>
    }
  }

  lemma MaterializeIsHonestExactlyWhen(w: World, own: nat, account: Account, scope: Scopes.UploadScope,
                                       baseline: BaselineStatus, at: int, io: Io)
    ensures var v := Materialize(w, own, account, scope, baseline, at, io);
            Honest(v) <==> !StaleStopStrands(w, v.store, own, io)
  {
    hide Settle, AfterPlan, PlanGeneration, Honest;
    SettleIsHonestExactlyWhen(w, own, StoreFailure, io);
    var plan := PlanGeneration(w.config, w.store, account, scope, at, io);
    if plan.Some? {
      SettleIsHonestExactlyWhen(AfterPlan(w, plan.value, baseline, at, io), own, Continue, io);
    }
  }

  lemma RemoteFailureIsHonestExactlyWhen(w: World, own: nat, account: Account, at: int, error: RemoteError, io: Io)
    ensures var v := RemoteFailure(w, own, account, at, error, io);
            Honest(v) <==> !StaleStopStrands(w, v.store, own, io)
  {
    hide Settle, Honest;
    var c := ClassifyRemoteError(error);
    var noted := w.(store := Recorded(w.store, account, at, Some(c.code), Some(c.retryable)));
    var result := if c.retryable then Backoff(SaturatingAdd(at, c.backoff)) else Terminal;
    SettleIsHonestExactlyWhen(if io.recorded then noted else w, own, result, io);
  }

  lemma StepFromTopIsHonest(w: World, account: Account, io: Io)
    requires AtHome(w)
    ensures Honest(StepFromTop(w, w.control.epoch, account, io))
  {
    hide Settle, Materialize;
    var own := w.control.epoch;
    match NextMove(w.store, account, io)
    case Finish(result) => SettleIsHonestExactlyWhen(w, own, result, io);
    case EnsureAccount =>
      SettleIsHonestExactlyWhen(if io.ensured then w.(store := Ensured(w.store, account)) else w, own, Continue, io);
    case SendFirst(_) =>
    case CutGeneration(scope, baseline) => MaterializeIsHonestExactlyWhen(w, own, account, scope, baseline, w.now, io);
  }

  lemma AdvanceIsHonestExactlyWhen(w: World, io: Io)
    requires ControlOk(w) && w.worker.AtTop?
    ensures Honest(Next(w, Advance(io))) <==> !Strands(w, Advance(io))
  {
    hide StepFromTop;
    var own := w.worker.epoch;
    if !MayStep(w, own) {
      ExitIsHonestExactlyWhen(w, own, ExitStopped, io);
    } else if BackingOff(w) {
      ExitIsHonestExactlyWhen(w, own, ExitBackoff, io);
    } else {
      StepFromTopIsHonest(w, AccountKey(w).value, io);
    }
  }

  lemma DeviceReplyIsHonestExactlyWhen(w: World, reply: DeviceReply, io: Io)
    requires w.worker.Registering?
    ensures Honest(Next(w, DeviceReplied(reply, io))) <==> !Strands(w, DeviceReplied(reply, io))
  {
    hide Settle, RemoteFailure, Materialize;
    var Registering(own, account, at, cause) := w.worker;
    match reply
    case RegisterFailed(error) => RemoteFailureIsHonestExactlyWhen(w, own, account, at, error, io);
    case Registered =>
      var stored := w.(store := DeviceRegistered(w.store, account, w.config.fingerprint, 1));
      var known := if io.registered then stored else w;
      match cause
      case ForBatch(_) =>
      case ForGeneration(scope, baseline) =>
        MaterializeIsHonestExactlyWhen(known, own, account, scope, baseline, at, io);
      case Recovery => SettleIsHonestExactlyWhen(known, own, Continue, io);
  }

  lemma AfterAcceptedIsHonestExactlyWhen(w: World, own: nat, account: Account, batch: OutboxBatch, io: Io)
    ensures var v := AfterAccepted(w, own, account, batch, io);
            Honest(v) <==> !StaleStopStrands(w, v.store, own, io)
  {
    hide Settle, Honest, StaleStopStrands;
    var v := AfterAccepted(w, own, account, batch, io);
    SettleIsHonestExactlyWhen(w, own, StoreFailure, io);
    SettleIsHonestExactlyWhen(w.(store := v.store), own, StoreFailure, io);
    SettleIsHonestExactlyWhen(w.(store := v.store), own, Continue, io);
    assert StaleStopStrands(w.(store := v.store), v.store, own, io) == StaleStopStrands(w, v.store, own, io) by {
      StaleStopReadsStore(w, v.store, own, io);
    }
  }

  lemma StaleStopReadsStore(w: World, store: StoreState, own: nat, io: Io)
    ensures StaleStopStrands(w.(store := store), store, own, io) == StaleStopStrands(w, store, own, io)
  {
  }

  lemma PushReplyIsHonestExactlyWhen(w: World, reply: PushReply, io: Io)
    requires ControlOk(w) && w.worker.Pushing?
    ensures Honest(Next(w, PushReplied(reply, io))) <==> !Strands(w, PushReplied(reply, io))
  {
    hide Settle, RemoteFailure, AfterAccepted;
    var Pushing(own, account, batch, at) := w.worker;
    match reply
    case PushAccepted => AfterAcceptedIsHonestExactlyWhen(w, own, account, batch, io);
    case PushFailed(DeviceNotFound) =>
      SettleIsHonestExactlyWhen(w, own, Continue, io);
      var stored := w.(store := DeviceRegistered(w.store, account, "invalidate", 0));
      RemoteFailureIsHonestExactlyWhen(if io.registered then stored else w, own, account, at, Internal, io);
    case PushFailed(error) => RemoteFailureIsHonestExactlyWhen(w, own, account, at, error, io);
  }

  lemma CommitIsHonest(w: World, upload: CommittedUploads.CommittedDailyUpload, io: Io)
    requires (w.control.running <==> w.worker != NoWorker) && Honest(w)
    ensures Honest(CommitHandler(w, upload, io))
  {
    var scope := CommittedUploads.UploadScopeOf(upload);
    if scope.Some? && AccountKey(w).Some? {
      KickIsHonest(w, io);
      KickIsHonest(w.(store := MergedPending(w.store, AccountKey(w).value, scope.value)), io);
    }
  }

  /** A sign-in wipes the slate: idling after it needs a failure of its own. */
  lemma SignInIsHonest(w: World, user: string, io: Io)
    requires w.control.running <==> w.worker != NoWorker
    ensures Honest(SignedInHandler(w, user, io))
  {
    var control := w.control.(active := Some(user), cancel := false, blocked := None, epoch := w.control.epoch + 1,
                              retry := None);
    var entered := w.(control := control);
    var prepared :=
      if AccountKey(w).None? then entered else entered.(store := SignInStore(w.store, AccountKey(w).value, io));
    KickIsHonest(prepared, io);
  }

  lemma MergeForAllIsHonestExactlyWhen(w: World, scope: Scopes.UploadScope, io: Io)
    requires (w.control.running <==> w.worker != NoWorker) && Honest(w)
    ensures Honest(MergeForAllHandler(w, scope, io)) <==> !Strands(w, MergeForAll(scope, io))
  {
    var merged := w.(store := MergedForAll(w.store, scope));
    KickIsHonest(merged.(control := w.control.(blocked := None, retry := None)), io);
  }

  /** From an honest state every transition leads to an honest one, exactly except those that strand work. */
  lemma NextIsHonestExactlyWhen(w: World, e: Event)
    requires ControlOk(w) && Enabled(w, e) && Honest(w)
    ensures Honest(Next(w, e)) <==> !Strands(w, e)
  {
    hide FromTop, AfterDeviceReply, AfterPushReply, MergeForAllHandler, SignedInHandler, CommitHandler;
    match e
    case SignedIn(user, io) => SignInIsHonest(w, user, io);
    case SignIn(user, io) => SignInIsHonest(w.(session := Some(user)), user, io);
    case Commit(upload, io) => CommitIsHonest(w, upload, io);
    case MergeForAll(scope, io) => MergeForAllIsHonestExactlyWhen(w, scope, io);
    case RetryNow(io) => KickIsHonest(w.(control := w.control.(blocked := None, retry := None)), io);
    case RetryDue(io) => KickIsHonest(w.(control := w.control.(retry := None)), io);
    case Advance(io) =>
      if w.worker.AtTop? { AdvanceIsHonestExactlyWhen(w, io); }
    case DeviceReplied(reply, io) => DeviceReplyIsHonestExactlyWhen(w, reply, io);
    case PushReplied(reply, io) => PushReplyIsHonestExactlyWhen(w, reply, io);
    case _ =>
  }

  predicate IsSignIn(e: Event) { e.SignedIn? || e.SignIn? }

  lemma {:induction false} HonestSince(ws: seq<World>, es: seq<Event>, h: nat, i: nat)
    requires RunFromStart(ws, es) && h <= i < |ws| && (h == 0 || IsSignIn(es[h - 1]))
    requires forall k :: h <= k < i ==> !Strands(ws[k], es[k])
    ensures Honest(ws[i])
  {
    if h < i {
      HonestSince(ws, es, h, i - 1);
      RunsKeepControl(ws, es, i - 1);
      assert Takes(ws, es, i - 1);
      NextIsHonestExactlyWhen(ws[i - 1], es[i - 1]);
    } else if h > 0 {
      RunsKeepControl(ws, es, h - 1);
      assert Takes(ws, es, h - 1);
      match es[h - 1]
      case SignedIn(user, io) => SignInIsHonest(ws[h - 1], user, io);
      case SignIn(user, io) => SignInIsHonest(ws[h - 1].(session := Some(user)), user, io);
    }
  }

  /**
   * Over any run, split kicks, failing calls and sessions that move without their handler included: the service
   * idles in front of the active user's work only after a store or a spawn failure, in every state of the run, if
   * and only if no transition of the run strands work.
   */
  lemma IdlenessIsHonestExactlyWhen(ws: seq<World>, es: seq<Event>)
    requires RunFromStart(ws, es)
    ensures (forall i :: 0 <= i < |ws| ==> Honest(ws[i])) <==> forall i :: 0 <= i < |es| ==> !Strands(ws[i], es[i])
  {
    if forall i :: 0 <= i < |es| ==> !Strands(ws[i], es[i]) {
      forall i | 0 <= i < |ws| ensures Honest(ws[i]) {
        HonestSince(ws, es, 0, i);
      }
    }
    if forall i :: 0 <= i < |ws| ==> Honest(ws[i]) {
      forall i | 0 <= i < |es| ensures !Strands(ws[i], es[i]) {
        RunsKeepControl(ws, es, i);
        assert Takes(ws, es, i) && Honest(ws[i]) && Honest(ws[i + 1]);
        NextIsHonestExactlyWhen(ws[i], es[i]);
      }
    }
  }

  /** The service has work for the user who holds the session, nothing stands against it, and yet nothing runs. */
  predicate IdlesBeforeWork(w: World)
  {
    && !w.control.running && w.control.latent == 0 && !w.control.cancel && w.control.blocked != Some(w.control.epoch)
    && (w.control.retry.Some? ==> w.control.retry.value.epoch != w.control.epoch)
    && AtHome(w) && SeesWork(w, true, true)
  }

  /**
   * In particular: if the session has been the active user's ever since the last sign-in (or since the start),
   * a service that idles before work got there by a store or a spawn failure.
   */
  lemma IdlenessIsHonest(ws: seq<World>, es: seq<Event>, h: nat, i: nat)
    requires RunFromStart(ws, es) && h <= i < |ws| && (h == 0 || IsSignIn(es[h - 1]))
    requires forall k :: h <= k < i ==> AtHome(ws[k])
    requires IdlesBeforeWork(ws[i])
    ensures ws[i].control.blame == StoreFailed || ws[i].control.blame == SpawnFailed
  {
    forall k | h <= k < i ensures !Strands(ws[k], es[k]) {
      StrandsAway(ws[k], es[k]);
    }
    RunsKeepControl(ws, es, i);
    HonestSince(ws, es, h, i);
  }

  lemma StrandsAway(w: World, e: Event)
    ensures Strands(w, e) ==> !AtHome(w)
  {
    hide AfterDeviceReply, AfterPushReply, MergedForAll;
  }

  /**
   * The branch that strands, seen alone: with every call answered and a plan for what is to be exported, a worker
   * at the loop head goes idle in front of the active user's work if and only if the session is not that user's,
   * and the worker is of the current epoch or sees no work for whoever holds the session.
   */
  lemma LoopHeadStrandsExactlyWhen(w: World, own: nat, io: Io)
    requires ControlOk(w) && w.worker == AtTop(own) && Quiet(w) && ActiveHasWork(w) && Drain.Healthy(io)
    requires MayStep(w, own) ==>
               var move := NextMove(w.store, AccountKey(w).value, io);
               move.CutGeneration? ==>
                   PlanGeneration(w.config, w.store, AccountKey(w).value, move.scope, w.now, io).Some?
    ensures var v := Next(w, Advance(io));
            Idle(v) && ActiveHasWork(v) <==> !AtHome(w) && (own == w.control.epoch || !SeesWork(w, true, true))
  {
    hide PlanGeneration, AfterPlan;
  }
}
