/** When a baseline shown as complete stands for a full generation that was entirely accepted. */
module Baseline {
  import opened Basics
  import CommittedUploads
  import opened Coverage
  import opened Delivery
  import DeliveryRuns
  import opened OutboxStore
  import opened Scopes
  import opened SyncMachine

  function StatusOf(w: World, user: string): BaselineStatus
  {
    var account := AccountFor(w.config, user);
    if account in w.store.states then w.store.states[account].baselineStatus else NotStarted
  }

  predicate FullMade(w: World, user: string)
  {
    exists i :: 0 <= i < |ExportsOf(w.history, user)| && ExportsOf(w.history, user)[i].scope.Full?
  }

  /** Some full export was cut into batches, and every batch created up to and with it has been accepted. */
  predicate FullAccepted(w: World, user: string)
  {
    exists i :: 0 <= i < |ExportsOf(w.history, user)| && ExportsOf(w.history, user)[i].scope.Full?
                && ExportsOf(w.history, user)[i].upTo <= AcceptedCount(w, user)
  }

  // ---- the invariant ----------------------------------------------------------------------

  /** The stored status tells whether a full export was made; `sound` adds what complete should mean. */
  predicate StatusOk(w: World, user: string, sound: bool)
  {
    && (StatusOf(w, user) == NotStarted ==> !FullMade(w, user))
    && (StatusOf(w, user) == InProgress ==> FullMade(w, user))
    && (sound && StatusOf(w, user) == Complete ==> FullAccepted(w, user))
    && forall i :: 0 <= i < |ExportsOf(w.history, user)| ==>
         ExportsOf(w.history, user)[i].upTo <= |CreatedBy(w.history, user)|
  }

  /** The baseline a worker captured is still the stored one. */
  predicate CaptureOk(w: World)
  {
    Capturing(w) ==>
      && w.worker.account in w.store.states
      && w.worker.cause.baseline == w.store.states[w.worker.account].baselineStatus
  }

  ghost predicate BaselineInv(w: World, sound: bool)
  {
    (forall user :: StatusOk(w, user, sound)) && CaptureOk(w)
  }

  /** No status changes, accounts only appear untouched, and nothing accepted is taken back. */
  ghost predicate StatusKept(w: World, v: World)
  {
    && v.config == w.config && v.history.exports == w.history.exports && v.history.created == w.history.created
    && (forall user :: AcceptedCount(w, user) <= AcceptedCount(v, user))
    && StatusesSame(w.store, v.store)
    && (Capturing(v) ==> v.worker == w.worker)
  }

  ghost predicate StatusesSame(s: StoreState, t: StoreState)
  {
    && (forall a :: a in s.states ==> a in t.states && t.states[a].baselineStatus == s.states[a].baselineStatus)
    && (forall a :: a in t.states && a !in s.states ==> t.states[a].baselineStatus == NotStarted)
  }

  lemma KeptStatusStaysOk(w: World, v: World, sound: bool)
    requires BaselineInv(w, sound) && StatusKept(w, v)
    ensures BaselineInv(v, sound)
  {
    forall user ensures StatusOk(v, user, sound) {
      assert StatusOk(w, user, sound);
      assert StatusOf(v, user) == StatusOf(w, user);
      assert ExportsOf(v.history, user) == ExportsOf(w.history, user);
      assert CreatedBy(v.history, user) == CreatedBy(w.history, user);
    }
  }

  lemma SettleStatus(w: World, epoch: nat, result: StepResult, io: Io, sound: bool)
    requires BaselineInv(w, sound) && w.control.running
    ensures BaselineInv(Settle(w, epoch, result, io), sound)
  {
    SettleSettles(w, epoch, result, io);
    KeptStatusStaysOk(w, Settle(w, epoch, result, io), sound);
  }

  lemma StoreWriteStatus(w: World, store: StoreState, sound: bool)
    requires BaselineInv(w, sound) && RevisionsKept(w.store, store) && StatusesSame(w.store, store)
    ensures BaselineInv(w.(store := store), sound)
  {
    KeptStatusStaysOk(w, w.(store := store), sound);
  }

  lemma RecordedStatus(w: World, account: Account, at: int, code: Option<string>, retryable: Option<bool>, sound: bool)
    requires BaselineInv(w, sound)
    ensures BaselineInv(w.(store := Recorded(w.store, account, at, code, retryable)), sound)
  {
    StoreWriteStatus(w, Recorded(w.store, account, at, code, retryable), sound);
  }

  /** Completing is sound once everything made so far, a full export included, has been accepted. */
  lemma CompletionStatus(w: World, user: string, sound: bool)
    requires BaselineInv(w, sound) && Queue(w, user) == [] && !Capturing(w)
    requires sound ==> FullMade(w, user)
    ensures BaselineInv(w.(store := BaselineCompleted(w.store, AccountFor(w.config, user))), sound)
  {
    var v := w.(store := BaselineCompleted(w.store, AccountFor(w.config, user)));
    forall other ensures StatusOk(v, other, sound) {
      assert StatusOk(w, other, sound);
      if other != user {
        assert StatusOf(v, other) == StatusOf(w, other);
      } else if sound {
        var i :| 0 <= i < |ExportsOf(w.history, user)| && ExportsOf(w.history, user)[i].scope.Full?;
        assert AcceptedCount(v, user) == |CreatedBy(v.history, user)|;
        assert ExportsOf(v.history, user)[i].upTo <= AcceptedCount(v, user);
      }
    }
  }

  // ---- generations ------------------------------------------------------------------------

  /** One more export record: what it adds to the two questions about full exports. */
  lemma OneMoreExport(w: World, v: World, user: string, record: ExportRecord)
    requires ExportsOf(v.history, user) == ExportsOf(w.history, user) + [record]
    requires AcceptedCount(w, user) <= AcceptedCount(v, user)
    ensures FullMade(v, user) <==> record.scope.Full? || FullMade(w, user)
    ensures FullAccepted(w, user) ==> FullAccepted(v, user)
  {
    var before, after := ExportsOf(w.history, user), ExportsOf(v.history, user);
    assert after[|before|] == record;
    forall i | 0 <= i < |before| ensures after[i] == before[i] { }
    if FullMade(w, user) {
      var i :| 0 <= i < |before| && before[i].scope.Full?;
      assert after[i].scope.Full?;
    }
    if FullAccepted(w, user) {
      var i :| 0 <= i < |before| && before[i].scope.Full? && before[i].upTo <= AcceptedCount(w, user);
      assert after[i].scope.Full?;
    }
  }

  lemma GenerationExports(w: World, input: GenerationInput, scope: UploadScope, user: string)
    requires GenerationFits(w, input) && input.account == AccountFor(w.config, user)
    requires CreatedGeneration(w.store, input).Success?
    ensures var v := AfterGeneration(w, input, scope);
            && ExportsOf(v.history, user)
                 == ExportsOf(w.history, user) + [ExportRecord(scope, |CreatedBy(v.history, user)|)]
            && StatusOf(v, user) == (if input.marksBaselineInProgress then InProgress else StatusOf(w, user))
            && |CreatedBy(w.history, user)| <= |CreatedBy(v.history, user)|
            && AcceptedCount(v, user) == AcceptedCount(w, user)
  {
    GenerationKeepsOwnQueue(w, input, scope);
    GenerationCreates(w, input, scope);
  }

  lemma GenerationStatus(w: World, input: GenerationInput, scope: UploadScope, user: string, sound: bool)
    requires BaselineInv(w, sound) && GenerationFits(w, input) && input.account == AccountFor(w.config, user)
    requires CreatedGeneration(w.store, input).Success? && !Capturing(w)
    requires input.marksBaselineInProgress <==> NeedsBaseline(StatusOf(w, user)) && scope.Full?
    ensures BaselineInv(AfterGeneration(w, input, scope), sound)
    ensures FullMade(AfterGeneration(w, input, scope), user) <==> scope.Full? || FullMade(w, user)
  {
    var v := AfterGeneration(w, input, scope);
    GenerationKeepsDurable(w, input, scope);
    GenerationExports(w, input, scope, user);
    OneMoreExport(w, v, user, ExportRecord(scope, |CreatedBy(v.history, user)|));
    forall other ensures StatusOk(v, other, sound) {
      assert StatusOk(w, other, sound);
      if other != user {
        assert ExportsOf(v.history, other) == ExportsOf(w.history, other);
        assert CreatedBy(v.history, other) == CreatedBy(w.history, other);
        assert StatusOf(v, other) == StatusOf(w, other);
        assert AcceptedCount(v, other) == AcceptedCount(w, other);
      }
    }
  }

  lemma EmptyExportStatus(w: World, user: string, baseline: BaselineStatus, at: int, io: Io, sound: bool)
    requires BaselineInv(w, sound) && Queue(w, user) == [] && AccountFor(w.config, user) in w.store.states
    requires sound && NeedsBaseline(baseline) && io.completed ==> FullMade(w, user)
    requires !Capturing(w)
    ensures BaselineInv(AfterEmptyExport(w, AccountFor(w.config, user), baseline, at, io), sound)
  {
    var account := AccountFor(w.config, user);
    var again := CreatedGeneration(w.store, GenerationInput(account, io.generationId, [], at, false, true));
    assert w.store.batches + [] == w.store.batches;
    var cleared := w.(store := if io.cleared && again.Success? then again.value else w.store);
    StoreWriteStatus(w, cleared.store, sound);
    var completed := cleared;
    if NeedsBaseline(baseline) && io.completed {
      assert FullMade(cleared, user) <==> FullMade(w, user);
      CompletionStatus(cleared, user, sound);
      completed := cleared.(store := BaselineCompleted(cleared.store, account));
    }
    RecordedStatus(completed, account, at, None, None, sound);
  }

  /**
   * Where the promise breaks: an empty export of a narrower scope completes a baseline that was never started.
   * A guard on the stored state and on what the calls of the step answer.
   */
  predicate NarrowEmptyExport(config: Config, store: StoreState, account: Account, scope: UploadScope,
                              baseline: BaselineStatus, at: int, io: Io)
  {
    && baseline == NotStarted && !scope.Full? && io.completed
    && var plan := PlanGeneration(config, store, account, scope, at, io); plan.Some? && plan.value.input.prepared == []
  }

  lemma MaterializeStatus(w: World, epoch: nat, user: string, scope: UploadScope, at: int, io: Io, sound: bool)
    requires BaselineInv(w, sound) && DurableOk(w) && w.control.running && !Capturing(w)
    requires Queue(w, user) == [] && FreshKeys(w, io) && AccountFor(w.config, user) in w.store.states
    requires sound ==>
               !NarrowEmptyExport(w.config, w.store, AccountFor(w.config, user), scope, StatusOf(w, user), at, io)
    ensures BaselineInv(Materialize(w, epoch, AccountFor(w.config, user), scope, StatusOf(w, user), at, io), sound)
  {
    var account, baseline := AccountFor(w.config, user), StatusOf(w, user);
    SettleStatus(w, epoch, StoreFailure, io, sound);
    DeliveryRuns.PlanFits(w, account, scope, at, io);
    var planned := PlanGeneration(w.config, w.store, account, scope, at, io);
    if planned.Some? {
      var plan := planned.value;
      assert StatusOk(w, user, sound);
      GenerationKeepsDurable(w, plan.input, plan.scope);
      GenerationStatus(w, plan.input, plan.scope, user, sound);
      if plan.input.prepared == [] {
        CreateAppends(w.store, plan.input, account);
        EmptyExportStatus(AfterGeneration(w, plan.input, plan.scope), user, baseline, at, io, sound);
      }
      SettleStatus(AfterPlan(w, plan, baseline, at, io), epoch, Continue, io, sound);
    }
  }

  // ---- transitions ------------------------------------------------------------------------

  /** The generation this transition cuts, if it does: from which store, for which account, scope and baseline. */
  datatype Cutting = Cutting(store: StoreState, account: Account, scope: UploadScope, baseline: BaselineStatus,
                             at: int, io: Io)

  function CutBy(w: World, e: Event): Option<Cutting>
  {
    match e
    case Advance(io) =>
      if w.worker.AtTop? && MayStep(w, w.worker.epoch) && !BackingOff(w) then
        var account := AccountKey(w).value;
        var move := NextMove(w.store, account, io);
        if move.CutGeneration? && DeviceIsRegistered(w.config, w.store.states[account])
        then Some(Cutting(w.store, account, move.scope, move.baseline, w.now, io))
        else None
      else None
    case DeviceReplied(Registered, io) =>
      if w.worker.Registering? && w.worker.cause.ForGeneration? then
        var Registering(_, account, at, ForGeneration(scope, baseline)) := w.worker;
        var store := if io.registered then DeviceRegistered(w.store, account, w.config.fingerprint, 1) else w.store;
        Some(Cutting(store, account, scope, baseline, at, io))
      else None
    case _ => None
  }

  predicate HollowsBaseline(w: World, e: Event)
  {
    CutBy(w, e).Some? &&
    var Cutting(store, account, scope, baseline, at, io) := CutBy(w, e).value;
    NarrowEmptyExport(w.config, store, account, scope, baseline, at, io)
  }

  lemma StepFromTopStatus(w: World, epoch: nat, user: string, io: Io, sound: bool)
    requires BaselineInv(w, sound) && DeliveryInv(w) && w.worker == AtTop(epoch) && FreshKeys(w, io)
    requires MayStep(w, epoch) && !BackingOff(w) && AccountKey(w).value == AccountFor(w.config, user)
    requires sound ==> !HollowsBaseline(w, Advance(io))
    ensures BaselineInv(StepFromTop(w, epoch, AccountFor(w.config, user), io), sound)
  {
    var account := AccountFor(w.config, user);
    match NextMove(w.store, account, io)
    case Finish(result) => SettleStatus(w, epoch, result, io, sound);
    case SendFirst(_) => KeptStatusStaysOk(w, StepFromTop(w, epoch, account, io), sound);
    case EnsureAccount =>
      StoreWriteStatus(w, Ensured(w.store, account), sound);
      SettleStatus(if io.ensured then w.(store := Ensured(w.store, account)) else w, epoch, Continue, io, sound);
    case CutGeneration(scope, baseline) =>
      if DeviceIsRegistered(w.config, w.store.states[account]) {
        MaterializeStatus(w, epoch, user, scope, w.now, io, sound);
      } else {
        var v := StepFromTop(w, epoch, account, io);
        forall other ensures StatusOk(v, other, sound) { assert StatusOk(w, other, sound); }
      }
  }

  lemma FromTopStatus(w: World, io: Io, sound: bool)
    requires BaselineInv(w, sound) && DeliveryInv(w) && w.worker.AtTop? && FreshKeys(w, io)
    requires sound ==> !HollowsBaseline(w, Advance(io))
    ensures BaselineInv(FromTop(w, w.worker.epoch, io), sound)
  {
    var epoch := w.worker.epoch;
    if MayStep(w, epoch) && !BackingOff(w) {
      StepFromTopStatus(w, epoch, w.session.value, io, sound);
    } else {
      ExitSettles(w, epoch, ExitStopped, io);
      ExitSettles(w, epoch, ExitBackoff, io);
      KeptStatusStaysOk(w, FromTop(w, epoch, io), sound);
    }
  }

  lemma RemoteFailureStatus(w: World, epoch: nat, account: Account, at: int, error: RemoteError, io: Io, sound: bool)
    requires BaselineInv(w, sound) && w.control.running
    ensures BaselineInv(RemoteFailure(w, epoch, account, at, error, io), sound)
  {
    var c := ClassifyRemoteError(error);
    RecordedStatus(w, account, at, Some(c.code), Some(c.retryable), sound);
    var noted := w.(store := Recorded(w.store, account, at, Some(c.code), Some(c.retryable)));
    var result := if c.retryable then Backoff(SaturatingAdd(at, c.backoff)) else Terminal;
    SettleStatus(if io.recorded then noted else w, epoch, result, io, sound);
  }

  lemma AfterAcceptedStatus(w: World, epoch: nat, account: Account, batch: OutboxBatch, io: Io, sound: bool)
    requires BaselineInv(w, sound) && DeliveryInv(w) && w.control.running && w.worker.Pushing?
    requires HoldsHead(w, account, batch) && Applied(w, PushOf(batch))
    ensures BaselineInv(AfterAccepted(w, epoch, account, batch, io), sound)
  {
    var user := account.userId;
    SettleStatus(w, epoch, StoreFailure, io, sound);
    AcceptKeepsDurable(w, account, batch);
    var accepted := w.(store := AcceptedBatch(w.store, account, batch.id, w.now).value);
    KeptStatusStaysOk(w, accepted, sound);
    SettleStatus(accepted, epoch, StoreFailure, io, sound);
    NotedStatus(accepted, epoch, account, io, sound);
    if PendingOf(accepted.store.batches, account) == [] && StatusOf(accepted, user) == InProgress {
      assert StatusOk(accepted, user, sound);
      CompletionStatus(accepted, user, sound);
      NotedStatus(accepted.(store := BaselineCompleted(accepted.store, account)), epoch, account, io, sound);
    }
  }

  lemma NotedStatus(w: World, epoch: nat, account: Account, io: Io, sound: bool)
    requires BaselineInv(w, sound) && w.control.running
    ensures BaselineInv(Settle(w, epoch, Continue, io), sound)
    ensures BaselineInv(Settle(w.(store := Recorded(w.store, account, w.now, None, None)), epoch, Continue, io), sound)
  {
    SettleStatus(w, epoch, Continue, io, sound);
    RecordedStatus(w, account, w.now, None, None, sound);
    SettleStatus(w.(store := Recorded(w.store, account, w.now, None, None)), epoch, Continue, io, sound);
  }

  lemma PushReplyStatus(w: World, reply: PushReply, io: Io, sound: bool)
    requires BaselineInv(w, sound) && DeliveryInv(w) && Enabled(w, PushReplied(reply, io))
    ensures BaselineInv(Next(w, PushReplied(reply, io)), sound)
  {
    hide BaselineInv, AfterAccepted, RemoteFailure, Settle;
    var Pushing(epoch, account, batch, at) := w.worker;
    match reply
    case PushAccepted =>
      HeldBatchIsOwn(w, account, batch);
      AfterAcceptedStatus(w, epoch, account, batch, io, sound);
    case PushFailed(DeviceNotFound) => DeviceMissingStatus(w, epoch, account, at, io, sound);
    case PushFailed(error) => RemoteFailureStatus(w, epoch, account, at, error, io, sound);
  }

  lemma DeviceMissingStatus(w: World, epoch: nat, account: Account, at: int, io: Io, sound: bool)
    requires BaselineInv(w, sound) && w.control.running
    ensures BaselineInv(Settle(w, epoch, Continue, io), sound)
    ensures var stored := w.(store := DeviceRegistered(w.store, account, "invalidate", 0));
            var invalidated := if io.registered then stored else w;
            && BaselineInv(RemoteFailure(invalidated, epoch, account, at, Internal, io), sound)
            && BaselineInv(invalidated.(worker := Registering(epoch, account, at, Recovery)), sound)
  {
    SettleStatus(w, epoch, Continue, io, sound);
    StoreWriteStatus(w, DeviceRegistered(w.store, account, "invalidate", 0), sound);
    var stored := w.(store := DeviceRegistered(w.store, account, "invalidate", 0));
    var invalidated := if io.registered then stored else w;
    RemoteFailureStatus(invalidated, epoch, account, at, Internal, io, sound);
    KeptStatusStaysOk(invalidated, invalidated.(worker := Registering(epoch, account, at, Recovery)), sound);
  }

  lemma CapturedGenerationStatus(w: World, epoch: nat, user: string, at: int, scope: UploadScope, io: Io, sound: bool)
    requires BaselineInv(w, sound) && DurableOk(w) && w.control.running && FreshKeys(w, io)
    requires Queue(w, user) == [] && AccountFor(w.config, user) in w.store.states
    requires sound ==>
               !NarrowEmptyExport(w.config, w.store, AccountFor(w.config, user), scope, StatusOf(w, user), at, io)
    ensures BaselineInv(Materialize(w, epoch, AccountFor(w.config, user), scope, StatusOf(w, user), at, io), sound)
  {
    var bare := w.(worker := NoWorker);
    KeptQueuesStayOk(w, bare);
    KeptStatusStaysOk(w, bare, sound);
    MaterializeStatus(bare, epoch, user, scope, at, io, sound);
    MaterializeForgetsWorker(w, NoWorker, epoch, AccountFor(w.config, user), scope, StatusOf(w, user), at, io);
  }

  lemma DeviceReplyStatus(w: World, reply: DeviceReply, io: Io, sound: bool)
    requires BaselineInv(w, sound) && DeliveryInv(w) && Enabled(w, DeviceReplied(reply, io))
    requires sound ==> !HollowsBaseline(w, DeviceReplied(reply, io))
    ensures BaselineInv(Next(w, DeviceReplied(reply, io)), sound)
  {
    var Registering(epoch, account, at, cause) := w.worker;
    match reply
    case RegisterFailed(error) => RemoteFailureStatus(w, epoch, account, at, error, io, sound);
    case Registered =>
      StoreWriteStatus(w, DeviceRegistered(w.store, account, w.config.fingerprint, 1), sound);
      var stored := w.(store := DeviceRegistered(w.store, account, w.config.fingerprint, 1));
      var known := if io.registered then stored else w;
      match cause
      case ForBatch(batch) => KeptStatusStaysOk(known, known.(worker := ReadyToPush(epoch, account, batch, at)), sound);
      case ForGeneration(scope, baseline) =>
        KeptQueuesStayOk(w, known);
        CapturedGenerationStatus(known, epoch, account.userId, at, scope, io, sound);
      case Recovery => SettleStatus(known, epoch, Continue, io, sound);
  }

  lemma SignedInStatus(w: World, user: string, io: Io, sound: bool)
    requires BaselineInv(w, sound)
    ensures BaselineInv(SignedInHandler(w, user, io), sound)
  {
    KeptStatusStaysOk(w, SignedInHandler(w, user, io), sound);
  }

  lemma CommitStatus(w: World, upload: CommittedUploads.CommittedDailyUpload, io: Io, sound: bool)
    requires BaselineInv(w, sound)
    ensures BaselineInv(CommitHandler(w, upload, io), sound)
  {
    KeptStatusStaysOk(w, CommitHandler(w, upload, io), sound);
  }

  lemma MergeForAllStatus(w: World, scope: UploadScope, io: Io, sound: bool)
    requires BaselineInv(w, sound)
    ensures BaselineInv(MergeForAllHandler(w, scope, io), sound)
  {
    KeptStatusStaysOk(w, MergeForAllHandler(w, scope, io), sound);
  }

  lemma NextKeepsBaseline(w: World, e: Event, sound: bool)
    requires BaselineInv(w, sound) && DeliveryInv(w) && Enabled(w, e)
    requires sound ==> !HollowsBaseline(w, e)
    ensures BaselineInv(Next(w, e), sound)
  {
    match e
    case SignedIn(user, io) => SignedInStatus(w, user, io, sound);
    case SignIn(user, io) =>
      KeptStatusStaysOk(w, w.(session := Some(user)), sound);
      SignedInStatus(w.(session := Some(user)), user, io, sound);
    case Commit(upload, io) => CommitStatus(w, upload, io, sound);
    case MergeForAll(scope, io) => MergeForAllStatus(w, scope, io, sound);
    case Advance(io) =>
      if w.worker.AtTop? {
        FromTopStatus(w, io, sound);
      } else {
        KeptStatusStaysOk(w, Next(w, e), sound);
      }
    case DeviceReplied(reply, io) => DeviceReplyStatus(w, reply, io, sound);
    case PushReplied(reply, io) => PushReplyStatus(w, reply, io, sound);
    case _ => KeptStatusStaysOk(w, Next(w, e), sound);
  }

  lemma {:induction false} RunsKeepBaseline(ws: seq<World>, es: seq<Event>, i: nat, sound: bool)
    requires RunFromStart(ws, es) && i < |ws|
    requires sound ==> forall k :: 0 <= k < i ==> !HollowsBaseline(ws[k], es[k])
    ensures BaselineInv(ws[i], sound)
  {
    if i > 0 {
      RunsKeepBaseline(ws, es, i - 1, sound);
      DeliveryRuns.RunsKeepDelivery(ws, es, i - 1);
      assert Takes(ws, es, i - 1);
      NextKeepsBaseline(ws[i - 1], es[i - 1], sound);
    }
  }

  // ---- when complete means complete -------------------------------------------------------

  /** An empty generation that completes the baseline: nothing is queued, and one more export is on record. */
  lemma EmptyGenerationCompletes(w: World, user: string, scope: UploadScope, at: int, io: Io)
    requires DurableOk(w) && Queue(w, user) == [] && FreshKeys(w, io) && NeedsBaseline(StatusOf(w, user))
    requires io.completed
    requires var plan := PlanGeneration(w.config, w.store, AccountFor(w.config, user), scope, at, io);
             plan.Some? && plan.value.input.prepared == []
    ensures var plan := PlanGeneration(w.config, w.store, AccountFor(w.config, user), scope, at, io).value;
            var v := AfterPlan(w, plan, StatusOf(w, user), at, io);
            && StatusOf(v, user) == Complete && CreatedBy(v.history, user) == CreatedBy(w.history, user)
            && AcceptedCount(v, user) == AcceptedCount(w, user) == |CreatedBy(w.history, user)|
            && ExportsOf(v.history, user)
                 == ExportsOf(w.history, user) + [ExportRecord(plan.scope, |CreatedBy(w.history, user)|)]
            && plan.scope.Full? == scope.Full?
  {
    hide PlanGeneration, AfterEmptyExport, BatchOk, PendingOf, NewOrigins;
    var account := AccountFor(w.config, user);
    DeliveryRuns.PlanFits(w, account, scope, at, io);
    var plan := PlanGeneration(w.config, w.store, account, scope, at, io).value;
    GenerationKeepsDurable(w, plan.input, plan.scope);
    GenerationExports(w, plan.input, plan.scope, user);
    GenerationCreates(w, plan.input, plan.scope);
    CreateAppends(w.store, plan.input, account);
    DeliveryRuns.EmptyExportKeeps(AfterGeneration(w, plan.input, plan.scope), account, StatusOf(w, user), at, io);
    EmptyExportCompletes(AfterGeneration(w, plan.input, plan.scope), account, StatusOf(w, user), at, io);
  }

  lemma EmptyExportCompletes(w: World, account: Account, baseline: BaselineStatus, at: int, io: Io)
    requires NeedsBaseline(baseline) && io.completed
    ensures var v := AfterEmptyExport(w, account, baseline, at, io);
            && v.history == w.history
            && account in v.store.states && v.store.states[account].baselineStatus == Complete
  {
  }

  /**
   * In every reachable state, an empty export that completes a baseline does so rightly if and only if it
   * exported the full scope or the stored status was already in progress.
   */
  lemma EmptyExportCompletesRightlyExactlyWhen(ws: seq<World>, es: seq<Event>, i: nat, user: string,
                                               scope: UploadScope, at: int, io: Io)
    requires RunFromStart(ws, es) && i < |ws|
    requires Queue(ws[i], user) == [] && FreshKeys(ws[i], io) && NeedsBaseline(StatusOf(ws[i], user)) && io.completed
    requires var plan := PlanGeneration(ws[i].config, ws[i].store, AccountFor(ws[i].config, user), scope, at, io);
             plan.Some? && plan.value.input.prepared == []
    ensures var plan := PlanGeneration(ws[i].config, ws[i].store, AccountFor(ws[i].config, user), scope, at, io).value;
            var v := AfterPlan(ws[i], plan, StatusOf(ws[i], user), at, io);
            StatusOf(v, user) == Complete
                && (FullAccepted(v, user) <==> scope.Full? || StatusOf(ws[i], user) == InProgress)
  {
    DeliveryRuns.RunsKeepDelivery(ws, es, i);
    RunsKeepBaseline(ws, es, i, false);
    EmptyExportAccepts(ws[i], user, scope, at, io);
  }

  lemma EmptyExportAccepts(w: World, user: string, scope: UploadScope, at: int, io: Io)
    requires BaselineInv(w, false) && DurableOk(w) && Queue(w, user) == [] && FreshKeys(w, io)
    requires NeedsBaseline(StatusOf(w, user)) && io.completed
    requires var plan := PlanGeneration(w.config, w.store, AccountFor(w.config, user), scope, at, io);
             plan.Some? && plan.value.input.prepared == []
    ensures var plan := PlanGeneration(w.config, w.store, AccountFor(w.config, user), scope, at, io).value;
            var v := AfterPlan(w, plan, StatusOf(w, user), at, io);
            StatusOf(v, user) == Complete && (FullAccepted(v, user) <==> scope.Full? || StatusOf(w, user) == InProgress)
  {
    var plan := PlanGeneration(w.config, w.store, AccountFor(w.config, user), scope, at, io).value;
    var v := AfterPlan(w, plan, StatusOf(w, user), at, io);
    EmptyGenerationCompletes(w, user, scope, at, io);
    OneMoreExport(w, v, user, ExportRecord(plan.scope, |CreatedBy(w.history, user)|));
    assert StatusOk(w, user, false);
    var before, after := ExportsOf(w.history, user), ExportsOf(v.history, user);
    forall i | 0 <= i < |after| ensures after[i].upTo <= AcceptedCount(v, user) {
      assert i < |before| ==> after[i] == before[i];
    }
  }

  /** What a generation cut in this transition leaves behind, control fields aside. */
  lemma CutLeaves(w: World, e: Event)
    requires CutBy(w, e).Some?
    ensures var Cutting(store, account, scope, baseline, at, io) := CutBy(w, e).value;
            var plan := PlanGeneration(w.config, store, account, scope, at, io);
            plan.Some? ==> OnlyControl(AfterPlan(w.(store := store), plan.value, baseline, at, io), Next(w, e))
  {
    hide PlanGeneration, AfterPlan;
  }

  lemma HollowCompletes(w: World, e: Event)
    requires BaselineInv(w, false) && DeliveryInv(w) && Enabled(w, e) && HollowsBaseline(w, e)
    ensures exists user :: StatusOf(Next(w, e), user) == Complete && !FullAccepted(Next(w, e), user)
  {
    var Cutting(store, account, scope, baseline, at, io) := CutBy(w, e).value;
    var user := account.userId;
    var known := w.(store := store);
    assert RevisionsKept(w.store, store) && StatusesSame(w.store, store);
    KeptQueuesStayOk(w, known);
    StoreWriteStatus(w, store, false);
    assert account == AccountFor(w.config, user) && Queue(known, user) == [];
    assert baseline == StatusOf(known, user);
    EmptyExportAccepts(known, user, scope, at, io);
    CutLeaves(w, e);
    var after := AfterPlan(known, PlanGeneration(w.config, store, account, scope, at, io).value, baseline, at, io);
    assert StatusOf(Next(w, e), user) == StatusOf(after, user);
    assert FullAccepted(Next(w, e), user) == FullAccepted(after, user);
  }

  /**
   * Over any run: every baseline ever shown as complete stands for a full export whose batches are all
   * accepted, if and only if no empty export of a narrower scope ever completed an unstarted baseline.
   */
  lemma BaselinesAreRealExactlyWhen(ws: seq<World>, es: seq<Event>)
    requires RunFromStart(ws, es)
    ensures (forall i, user :: 0 <= i < |ws| && StatusOf(ws[i], user) == Complete ==> FullAccepted(ws[i], user))
            <==> forall i :: 0 <= i < |es| ==> !HollowsBaseline(ws[i], es[i])
  {
    if forall i :: 0 <= i < |es| ==> !HollowsBaseline(ws[i], es[i]) {
      forall i, user | 0 <= i < |ws| && StatusOf(ws[i], user) == Complete ensures FullAccepted(ws[i], user) {
        RunsKeepBaseline(ws, es, i, true);
        assert StatusOk(ws[i], user, true);
      }
    } else {
      var i :| 0 <= i < |es| && HollowsBaseline(ws[i], es[i]);
      RunsKeepBaseline(ws, es, i, false);
      DeliveryRuns.RunsKeepDelivery(ws, es, i);
      assert Takes(ws, es, i);
      HollowCompletes(ws[i], es[i]);
      var user :| StatusOf(ws[i + 1], user) == Complete && !FullAccepted(ws[i + 1], user);
    }
  }

  /** Until such an export, a complete baseline means a full generation of that account reached the server entirely. */
  lemma CompleteBaselineIsReal(ws: seq<World>, es: seq<Event>, i: nat, user: string)
    requires RunFromStart(ws, es) && i < |ws| && forall k :: 0 <= k < i ==> !HollowsBaseline(ws[k], es[k])
    ensures StatusOf(ws[i], user) == Complete ==>
              exists k :: 0 <= k < |ExportsOf(ws[i].history, user)|
                && ExportsOf(ws[i].history, user)[k].scope == Full
                && ExportsOf(ws[i].history, user)[k].upTo <= |LogOf(ws[i].server, user)|
  {
    RunsKeepBaseline(ws, es, i, true);
    DeliveryRuns.RunsKeepDelivery(ws, es, i);
    assert StatusOk(ws[i], user, true) && QueueOk(ws[i], user);
    var exports := ExportsOf(ws[i].history, user);
    if StatusOf(ws[i], user) == Complete {
      var k :| 0 <= k < |exports| && exports[k].scope.Full? && exports[k].upTo <= AcceptedCount(ws[i], user);
      assert exports[k].upTo <= |LogOf(ws[i].server, user)|;
    }
  }

  // ---- sign-ins that ask for everything ---------------------------------------------------

  /** For the signed-in user an untouched baseline asks for everything, and so does a capture made from one. */
  predicate Asks(w: World)
  {
    && (w.control.active.Some? && DeviceKey(w.config) != "" ==>
          var account := AccountFor(w.config, w.control.active.value);
          && account in w.store.states
          && (w.store.states[account].baselineStatus == NotStarted ==>
               w.store.states[account].pendingScope == Some(Full)))
    && (Capturing(w) && w.worker.cause.baseline == NotStarted ==> w.worker.cause.scope == Full)
  }

  /** No account disappears, and an untouched one that asked for everything still does. */
  ghost predicate AskingKept(s: StoreState, t: StoreState)
  {
    forall a :: a in s.states ==>
      && a in t.states
      && (t.states[a].baselineStatus == NotStarted ==>
            && s.states[a].baselineStatus == NotStarted
            && (s.states[a].pendingScope == Some(Full) ==> t.states[a].pendingScope == Some(Full)))
  }

  lemma AskingStays(w: World, v: World)
    requires Asks(w) && v.config == w.config && AskingKept(w.store, v.store)
    requires v.control.active == w.control.active || v.control.active.None?
    requires Capturing(v) ==> v.worker == w.worker
    ensures Asks(v)
  {
  }

  lemma PlanAsks(w: World, account: Account, scope: UploadScope, at: int, io: Io)
    requires account in w.store.states
    requires w.store.states[account].baselineStatus == NotStarted ==> scope == Full
    ensures var plan := PlanGeneration(w.config, w.store, account, scope, at, io);
            plan.Some? ==>
              && AskingKept(w.store, plan.value.store) && plan.value.input.account == account
              && account in plan.value.store.states && plan.value.store.states[account].baselineStatus != NotStarted
  {
    hide ExportQuery;
  }

  lemma EmptyExportAsks(w: World, account: Account, baseline: BaselineStatus, at: int, io: Io)
    requires account in w.store.states && w.store.states[account].baselineStatus != NotStarted
    ensures AskingKept(w.store, AfterEmptyExport(w, account, baseline, at, io).store)
  {
  }

  lemma MaterializeAsks(w: World, epoch: nat, account: Account, scope: UploadScope, at: int, io: Io)
    requires account in w.store.states
    requires w.store.states[account].baselineStatus == NotStarted ==> scope == Full
    ensures AskingKept(w.store,
            Materialize(w, epoch, account, scope, w.store.states[account].baselineStatus, at, io).store)
  {
    hide PlanGeneration, AfterEmptyExport, Settle;
    PlanAsks(w, account, scope, at, io);
    var plan := PlanGeneration(w.config, w.store, account, scope, at, io);
    if plan.Some? {
      var made := WithGeneration(w, plan.value.input, plan.value.store, plan.value.scope);
      EmptyExportAsks(made, account, w.store.states[account].baselineStatus, at, io);
    }
  }

  lemma AdvanceAsks(w: World, io: Io)
    requires Asks(w) && w.worker.AtTop?
    ensures Asks(Next(w, Advance(io)))
  {
    hide Settle, Materialize;
    var epoch := w.worker.epoch;
    var v := Next(w, Advance(io));
    if MayStep(w, epoch) && !BackingOff(w) {
      var account := AccountKey(w).value;
      match NextMove(w.store, account, io)
      case Finish(result) =>
        SettleLeavesUser(w, epoch, result, io);
        AskingStays(w, v);
      case EnsureAccount =>
        SettleLeavesUser(if io.ensured then w.(store := Ensured(w.store, account)) else w, epoch, Continue, io);
        AskingStays(w, v);
      case SendFirst(_) => AskingStays(w, v);
      case CutGeneration(scope, baseline) =>
        MaterializeAsks(w, epoch, account, scope, w.now, io);
        MaterializeLeavesUser(w, epoch, account, scope, baseline, w.now, io);
        if DeviceIsRegistered(w.config, w.store.states[account]) { AskingStays(w, v); }
    } else {
      AskingStays(w, v);
    }
  }

  lemma DeviceReplyAsks(w: World, reply: DeviceReply, io: Io)
    requires Asks(w) && CaptureOk(w) && w.worker.Registering?
    ensures Asks(Next(w, DeviceReplied(reply, io)))
  {
    hide Materialize, Settle;
    var Registering(epoch, account, at, cause) := w.worker;
    var v := Next(w, DeviceReplied(reply, io));
    if reply.Registered? && cause.ForGeneration? {
      var stored := w.(store := DeviceRegistered(w.store, account, w.config.fingerprint, 1));
      var known := if io.registered then stored else w;
      AskingStays(w, known);
      MaterializeAsks(known, epoch, account, cause.scope, at, io);
      MaterializeLeavesUser(known, epoch, account, cause.scope, cause.baseline, at, io);
      AskingStays(known, v);
    } else {
      ReplyLeavesUser(w, reply, io);
      AskingStays(w, v);
    }
  }

  lemma SettleLeavesUser(w: World, epoch: nat, result: StepResult, io: Io)
    ensures var v := Settle(w, epoch, result, io); v.control.active == w.control.active && !Capturing(v)
  {
  }

  lemma MaterializeLeavesUser(w: World, epoch: nat, account: Account, scope: UploadScope, baseline: BaselineStatus,
                              at: int, io: Io)
    ensures var v := Materialize(w, epoch, account, scope, baseline, at, io);
            v.control.active == w.control.active && !Capturing(v)
  {
    hide PlanGeneration, AfterPlan, Settle;
    var plan := PlanGeneration(w.config, w.store, account, scope, at, io);
    SettleLeavesUser(w, epoch, StoreFailure, io);
    if plan.Some? { SettleLeavesUser(AfterPlan(w, plan.value, baseline, at, io), epoch, Continue, io); }
  }

  lemma RemoteFailureLeavesUser(w: World, epoch: nat, account: Account, at: int, error: RemoteError, io: Io)
    ensures var v := RemoteFailure(w, epoch, account, at, error, io);
            v.control.active == w.control.active && !Capturing(v) && AskingKept(w.store, v.store)
  {
    hide Settle;
    var c := ClassifyRemoteError(error);
    var noted := w.(store := Recorded(w.store, account, at, Some(c.code), Some(c.retryable)));
    var result := if c.retryable then Backoff(SaturatingAdd(at, c.backoff)) else Terminal;
    SettleLeavesUser(if io.recorded then noted else w, epoch, result, io);
  }

  /** A device reply that cuts no generation. */
  lemma ReplyLeavesUser(w: World, reply: DeviceReply, io: Io)
    requires w.worker.Registering? && !(reply.Registered? && w.worker.cause.ForGeneration?)
    ensures var v := Next(w, DeviceReplied(reply, io));
            v.control.active == w.control.active && !Capturing(v) && AskingKept(w.store, v.store)
  {
    hide Settle, RemoteFailure;
    var Registering(epoch, account, at, cause) := w.worker;
    match reply
    case RegisterFailed(error) => RemoteFailureLeavesUser(w, epoch, account, at, error, io);
    case Registered =>
      var stored := w.(store := DeviceRegistered(w.store, account, w.config.fingerprint, 1));
      SettleLeavesUser(if io.registered then stored else w, epoch, Continue, io);
  }

  lemma AfterAcceptedLeavesUser(w: World, epoch: nat, account: Account, batch: OutboxBatch, io: Io)
    ensures var v := AfterAccepted(w, epoch, account, batch, io);
            v.control.active == w.control.active && !Capturing(v) && AskingKept(w.store, v.store)
  {
    hide Settle;
    var v := AfterAccepted(w, epoch, account, batch, io);
    SettleLeavesUser(w, epoch, StoreFailure, io);
    SettleLeavesUser(w.(store := v.store), epoch, StoreFailure, io);
    SettleLeavesUser(w.(store := v.store), epoch, Continue, io);
  }

  lemma PushReplyAsks(w: World, reply: PushReply, io: Io)
    requires Asks(w) && w.worker.Pushing?
    ensures Asks(Next(w, PushReplied(reply, io)))
  {
    hide Settle, RemoteFailure, AfterAccepted;
    var Pushing(epoch, account, batch, at) := w.worker;
    match reply
    case PushAccepted => AfterAcceptedLeavesUser(w, epoch, account, batch, io);
    case PushFailed(DeviceNotFound) =>
      SettleLeavesUser(w, epoch, Continue, io);
      var stored := w.(store := DeviceRegistered(w.store, account, "invalidate", 0));
      RemoteFailureLeavesUser(if io.registered then stored else w, epoch, account, at, Internal, io);
    case PushFailed(error) => RemoteFailureLeavesUser(w, epoch, account, at, error, io);
  }

  /** The sign-in handler runs for the account the session holds, and its three store calls succeed. */
  predicate FaithfulSignIn(w: World, e: Event)
  {
    match e
    case SignIn(_, io) => io.ensured && io.loaded && io.merged
    case SignedIn(user, io) => w.session == Some(user) && io.ensured && io.loaded && io.merged
    case _ => true
  }

  lemma SignedInAsks(w: World, user: string, io: Io)
    requires Asks(w) && w.session == Some(user) && io.ensured && io.loaded && io.merged
    ensures Asks(SignedInHandler(w, user, io))
  {
    if DeviceKey(w.config) != "" {
      var account := AccountFor(w.config, user);
      assert MergeUploadScopes(EnsuredState(w.store, account).pendingScope, Full) == Full;
    }
  }

  lemma MergeForAllAsks(w: World, scope: UploadScope, io: Io)
    requires Asks(w)
    ensures Asks(MergeForAllHandler(w, scope, io))
  {
    AskingStays(w, MergeForAllHandler(w, scope, io));
  }

  lemma NextAsks(w: World, e: Event)
    requires Asks(w) && CaptureOk(w) && Enabled(w, e) && FaithfulSignIn(w, e)
    ensures Asks(Next(w, e))
  {
    hide FromTop, AfterDeviceReply, AfterPushReply, SignedInHandler, MergeForAllHandler;
    match e
    case SignedIn(user, io) => SignedInAsks(w, user, io);
    case SignIn(user, io) => SignedInAsks(w.(session := Some(user)), user, io);
    case Advance(io) =>
      if w.worker.AtTop? { AdvanceAsks(w, io); }
    case DeviceReplied(reply, io) => DeviceReplyAsks(w, reply, io);
    case PushReplied(reply, io) => PushReplyAsks(w, reply, io);
    case MergeForAll(scope, io) => MergeForAllAsks(w, scope, io);
    case _ => AskingStays(w, Next(w, e));
  }

  lemma {:induction false} RunsAsk(ws: seq<World>, es: seq<Event>, i: nat)
    requires RunFromStart(ws, es) && i < |ws| && forall k :: 0 <= k < i ==> FaithfulSignIn(ws[k], es[k])
    ensures Asks(ws[i])
  {
    if i > 0 {
      RunsAsk(ws, es, i - 1);
      RunsKeepBaseline(ws, es, i - 1, false);
      assert Takes(ws, es, i - 1);
      NextAsks(ws[i - 1], es[i - 1]);
    }
  }

  /** As long as the store calls of the sign-ins succeed, no empty export ever completes a baseline wrongly. */
  lemma FaithfulSignInsNeverHollow(ws: seq<World>, es: seq<Event>, i: nat)
    requires RunFromStart(ws, es) && i < |es| && forall k :: 0 <= k < i ==> FaithfulSignIn(ws[k], es[k])
    ensures !HollowsBaseline(ws[i], es[i])
  {
    RunsAsk(ws, es, i);
  }
}
