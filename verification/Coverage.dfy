/** No committed usage is forgotten: it stays inside the pending scope or inside a later export. */
module Coverage {
  import opened Basics
  import opened CommittedUploads
  import Delivery
  import DeliveryRuns
  import opened OutboxStore
  import opened Scopes
  import opened SyncMachine

  /** A merged commit: whose it is, its upload scope, and how many exports its account had by then. */
  datatype CommitRecord = CommitRecord(user: string, scope: UploadScope, mark: nat)

  function PendingScopeOf(s: StoreState, account: Account): Option<UploadScope>
  {
    if account in s.states then s.states[account].pendingScope else None
  }

  /** The scope the next generation of the user exports: the pending one, or everything when there is none. */
  function ScopeToExport(w: World, user: string): UploadScope
  {
    var pending := PendingScopeOf(w.store, AccountFor(w.config, user));
    if pending.Some? then pending.value else Full
  }

  predicate PendingCovers(w: World, user: string, key: string, day: int)
  {
    var pending := PendingScopeOf(w.store, AccountFor(w.config, user));
    pending.Some? && Covers(pending.value, key, day)
  }

  predicate ExportedSince(w: World, user: string, mark: nat, key: string, day: int)
  {
    exists i :: mark <= i < |ExportsOf(w.history, user)| && Covers(ExportsOf(w.history, user)[i].scope, key, day)
  }

  /** The usage of `key` on `day`, merged with commit `c`, still waits to be exported or was exported since. */
  predicate Remembered(w: World, c: CommitRecord, key: string, day: int)
  {
    PendingCovers(w, c.user, key, day) || ExportedSince(w, c.user, c.mark, key, day)
  }

  predicate Capturing(w: World)
  {
    w.worker.Registering? && w.worker.cause.ForGeneration?
  }

  /** A generation about to be cut from an already loaded scope loses nothing of commit `c`. */
  predicate CaptureKeeps(w: World, c: CommitRecord, key: string, day: int)
  {
    Capturing(w) && w.worker.account == AccountFor(w.config, c.user) ==>
      Covers(w.worker.cause.scope, key, day) || ExportedSince(w, c.user, c.mark, key, day)
  }

  ghost predicate ScopesValid(w: World)
  {
    && (forall account | account in w.store.states && w.store.states[account].pendingScope.Some? ::
          Valid(w.store.states[account].pendingScope.value))
    && (Capturing(w) ==> Valid(w.worker.cause.scope))
  }

  ghost predicate CommitKept(w: World, c: CommitRecord)
  {
    && c.mark <= |ExportsOf(w.history, c.user)|
    && forall key, day :: Covers(c.scope, key, day) ==> Remembered(w, c, key, day) && CaptureKeeps(w, c, key, day)
  }

  /** Every scope in use is well formed, and commit `c`, if one is followed, is kept. */
  ghost predicate CoverageInv(w: World, c: Option<CommitRecord>)
  {
    ScopesValid(w) && (c.Some? ==> CommitKept(w, c.value))
  }

  /** Pending scopes only grow, exports stay, and no new capture starts. */
  ghost predicate ScopesGrow(w: World, v: World)
  {
    && v.config == w.config && v.history.exports == w.history.exports
    && (forall user, key, day :: PendingCovers(w, user, key, day) ==> PendingCovers(v, user, key, day))
    && ScopesValid(v)
    && (Capturing(v) ==> v.worker == w.worker)
  }

  lemma GrowthKeepsCoverage(w: World, v: World, c: Option<CommitRecord>)
    requires CoverageInv(w, c) && ScopesGrow(w, v)
    ensures CoverageInv(v, c)
  {
    if c.Some? {
      var c := c.value;
      assert ExportsOf(v.history, c.user) == ExportsOf(w.history, c.user);
      forall key, day | Covers(c.scope, key, day) ensures Remembered(v, c, key, day) && CaptureKeeps(v, c, key, day) {
        assert Remembered(w, c, key, day) && CaptureKeeps(w, c, key, day);
      }
    }
  }

  /** Store writes that leave every pending scope alone. */
  ghost predicate PendingSame(s: StoreState, t: StoreState)
  {
    forall account :: PendingScopeOf(t, account) == PendingScopeOf(s, account)
  }

  lemma SamePendingKeeps(w: World, v: World, c: Option<CommitRecord>)
    requires CoverageInv(w, c) && v.config == w.config && v.history.exports == w.history.exports
    requires PendingSame(w.store, v.store) && (Capturing(v) ==> v.worker == w.worker)
    ensures CoverageInv(v, c)
  {
    forall account | account in v.store.states && v.store.states[account].pendingScope.Some?
      ensures Valid(v.store.states[account].pendingScope.value)
    {
      assert PendingScopeOf(v.store, account) == PendingScopeOf(w.store, account);
    }
    forall user, key, day | PendingCovers(w, user, key, day) ensures PendingCovers(v, user, key, day) {
      var account := AccountFor(w.config, user);
      assert PendingScopeOf(v.store, account) == PendingScopeOf(w.store, account);
    }
    GrowthKeepsCoverage(w, v, c);
  }

  lemma SettledCoverage(w: World, v: World, c: Option<CommitRecord>)
    requires CoverageInv(w, c) && Delivery.Settled(w, v)
    ensures CoverageInv(v, c)
  {
    SamePendingKeeps(w, v, c);
  }

  lemma MergeKeepsCoverage(w: World, account: Account, scope: UploadScope, c: Option<CommitRecord>)
    requires CoverageInv(w, c) && Valid(scope)
    ensures CoverageInv(w.(store := MergedPending(w.store, account, scope)), c)
    ensures var after := PendingScopeOf(MergedPending(w.store, account, scope), account);
            after.Some? && forall key, day :: Covers(scope, key, day) ==> Covers(after.value, key, day)
  {
    var v := w.(store := MergedPending(w.store, account, scope));
    var prior := EnsuredState(w.store, account).pendingScope;
    if prior.Some? {
      MergeIsLeastUpperBound(prior.value, scope, Full);
    }
    forall user, key, day | PendingCovers(w, user, key, day) ensures PendingCovers(v, user, key, day) {
      if AccountFor(w.config, user) == account { assert Covers(prior.value, key, day); }
    }
    GrowthKeepsCoverage(w, v, c);
  }

  // ---- generations ------------------------------------------------------------------------

  /** Starting a capture: the scope taken is the pending one, or everything. */
  lemma CaptureStarts(w: World, epoch: nat, user: string, at: int, scope: UploadScope, baseline: BaselineStatus,
                      c: Option<CommitRecord>)
    requires CoverageInv(w, c)
    requires var pending := PendingScopeOf(w.store, AccountFor(w.config, user));
             scope == if pending.Some? then pending.value else Full
    ensures var worker := Registering(epoch, AccountFor(w.config, user), at, ForGeneration(scope, baseline));
            CoverageInv(w.(worker := worker), c)
  {
    var v := w.(worker := Registering(epoch, AccountFor(w.config, user), at, ForGeneration(scope, baseline)));
    if c.Some? {
      var c := c.value;
      forall key, day | Covers(c.scope, key, day) ensures Remembered(v, c, key, day) && CaptureKeeps(v, c, key, day) {
        assert Remembered(w, c, key, day);
      }
    }
  }

  /** Storing the generation of a captured scope: what leaves the pending scope is in the new export. */
  lemma GenerationKeepsCoverage(w: World, input: GenerationInput, scope: UploadScope, user: string,
                                c: Option<CommitRecord>)
    requires CoverageInv(w, c) && input.account == AccountFor(w.config, user) && input.clearPendingScope
    requires Capturing(w) && w.worker.account == input.account && w.worker.cause.scope == scope
    requires CreatedGeneration(w.store, input).Success?
    ensures CoverageInv(WithGeneration(w, input, CreatedGeneration(w.store, input).value, scope).(worker := NoWorker),
            c)
  {
    var v := WithGeneration(w, input, CreatedGeneration(w.store, input).value, scope).(worker := NoWorker);
    var before := ExportsOf(w.history, user);
    assert ExportsOf(v.history, user)[|before|].scope == scope;
    if c.Some? {
      var c := c.value;
      forall key, day | Covers(c.scope, key, day) ensures Remembered(v, c, key, day) {
        assert Remembered(w, c, key, day) && CaptureKeeps(w, c, key, day);
        if ExportedSince(w, c.user, c.mark, key, day) {
          var exports := ExportsOf(w.history, c.user);
          var k :| c.mark <= k < |exports| && Covers(exports[k].scope, key, day);
          assert ExportsOf(v.history, c.user)[k] == exports[k];
        } else if c.user != user {
          assert PendingCovers(v, c.user, key, day);
        }
      }
    }
  }

  lemma EmptyExportCoverage(w: World, account: Account, baseline: BaselineStatus, at: int, io: Io,
                            c: Option<CommitRecord>)
    requires CoverageInv(w, c) && w.worker == NoWorker && PendingScopeOf(w.store, account).None?
    ensures CoverageInv(AfterEmptyExport(w, account, baseline, at, io), c)
  {
    SamePendingKeeps(w, AfterEmptyExport(w, account, baseline, at, io), c);
  }

  lemma PlanKeepsCoverage(w: World, plan: Plan, user: string, baseline: BaselineStatus, at: int, io: Io,
                          c: Option<CommitRecord>)
    requires CoverageInv(w, c) && plan.input.account == AccountFor(w.config, user) && plan.input.clearPendingScope
    requires Capturing(w) && w.worker.account == plan.input.account && w.worker.cause.scope == plan.scope
    requires CreatedGeneration(w.store, plan.input) == Success(plan.store)
    ensures CoverageInv(AfterPlan(w, plan, baseline, at, io).(worker := NoWorker), c)
  {
    GenerationKeepsCoverage(w, plan.input, plan.scope, user, c);
    var made := WithGeneration(w, plan.input, plan.store, plan.scope);
    if plan.input.prepared == [] {
      EmptyExportCoverage(made.(worker := NoWorker), plan.input.account, baseline, at, io, c);
      EmptyExportForgetsWorker(made, NoWorker, plan.input.account, baseline, at, io);
    }
  }

  lemma MaterializeKeepsCoverage(w: World, epoch: nat, user: string, scope: UploadScope, baseline: BaselineStatus,
                                 at: int, io: Io, c: Option<CommitRecord>)
    requires CoverageInv(w, c) && w.control.running && Capturing(w)
    requires w.worker.account == AccountFor(w.config, user) && w.worker.cause.scope == scope
    ensures CoverageInv(Materialize(w, epoch, AccountFor(w.config, user), scope, baseline, at, io), c)
  {
    QueryIsTheScope(scope);
    match PlanGeneration(w.config, w.store, AccountFor(w.config, user), scope, at, io)
    case None => SettleCoverage(w, epoch, StoreFailure, io, c);
    case Some(plan) =>
      PlanKeepsCoverage(w, plan, user, baseline, at, io, c);
      var after := AfterPlan(w, plan, baseline, at, io);
      SettleCoverage(after.(worker := NoWorker), epoch, Continue, io, c);
      SettleForgetsWorker(after, NoWorker, epoch, Continue, io);
  }

  /** A step that materialises at once behaves as a capture with nothing in between. */
  lemma StepFromTopKeepsCoverage(w: World, epoch: nat, user: string, io: Io, c: Option<CommitRecord>)
    requires CoverageInv(w, c) && w.control.running && w.worker == AtTop(epoch)
    ensures CoverageInv(StepFromTop(w, epoch, AccountFor(w.config, user), io), c)
  {
    var account := AccountFor(w.config, user);
    match NextMove(w.store, account, io)
    case Finish(result) => SettleCoverage(w, epoch, result, io, c);
    case SendFirst(_) => SamePendingKeeps(w, StepFromTop(w, epoch, account, io), c);
    case EnsureAccount =>
      var ensured := if io.ensured then w.(store := Ensured(w.store, account)) else w;
      SamePendingKeeps(w, ensured, c);
      SettleCoverage(ensured, epoch, Continue, io, c);
    case CutGeneration(scope, baseline) =>
      CaptureStarts(w, epoch, user, w.now, scope, baseline, c);
      var captured := w.(worker := Registering(epoch, account, w.now, ForGeneration(scope, baseline)));
      MaterializeKeepsCoverage(captured, epoch, user, scope, baseline, w.now, io, c);
      MaterializeForgetsWorker(w, captured.worker, epoch, account, scope, baseline, w.now, io);
  }

  lemma SettleCoverage(w: World, epoch: nat, result: StepResult, io: Io, c: Option<CommitRecord>)
    requires CoverageInv(w, c) && w.control.running
    ensures CoverageInv(Settle(w, epoch, result, io), c)
  {
    Delivery.SettleSettles(w, epoch, result, io);
    SettledCoverage(w, Settle(w, epoch, result, io), c);
  }

  lemma SettleForgetsWorker(w: World, worker: Worker, epoch: nat, result: StepResult, io: Io)
    ensures Settle(w.(worker := worker), epoch, result, io) == Settle(w, epoch, result, io)
  {
  }

  lemma EmptyExportForgetsWorker(w: World, worker: Worker, account: Account, baseline: BaselineStatus, at: int, io: Io)
    ensures AfterEmptyExport(w.(worker := worker), account, baseline, at, io)
         == AfterEmptyExport(w, account, baseline, at, io).(worker := worker)
  {
  }

  lemma MaterializeForgetsWorker(w: World, worker: Worker, epoch: nat, account: Account, scope: UploadScope,
                                 baseline: BaselineStatus, at: int, io: Io)
    ensures Materialize(w.(worker := worker), epoch, account, scope, baseline, at, io)
         == Materialize(w, epoch, account, scope, baseline, at, io)
  {
    SettleForgetsWorker(w, worker, epoch, StoreFailure, io);
    match PlanGeneration(w.config, w.store, account, scope, at, io)
    case None =>
    case Some(plan) =>
      var made := WithGeneration(w, plan.input, plan.store, plan.scope);
      EmptyExportForgetsWorker(made, worker, plan.input.account, baseline, at, io);
      SettleForgetsWorker(AfterPlan(w, plan, baseline, at, io), worker, epoch, Continue, io);
  }

  // ---- the other steps of the worker ------------------------------------------------------

  lemma RemoteFailureCoverage(w: World, epoch: nat, account: Account, at: int, error: RemoteError, io: Io,
                              c: Option<CommitRecord>)
    requires CoverageInv(w, c) && w.control.running
    ensures CoverageInv(RemoteFailure(w, epoch, account, at, error, io), c)
  {
    var k := ClassifyRemoteError(error);
    var noted := w.(store := Recorded(w.store, account, at, Some(k.code), Some(k.retryable)));
    var recorded := if io.recorded then noted else w;
    SamePendingKeeps(w, recorded, c);
    SettleCoverage(recorded, epoch, if k.retryable then Backoff(SaturatingAdd(at, k.backoff)) else Terminal, io, c);
  }

  lemma AfterAcceptedCoverage(w: World, epoch: nat, account: Account, batch: OutboxBatch, io: Io,
                              c: Option<CommitRecord>)
    requires CoverageInv(w, c) && w.control.running
    ensures CoverageInv(AfterAccepted(w, epoch, account, batch, io), c)
  {
    SettleCoverage(w, epoch, StoreFailure, io, c);
    var taken := AcceptedBatch(w.store, account, batch.id, w.now);
    if taken.Success? {
      var accepted := w.(store := taken.value);
      SamePendingKeeps(w, accepted, c);
      SettleCoverage(accepted, epoch, StoreFailure, io, c);
      AcceptedTailCoverage(accepted, epoch, account, io, true, c);
      AcceptedTailCoverage(accepted, epoch, account, io, false, c);
    }
  }

  lemma AcceptedTailCoverage(w: World, epoch: nat, account: Account, io: Io, completes: bool, c: Option<CommitRecord>)
    requires CoverageInv(w, c) && w.control.running
    ensures var store := if completes then BaselineCompleted(w.store, account) else w.store;
            var noted := if io.recorded then Recorded(store, account, w.now, None, None) else store;
            CoverageInv(Settle(w.(store := noted), epoch, Continue, io), c)
  {
    var store := if completes then BaselineCompleted(w.store, account) else w.store;
    var v := w.(store := if io.recorded then Recorded(store, account, w.now, None, None) else store);
    SamePendingKeeps(w, v, c);
    SettleCoverage(v, epoch, Continue, io, c);
  }

  lemma PushReplyCoverage(w: World, reply: PushReply, io: Io, c: Option<CommitRecord>)
    requires CoverageInv(w, c) && w.control.running && w.worker.Pushing?
    ensures CoverageInv(Next(w, PushReplied(reply, io)), c)
  {
    hide Settle, RemoteFailure, AfterAccepted;
    var Pushing(epoch, account, batch, at) := w.worker;
    match reply
    case PushAccepted => AfterAcceptedCoverage(w, epoch, account, batch, io, c);
    case PushFailed(DeviceNotFound) =>
      SettleCoverage(w, epoch, Continue, io, c);
      var stored := w.(store := DeviceRegistered(w.store, account, "invalidate", 0));
      var invalidated := if io.registered then stored else w;
      SamePendingKeeps(w, invalidated, c);
      RemoteFailureCoverage(invalidated, epoch, account, at, Internal, io, c);
      SamePendingKeeps(invalidated, invalidated.(worker := Registering(epoch, account, at, Recovery)), c);
    case PushFailed(error) => RemoteFailureCoverage(w, epoch, account, at, error, io, c);
  }

  lemma DeviceReplyCoverage(w: World, reply: DeviceReply, io: Io, c: Option<CommitRecord>)
    requires CoverageInv(w, c) && Delivery.DeliveryInv(w) && w.worker.Registering?
    ensures CoverageInv(Next(w, DeviceReplied(reply, io)), c)
  {
    hide Settle, RemoteFailure, Materialize;
    var Registering(epoch, account, at, cause) := w.worker;
    match reply
    case RegisterFailed(error) => RemoteFailureCoverage(w, epoch, account, at, error, io, c);
    case Registered =>
      var stored := w.(store := DeviceRegistered(w.store, account, w.config.fingerprint, 1));
      var known := if io.registered then stored else w;
      SamePendingKeeps(w, known, c);
      match cause
      case ForBatch(batch) => SamePendingKeeps(known, known.(worker := ReadyToPush(epoch, account, batch, at)), c);
      case ForGeneration(scope, baseline) =>
        MaterializeKeepsCoverage(known, epoch, account.userId, scope, baseline, at, io, c);
      case Recovery => SettleCoverage(known, epoch, Continue, io, c);
  }

  // ---- commits and sign-ins ---------------------------------------------------------------

  lemma CommitKeepsCoverage(w: World, upload: CommittedDailyUpload, io: Io, c: Option<CommitRecord>)
    requires CoverageInv(w, c)
    ensures CoverageInv(CommitHandler(w, upload, io), c)
  {
    SamePendingKeeps(w, Kick(w, io), c);
    var scope := UploadScopeOf(upload);
    if scope.Some? && AccountKey(w).Some? && io.merged {
      UploadScopeIsValid(upload);
      MergeKeepsCoverage(w, AccountKey(w).value, scope.value, c);
      var merged := w.(store := MergedPending(w.store, AccountKey(w).value, scope.value));
      SamePendingKeeps(merged, Kick(merged, io), c);
    }
  }

  lemma MergeForAllKeepsCoverage(w: World, scope: UploadScope, io: Io, c: Option<CommitRecord>)
    requires CoverageInv(w, c) && Valid(scope)
    ensures CoverageInv(MergeForAllHandler(w, scope, io), c)
    ensures forall account, key, day :: io.merged && account in w.store.states && Covers(scope, key, day) ==>
              var pending := PendingScopeOf(MergeForAllHandler(w, scope, io).store, account);
              pending.Some? && Covers(pending.value, key, day)
  {
    var merged := w.(store := MergedForAll(w.store, scope));
    forall account | account in w.store.states
      ensures var pending := PendingScopeOf(merged.store, account);
              && pending.Some? && Valid(pending.value)
              && forall key, day :: Covers(scope, key, day) ==> Covers(pending.value, key, day)
      ensures var prior := w.store.states[account].pendingScope;
              forall key, day :: prior.Some? && Covers(prior.value, key, day) ==>
                Covers(PendingScopeOf(merged.store, account).value, key, day)
    {
      var prior := w.store.states[account].pendingScope;
      if prior.Some? { MergeIsLeastUpperBound(prior.value, scope, Full); }
    }
    GrowthKeepsCoverage(w, merged, c);
    SamePendingKeeps(if io.merged then merged else w, MergeForAllHandler(w, scope, io), c);
  }

  lemma SignedInCoverage(w: World, user: string, io: Io, c: Option<CommitRecord>)
    requires CoverageInv(w, c)
    ensures CoverageInv(SignedInHandler(w, user, io), c)
  {
    var stored := w;
    if AccountKey(w).Some? {
      var account := AccountKey(w).value;
      var ensured := w.(store := if io.ensured then Ensured(w.store, account) else w.store);
      SamePendingKeeps(w, ensured, c);
      MergeKeepsCoverage(ensured, account, Full, c);
      stored := w.(store := SignInStore(w.store, account, io));
    }
    SamePendingKeeps(stored, SignedInHandler(w, user, io), c);
  }

  /** No transition forgets a commit it has once kept, whatever else is committed meanwhile. */
  lemma NextKeepsCoverage(w: World, e: Event, c: Option<CommitRecord>)
    requires CoverageInv(w, c) && Delivery.DeliveryInv(w) && Enabled(w, e)
    ensures CoverageInv(Next(w, e), c)
  {
    match e
    case SignedIn(user, io) => SignedInCoverage(w, user, io, c);
    case SignIn(user, io) =>
      SamePendingKeeps(w, w.(session := Some(user)), c);
      SignedInCoverage(w.(session := Some(user)), user, io, c);
    case Commit(upload, io) => CommitKeepsCoverage(w, upload, io, c);
    case MergeForAll(scope, io) => MergeForAllKeepsCoverage(w, scope, io, c);
    case Advance(io) =>
      match w.worker {
        case AtTop(epoch) =>
          Delivery.ExitSettles(w, epoch, ExitStopped, io);
          Delivery.ExitSettles(w, epoch, ExitBackoff, io);
          SettledCoverage(w, Exit(w, epoch, ExitStopped, io), c);
          SettledCoverage(w, Exit(w, epoch, ExitBackoff, io), c);
          if AccountKey(w).Some? { StepFromTopKeepsCoverage(w, epoch, w.session.value, io, c); }
        case _ => SamePendingKeeps(w, Next(w, e), c);
      }
    case DeviceReplied(reply, io) => DeviceReplyCoverage(w, reply, io, c);
    case PushReplied(reply, io) => PushReplyCoverage(w, reply, io, c);
    case _ => SamePendingKeeps(w, Next(w, e), c);
  }

  lemma InitialCoverage(w: World)
    requires Initial(w)
    ensures CoverageInv(w, None)
  {
  }

  lemma {:induction false} RunsKeepCoverage(ws: seq<World>, es: seq<Event>, i: nat, j: nat, c: Option<CommitRecord>)
    requires RunFromStart(ws, es) && i <= j < |ws| && CoverageInv(ws[i], c)
    ensures CoverageInv(ws[j], c)
  {
    if i < j {
      RunsKeepCoverage(ws, es, i, j - 1, c);
      DeliveryRuns.RunsKeepDelivery(ws, es, j - 1);
      assert Takes(ws, es, j - 1);
      NextKeepsCoverage(ws[j - 1], es[j - 1], c);
    }
  }

  // ---- what a commit can rely on ----------------------------------------------------------

  /**
   * What the caller of a commit can look at: no generation for this account is between loading its
   * scope and storing its batches, or that scope already holds everything committed.
   */
  predicate QuietCommit(w: World, account: Account, scope: UploadScope)
  {
    Capturing(w) && w.worker.account == account ==> FieldsWithin(scope, w.worker.cause.scope)
  }

  /** A merged commit, as it enters the record. */
  function RecordOf(w: World, account: Account, scope: UploadScope): CommitRecord
  {
    CommitRecord(account.userId, scope, |ExportsOf(w.history, account.userId)|)
  }

  lemma QuietCommitIsKept(w: World, upload: CommittedDailyUpload, io: Io)
    requires CoverageInv(w, None) && UploadScopeOf(upload).Some? && AccountKey(w).Some? && io.merged
    requires QuietCommit(w, AccountKey(w).value, UploadScopeOf(upload).value)
    ensures var c := RecordOf(w, AccountKey(w).value, UploadScopeOf(upload).value);
            CoverageInv(CommitHandler(w, upload, io), Some(c))
  {
    var account, scope := AccountKey(w).value, UploadScopeOf(upload).value;
    var c := RecordOf(w, account, scope);
    UploadScopeIsValid(upload);
    MergeKeepsCoverage(w, account, scope, None);
    var merged := w.(store := MergedPending(w.store, account, scope));
    forall key, day | Covers(scope, key, day)
      ensures Remembered(merged, c, key, day) && CaptureKeeps(merged, c, key, day)
    {
      assert PendingCovers(merged, c.user, key, day);
      if Capturing(w) && w.worker.account == account { WithinIsStructural(scope, w.worker.cause.scope); }
    }
    SamePendingKeeps(merged, Kick(merged, io), Some(c));
  }

  /**
   * From a refresh's committed targets to the outbox: at every later point of the run, every day of every
   * committed target is in the account's pending scope or in the query of an export taken after the commit,
   * whatever other commits, sign-ins, failures and restarts come after it.
   */
  lemma NoCommittedUsageIsForgotten(ws: seq<World>, es: seq<Event>, i: nat, j: nat, t: nat, day: int)
    requires RunFromStart(ws, es) && i < j < |ws| && es[i].Commit? && es[i].io.merged && AccountKey(ws[i]).Some?
    requires var targets := es[i].upload.targets;
             && t < |targets| && targets[t].startDate <= day <= targets[t].endDate
             && forall k :: 0 <= k < |targets| ==> WellFormed(targets[k])
    requires KeepsEarlyHistory(es[i].upload)
    requires var scope := UploadScopeOf(es[i].upload);
             scope.Some? ==> QuietCommit(ws[i], AccountKey(ws[i]).value, scope.value)
    ensures UploadScopeOf(es[i].upload).Some?
    ensures var c := RecordOf(ws[i], AccountKey(ws[i]).value, UploadScopeOf(es[i].upload).value);
            Remembered(ws[j], c, es[i].upload.targets[t].sourceKey, day)
  {
    var upload := es[i].upload;
    CommittedTargetsAreCovered(upload);
    assert HandsOver(upload, upload.targets[t].sourceKey, day);
    var c := RecordOf(ws[i], AccountKey(ws[i]).value, UploadScopeOf(upload).value);
    InitialCoverage(ws[0]);
    RunsKeepCoverage(ws, es, 0, i, None);
    assert Takes(ws, es, i);
    QuietCommitIsKept(ws[i], upload, es[i].io);
    RunsKeepCoverage(ws, es, i + 1, j, Some(c));
    assert CommitKept(ws[j], c);
  }

  lemma QuietRepairIsKept(w: World, scope: UploadScope, io: Io, user: string)
    requires CoverageInv(w, None) && Valid(scope) && io.merged && AccountFor(w.config, user) in w.store.states
    requires QuietCommit(w, AccountFor(w.config, user), scope)
    ensures CoverageInv(MergeForAllHandler(w, scope, io), Some(RecordOf(w, AccountFor(w.config, user), scope)))
  {
    var account := AccountFor(w.config, user);
    var c := RecordOf(w, account, scope);
    var v := MergeForAllHandler(w, scope, io);
    MergeForAllKeepsCoverage(w, scope, io, None);
    forall key, day | Covers(scope, key, day) ensures Remembered(v, c, key, day) && CaptureKeeps(v, c, key, day) {
      assert PendingCovers(v, c.user, key, day);
      if Capturing(w) && w.worker.account == account { WithinIsStructural(scope, w.worker.cause.scope); }
    }
  }

  /** The scope of a baseline repair reaches every known account, signed in or not, and is not forgotten there. */
  lemma RepairReachesEveryAccount(ws: seq<World>, es: seq<Event>, i: nat, j: nat, user: string, key: string, day: int)
    requires RunFromStart(ws, es) && i < j < |ws| && es[i].MergeForAll? && es[i].io.merged
    requires AccountFor(ws[i].config, user) in ws[i].store.states && Covers(es[i].scope, key, day)
    requires QuietCommit(ws[i], AccountFor(ws[i].config, user), es[i].scope)
    ensures Remembered(ws[j], RecordOf(ws[i], AccountFor(ws[i].config, user), es[i].scope), key, day)
  {
    var c := RecordOf(ws[i], AccountFor(ws[i].config, user), es[i].scope);
    InitialCoverage(ws[0]);
    RunsKeepCoverage(ws, es, 0, i, None);
    assert Takes(ws, es, i);
    QuietRepairIsKept(ws[i], es[i].scope, es[i].io, user);
    RunsKeepCoverage(ws, es, i + 1, j, Some(c));
    assert CommitKept(ws[j], c);
  }

  // ---- late commits -----------------------------------------------------------------------

  /**
   * After a generation of the captured scope, a commit merged just before it is remembered where that scope covers it.
   */
  lemma MaterializedRemembers(w: World, epoch: nat, user: string, scope: UploadScope, baseline: BaselineStatus, at: int,
                              io: Io, c: CommitRecord, key: string, day: int)
    requires PlanGeneration(w.config, w.store, AccountFor(w.config, user), scope, at, io).Some? && Valid(scope)
    requires c.user == user && c.mark == |ExportsOf(w.history, user)|
    ensures Remembered(Materialize(w, epoch, AccountFor(w.config, user), scope, baseline, at, io), c, key, day)
            <==> Covers(scope, key, day)
  {
    var account := AccountFor(w.config, user);
    var plan := PlanGeneration(w.config, w.store, account, scope, at, io).value;
    QueryIsTheScope(scope);
    var v := Materialize(w, epoch, account, scope, baseline, at, io);
    var after := AfterPlan(w, plan, baseline, at, io);
    assert OnlyControl(after, v);
    var exports := ExportsOf(after.history, user);
    assert exports == ExportsOf(w.history, user) + [ExportRecord(scope, exports[c.mark].upTo)];
    assert PendingScopeOf(after.store, account) == None;
    assert ExportsOf(v.history, user)[c.mark].scope == scope;
  }

  /** A commit between the load and the creation: the generation is cut from the old scope. */
  lemma CommitBeforeReply(w: World, upload: CommittedDailyUpload, io: Io, late: Io)
    requires Capturing(w) && AccountKey(w) == Some(w.worker.account) && UploadScopeOf(upload).Some? && io.merged
    requires w.control.running
    ensures var merged := Next(w, Commit(upload, io)); var Registering(epoch, account, at, cause) := w.worker;
            var stored := merged.(store := DeviceRegistered(merged.store, account, w.config.fingerprint, 1));
            && merged.history == w.history && merged.config == w.config
            && Next(merged, DeviceReplied(Registered, late))
               == Materialize(if late.registered then stored
                   else merged, epoch, account, cause.scope, cause.baseline, at, late)
  {
    var merged := Next(w, Commit(upload, io));
    assert merged.worker == w.worker;
  }

  /**
   * The limit of that promise, exactly: a commit that arrives after the worker has loaded the scope and
   * before it stores the generation survives the generation if and only if the loaded scope contains it.
   */
  lemma LateCommitSurvivesExactlyWhen(w: World, upload: CommittedDailyUpload, io: Io, late: Io)
    requires CoverageInv(w, None) && Delivery.DeliveryInv(w) && Capturing(w) && AccountKey(w) == Some(w.worker.account)
    requires UploadScopeOf(upload).Some? && io.merged
    requires var merged := Next(w, Commit(upload, io)).store; var Registering(_, account, at, cause) := w.worker;
             var known :=
               if late.registered then DeviceRegistered(merged, account, w.config.fingerprint, 1) else merged;
             PlanGeneration(w.config, known, account, cause.scope, at, late).Some?
    ensures var account, scope := w.worker.account, UploadScopeOf(upload).value;
            var v := Next(Next(w, Commit(upload, io)), DeviceReplied(Registered, late));
            (forall key, day :: Covers(scope, key, day) ==> Remembered(v, RecordOf(w, account, scope), key, day))
            <==> QuietCommit(w, account, scope)
  {
    var Registering(epoch, account, at, ForGeneration(captured, baseline)) := w.worker;
    var scope := UploadScopeOf(upload).value;
    var c := RecordOf(w, account, scope);
    CommitBeforeReply(w, upload, io, late);
    UploadScopeIsValid(upload);
    WithinIsStructural(scope, captured);
    var merged := Next(w, Commit(upload, io));
    var stored := merged.(store := DeviceRegistered(merged.store, account, w.config.fingerprint, 1));
    var known := if late.registered then stored else merged;
    forall key, day
      ensures Remembered(Materialize(known, epoch, account, captured, baseline, at, late), c, key, day)
              <==> Covers(captured, key, day)
    {
      MaterializedRemembers(known, epoch, account.userId, captured, baseline, at, late, c, key, day);
    }
  }
}
