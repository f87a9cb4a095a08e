/** What the outbox and the server hold: exactly the exported facts, put in order and cut. */
module Contents {
  import opened Basics
  import Baseline
  import opened Batches
  import Coverage
  import opened Delivery
  import opened DeliveryRuns
  import opened OutboxStore
  import Scopes
  import opened SyncMachine

  // ---- facts inside batches ---------------------------------------------------------------

  /** The facts of a list of batches, put end to end. */
  function BatchFacts(batches: seq<OutboxBatch>): seq<Fact>
  {
    Flatten(seq(|batches|, i requires 0 <= i < |batches| => batches[i].requestBody.facts))
  }

  /** The facts of a list of applied requests, put end to end. */
  function LogFacts(log: seq<Push>): seq<Fact>
  {
    Flatten(seq(|log|, i requires 0 <= i < |log| => log[i].body.facts))
  }

  /** Ascending by date, and on one date by identity key. */
  predicate InOrder(facts: seq<Fact>)
  {
    forall i, j :: 0 <= i < j < |facts| ==>
      && LexLe(facts[i].usageDate, facts[j].usageDate)
      && (facts[i].usageDate == facts[j].usageDate ==> LexLe(facts[i].identityKey, facts[j].identityKey))
  }

  /** `sorted` holds exactly the given facts, in order, those of equal date and key in the given order. */
  ghost predicate SortedCopy(sorted: seq<Fact>, facts: seq<Fact>)
  {
    multiset(sorted) == multiset(facts) && InOrder(sorted) && forall f :: Alike(sorted, f) == Alike(facts, f)
  }

  /** Number `index` of the `count` batches of one export of `scope`. */
  ghost predicate BatchOfExport(config: Config, scope: Scopes.UploadScope, b: OutboxBatch, index: nat, count: nat)
  {
    var body := b.requestBody;
    && b.status == Pending && b.batchIndex == Min(index, 0xFFFF_FFFF) && b.batchCount == Min(count, 0xFFFF_FFFF)
    && body.clientDeviceId == config.deviceId && body.appVersion == config.appVersion
    && body.reportingTimezone == config.reportingTimezone
    && b.windowScope == body.windowScope == (if scope.Full? then WireFull else WireIncremental)
    && 1 <= |body.facts| <= 1000 && (forall k :: 0 <= k < |body.facts| ==> |body.facts[k].models| <= 100)
    && b.windowStart == body.windowStart && b.windowEnd == body.windowEnd
    && (forall k :: 0 <= k < |body.facts| ==>
          LexLe(body.windowStart, body.facts[k].usageDate) && LexLe(body.facts[k].usageDate, body.windowEnd))
    && (exists k :: 0 <= k < |body.facts| && body.facts[k].usageDate == body.windowStart)
    && (exists k :: 0 <= k < |body.facts| && body.facts[k].usageDate == body.windowEnd)
  }

  /** The batches of one export: nothing lost, nothing added, nothing twice, nothing out of order. */
  ghost predicate HoldExport(config: Config, scope: Scopes.UploadScope, batches: seq<OutboxBatch>, facts: seq<Fact>)
  {
    && SortedCopy(BatchFacts(batches), facts)
    && forall i :: 0 <= i < |batches| ==> BatchOfExport(config, scope, batches[i], i, |batches|)
  }

  lemma BatchFactsAppend(xs: seq<OutboxBatch>, ys: seq<OutboxBatch>)
    ensures BatchFacts(xs + ys) == BatchFacts(xs) + BatchFacts(ys)
  {
    var fs := seq(|xs|, i requires 0 <= i < |xs| => xs[i].requestBody.facts);
    var gs := seq(|ys|, i requires 0 <= i < |ys| => ys[i].requestBody.facts);
    var hs := seq(|xs + ys|, i requires 0 <= i < |xs + ys| => (xs + ys)[i].requestBody.facts);
    assert hs == fs + gs;
    FlattenAppend(fs, gs);
  }

  lemma SortedIsInOrder(facts: seq<Fact>)
    requires Sorted(facts)
    ensures InOrder(facts)
  {
    forall i, j | 0 <= i < j < |facts|
      ensures LexLe(facts[i].usageDate, facts[j].usageDate)
      ensures facts[i].usageDate == facts[j].usageDate ==> LexLe(facts[i].identityKey, facts[j].identityKey)
    {
      assert FactLe(facts[i], facts[j]);
      FactOrder(facts[i], facts[j], facts[j]);
    }
  }

  // ---- one generation ---------------------------------------------------------------------

  lemma BuiltFacts(facts: seq<Fact>, meta: BatchMeta, first: int, keys: seq<string>)
    requires Build(facts, meta, BACKEND_V1, first, keys).Success?
    ensures SortedCopy(Flatten(BodyFacts(Build(facts, meta, BACKEND_V1, first, keys).value)), facts)
  {
    var all := Flatten(BodyFacts(Build(facts, meta, BACKEND_V1, first, keys).value));
    forall f ensures multiset(all) == multiset(facts) && Sorted(all) && Alike(all, f) == Alike(facts, f) {
      BatchesSpellTheStableOrder(facts, meta, BACKEND_V1, first, keys, f);
    }
    BatchesSpellTheStableOrder(facts, meta, BACKEND_V1, first, keys, Fact("", "", "", [], ""));
    SortedIsInOrder(all);
  }

  /** Every fact of a body was exported, so it has no more models than the contract allows. */
  lemma BuiltModels(facts: seq<Fact>, meta: BatchMeta, first: int, keys: seq<string>, i: nat, k: nat)
    requires Build(facts, meta, BACKEND_V1, first, keys).Success?
    requires var r := Build(facts, meta, BACKEND_V1, first, keys).value; i < |r| && k < |r[i].requestBody.facts|
    ensures |Build(facts, meta, BACKEND_V1, first, keys).value[i].requestBody.facts[k].models| <= 100
  {
    hide Build, WellCut;
    var r := Build(facts, meta, BACKEND_V1, first, keys).value;
    var f := r[i].requestBody.facts[k];
    BuiltFacts(facts, meta, first, keys);
    FlattenMember(BodyFacts(r), i, k);
    assert f in multiset(Flatten(BodyFacts(r)));
    assert f in multiset(facts);
    var m :| 0 <= m < |facts| && facts[m] == f;
    BuildFailsExactlyWhen(facts, meta, BACKEND_V1, first, keys);
  }

  lemma NewBatchFacts(input: GenerationInput, firstId: int)
    ensures BatchFacts(NewBatches(input, firstId)) == Flatten(BodyFacts(input.prepared))
  {
    var batches := NewBatches(input, firstId);
    assert seq(|batches|, i requires 0 <= i < |batches| => batches[i].requestBody.facts) == BodyFacts(input.prepared);
  }

  lemma PlannedBatchesHoldExport(config: Config, store: StoreState, account: Account, scope: Scopes.UploadScope,
                                 at: int,
                                 io: Io)
    requires PlanGeneration(config, store, account, scope, at, io).Some?
    ensures var plan := PlanGeneration(config, store, account, scope, at, io).value;
            && io.exported.Some? && plan.input.account == account && plan.input.clearPendingScope
            && HoldExport(config, scope, NewBatches(plan.input, store.nextId), io.exported.value)
  {
    hide PlanGeneration, Build, SortedCopy, BatchOfExport;
    var plan := PlanGeneration(config, store, account, scope, at, io).value;
    PlanIsBuilt(config, store, account, scope, at, io);
    var facts, meta, first := io.exported.value, MetaOf(config, scope), store.states[account].nextClientRevision;
    var batches := NewBatches(plan.input, store.nextId);
    BuiltFacts(facts, meta, first, io.keys);
    NewBatchFacts(plan.input, store.nextId);
    forall i | 0 <= i < |batches| ensures BatchOfExport(config, scope, batches[i], i, |batches|) {
      PlannedBatchIsShaped(config, store, account, scope, at, io, i);
    }
  }

  lemma PlanIsBuilt(config: Config, store: StoreState, account: Account, scope: Scopes.UploadScope, at: int, io: Io)
    requires PlanGeneration(config, store, account, scope, at, io).Some?
    ensures account in store.states && io.exported.Some?
    ensures var plan := PlanGeneration(config, store, account, scope, at, io).value;
            var built :=
              Build(io.exported.value, MetaOf(config, scope), BACKEND_V1, store.states[account].nextClientRevision,
                  io.keys);
            && built == Success(plan.input.prepared) && plan.input.account == account && plan.input.clearPendingScope
            && CreatedGeneration(store, plan.input) == Success(plan.store)
            && Scopes.ExportQuery(scope) == Success(plan.scope)
  {
    hide Build;
  }

  lemma PlannedBatchIsShaped(config: Config, store: StoreState, account: Account, scope: Scopes.UploadScope, at: int,
                             io: Io, i: nat)
    requires PlanGeneration(config, store, account, scope, at, io).Some?
    requires i < |PlanGeneration(config, store, account, scope, at, io).value.input.prepared|
    ensures var plan := PlanGeneration(config, store, account, scope, at, io).value;
            BatchOfExport(config, scope, NewBatch(plan.input, plan.input.prepared[i], store.nextId + i), i,
              |plan.input.prepared|)
  {
    hide PlanGeneration, Build, Scopes.ExportQuery;
    var plan := PlanGeneration(config, store, account, scope, at, io).value;
    PlanIsBuilt(config, store, account, scope, at, io);
    var facts, meta, first := io.exported.value, MetaOf(config, scope), store.states[account].nextClientRevision;
    BatchesAreWellCut(facts, meta, BACKEND_V1, first, io.keys);
    assert WellCut(plan.input.prepared, i, meta, BACKEND_V1, first, io.keys);
    forall k | 0 <= k < |plan.input.prepared[i].requestBody.facts|
      ensures |plan.input.prepared[i].requestBody.facts[k].models| <= 100
    {
      BuiltModels(facts, meta, first, io.keys, i, k);
    }
  }

  // ---- one transition ---------------------------------------------------------------------

  /** A generation waiting for its device registration took the pending scope and the stored status of its account. */
  lemma CaptureTakesPendingScope(ws: seq<World>, es: seq<Event>, i: nat)
    requires RunFromStart(ws, es) && i < |es| && Coverage.Capturing(ws[i + 1]) && !Coverage.Capturing(ws[i])
    ensures var w, worker := ws[i], ws[i + 1].worker; var user := worker.account.userId;
            && worker.account == AccountFor(w.config, user) && w.session == Some(user) == w.control.active
            && worker.cause.scope == Coverage.ScopeToExport(w, user)
            && worker.cause.baseline == Baseline.StatusOf(w, user)
            && worker.epoch == w.control.epoch && PendingOf(w.store.batches, worker.account) == []
  {
    hide Materialize, Settle, RemoteFailure, AfterAccepted, SignedInHandler, CommitHandler, MergeForAllHandler;
    assert Takes(ws, es, i);
    var w, e := ws[i], es[i];
    match e
    case SignedIn(_, _) => KeepsCapture(w, e);
    case SignIn(_, _) => KeepsCapture(w, e);
    case Commit(_, _) => KeepsCapture(w, e);
    case MergeForAll(_, _) => KeepsCapture(w, e);
    case DeviceReplied(_, _) => KeepsCapture(w, e);
    case PushReplied(_, _) => KeepsCapture(w, e);
    case Advance(io) =>
      if w.worker.AtTop? && MayStep(w, w.worker.epoch) && !BackingOff(w) {
        var account := AccountKey(w).value;
        match NextMove(w.store, account, io)
        case Finish(result) => Baseline.SettleLeavesUser(w, w.worker.epoch, result, io);
        case EnsureAccount =>
          var ensured := if io.ensured then w.(store := Ensured(w.store, account)) else w;
          Baseline.SettleLeavesUser(ensured, w.worker.epoch, Continue, io);
        case SendFirst(_) =>
        case CutGeneration(scope, baseline) =>
          Baseline.MaterializeLeavesUser(w, w.worker.epoch, account, scope, baseline, w.now, io);
      }
    case _ =>
  }

  /** Only a worker at the loop head starts to wait with a generation. */
  lemma KeepsCapture(w: World, e: Event)
    requires Enabled(w, e) && !e.Advance? && !Coverage.Capturing(w)
    ensures !Coverage.Capturing(Next(w, e))
  {
    hide Settle, RemoteFailure, AfterAccepted, Materialize;
    match e
    case DeviceReplied(reply, io) =>
      if reply.RegisterFailed? || !w.worker.cause.ForGeneration? { Baseline.ReplyLeavesUser(w, reply, io); }
    case PushReplied(reply, io) =>
      var Pushing(epoch, account, batch, at) := w.worker;
      var stored := w.(store := DeviceRegistered(w.store, account, "invalidate", 0));
      Baseline.AfterAcceptedLeavesUser(w, epoch, account, batch, io);
      Baseline.SettleLeavesUser(w, epoch, Continue, io);
      Baseline.RemoteFailureLeavesUser(if io.registered then stored else w, epoch, account, at, Internal, io);
      if reply.PushFailed? { Baseline.RemoteFailureLeavesUser(w, epoch, account, at, reply.error, io); }
    case _ =>
  }

  // ---- what a transition adds to the records ----------------------------------------------

  /** The generation this transition stores, if it stores one. */
  function PlanBy(w: World, e: Event): Option<Plan>
  {
    match Baseline.CutBy(w, e)
    case None => None
    case Some(cut) => PlanGeneration(w.config, cut.store, cut.account, cut.scope, cut.at, cut.io)
  }

  lemma RemoteFailureAddsNothing(w: World, epoch: nat, account: Account, at: int, error: RemoteError, io: Io)
    ensures RemoteFailure(w, epoch, account, at, error, io).history == w.history
  {
    hide Settle;
  }

  lemma AfterAcceptedAddsNothing(w: World, epoch: nat, account: Account, batch: OutboxBatch, io: Io)
    ensures AfterAccepted(w, epoch, account, batch, io).history == w.history
  {
    hide Settle;
  }

  lemma MaterializeAddsPlan(w: World, epoch: nat, account: Account, scope: Scopes.UploadScope, baseline: BaselineStatus,
                            at: int, io: Io)
    ensures var plan := PlanGeneration(w.config, w.store, account, scope, at, io);
            Materialize(w, epoch, account, scope, baseline, at, io).history
              == if plan.None? then w.history
                 else WithGeneration(w, plan.value.input, plan.value.store, plan.value.scope).history
  {
    hide Settle, PlanGeneration, WithGeneration;
  }

  /** Nothing but a stored generation adds to what was created and exported. */
  lemma OnlyPlansAdd(w: World, e: Event)
    requires Enabled(w, e)
    ensures Next(w, e).config == w.config
    ensures match PlanBy(w, e)
            case None => Next(w, e).history == w.history
            case Some(plan) =>
              var known := w.(store := Baseline.CutBy(w, e).value.store);
              Next(w, e).history == WithGeneration(known, plan.input, plan.store, plan.scope).history
  {
    hide Settle, Materialize, RemoteFailure, AfterAccepted, WithGeneration, SignInStore, Exit, PlanGeneration;
    match e
    case Advance(io) =>
      if w.worker.AtTop? && MayStep(w, w.worker.epoch) && !BackingOff(w) {
        var account := AccountKey(w).value;
        var move := NextMove(w.store, account, io);
        if move.CutGeneration? {
          MaterializeAddsPlan(w, w.worker.epoch, account, move.scope, move.baseline, w.now, io);
        }
      }
    case DeviceReplied(reply, io) =>
      var Registering(epoch, account, at, cause) := w.worker;
      var stored := w.(store := DeviceRegistered(w.store, account, w.config.fingerprint, 1));
      var known := if io.registered then stored else w;
      if reply.RegisterFailed? {
        RemoteFailureAddsNothing(w, epoch, account, at, reply.error, io);
      } else if cause.ForGeneration? {
        MaterializeAddsPlan(known, epoch, account, cause.scope, cause.baseline, at, io);
      }
    case PushReplied(reply, io) =>
      var Pushing(epoch, account, batch, at) := w.worker;
      var stored := w.(store := DeviceRegistered(w.store, account, "invalidate", 0));
      AfterAcceptedAddsNothing(w, epoch, account, batch, io);
      RemoteFailureAddsNothing(if io.registered then stored else w, epoch, account, at, Internal, io);
      if reply.PushFailed? { RemoteFailureAddsNothing(w, epoch, account, at, reply.error, io); }
    case _ =>
  }

  /** The scope the generation of this transition exports: the one captured for it, or the one to take now. */
  function ScopeExported(w: World, e: Event, user: string): Scopes.UploadScope
  {
    if e.DeviceReplied? && Coverage.Capturing(w) then w.worker.cause.scope else Coverage.ScopeToExport(w, user)
  }

  /** The facts an export in this transition returned, if it ran one. */
  function ExportedBy(e: Event): Option<seq<Fact>>
  {
    match e
    case Advance(io) => io.exported
    case DeviceReplied(_, io) => io.exported
    case _ => None
  }

  ghost predicate NothingAdded(w: World, v: World, user: string)
  {
    CreatedBy(v.history, user) == CreatedBy(w.history, user) && ExportsOf(v.history, user) == ExportsOf(w.history, user)
  }

  /** The records of the user grow by one export of `scope` that returned `facts`, and by the batches that hold them. */
  ghost predicate ExportAdded(w: World, v: World, user: string, scope: Scopes.UploadScope, facts: seq<Fact>)
  {
    var before, after := CreatedBy(w.history, user), CreatedBy(v.history, user);
    && |before| <= |after| && after[..|before|] == before
    && HoldExport(w.config, scope, after[|before|..], facts)
    && (forall k :: |before| <= k < |after| ==> after[k].account == AccountFor(w.config, user))
    && ExportsOf(v.history, user) == ExportsOf(w.history, user) + [ExportRecord(scope, |after|)]
    && Coverage.PendingScopeOf(v.store, AccountFor(w.config, user)).None?
  }

  lemma CutIsOfDevice(w: World, e: Event)
    requires DeliveryInv(w) && Enabled(w, e) && Baseline.CutBy(w, e).Some?
    ensures var cut := Baseline.CutBy(w, e).value;
            && (e.Advance? || e.DeviceReplied?) && cut.io == e.io
            && cut.account == AccountFor(w.config, cut.account.userId)
            && cut.scope == ScopeExported(w, e, cut.account.userId)
            && (e.Advance? ==> w.session == Some(cut.account.userId) == w.control.active)
            && (e.DeviceReplied? ==> Coverage.Capturing(w) && w.worker.account == cut.account)
  {
  }

  lemma WithGenerationAdds(w: World, input: GenerationInput, store: StoreState, scope: Scopes.UploadScope, user: string)
    ensures var v := WithGeneration(w, input, store, scope);
            if user == input.account.userId then
              && CreatedBy(v.history, user) == CreatedBy(w.history, user) + NewBatches(input, w.store.nextId)
              && ExportsOf(v.history, user)
                   == ExportsOf(w.history, user) + [ExportRecord(scope, |CreatedBy(v.history, user)|)]
            else NothingAdded(w, v, user)
  {
  }

  lemma AddingExports(w: World, v: World, user: string, added: seq<OutboxBatch>, scope: Scopes.UploadScope,
                      facts: seq<Fact>)
    requires CreatedBy(v.history, user) == CreatedBy(w.history, user) + added
    requires ExportsOf(v.history, user)
             == ExportsOf(w.history, user) + [ExportRecord(scope, |CreatedBy(v.history, user)|)]
    requires HoldExport(w.config, scope, added, facts)
    requires forall k :: 0 <= k < |added| ==> added[k].account == AccountFor(w.config, user)
    requires Coverage.PendingScopeOf(v.store, AccountFor(w.config, user)).None?
    ensures ExportAdded(w, v, user, scope, facts)
  {
    hide HoldExport;
    var before := CreatedBy(w.history, user);
    assert (before + added)[|before|..] == added && (before + added)[..|before|] == before;
  }

  lemma MaterializeClearsPending(w: World, epoch: nat, account: Account, scope: Scopes.UploadScope,
                                 baseline: BaselineStatus, at: int, io: Io)
    requires PlanGeneration(w.config, w.store, account, scope, at, io).Some?
    ensures Coverage.PendingScopeOf(Materialize(w, epoch, account, scope, baseline, at, io).store, account).None?
  {
    hide Settle, PlanGeneration;
    PlanIsBuilt(w.config, w.store, account, scope, at, io);
  }

  /** Materialising a generation leaves the records as they are, or adds exactly the export to them. */
  lemma MaterializeHoldsExport(w: World, epoch: nat, account: Account, scope: Scopes.UploadScope,
                               baseline: BaselineStatus, at: int, io: Io)
    requires Scopes.Valid(scope) && account == AccountFor(w.config, account.userId)
    ensures var v := Materialize(w, epoch, account, scope, baseline, at, io);
            || v.history == w.history
            || (io.exported.Some? && ExportAdded(w, v, account.userId, scope, io.exported.value))
  {
    hide Materialize, HoldExport, PlanGeneration, WithGeneration, ExportAdded, ExportsOf, CreatedGeneration, Build,
         Coverage.PendingScopeOf, Scopes.ExportQuery;
    MaterializeAddsPlan(w, epoch, account, scope, baseline, at, io);
    var planned := PlanGeneration(w.config, w.store, account, scope, at, io);
    if planned.Some? {
      var plan, v := planned.value, Materialize(w, epoch, account, scope, baseline, at, io);
      PlannedBatchesHoldExport(w.config, w.store, account, scope, at, io);
      PlanIsBuilt(w.config, w.store, account, scope, at, io);
      Scopes.QueryIsTheScope(scope);
      MaterializeClearsPending(w, epoch, account, scope, baseline, at, io);
      WithGenerationAdds(w, plan.input, plan.store, plan.scope, account.userId);
      AddingExports(w, v, account.userId, NewBatches(plan.input, w.store.nextId), scope, io.exported.value);
    }
  }

  lemma CutMaterializes(w: World, e: Event)
    requires Enabled(w, e) && Baseline.CutBy(w, e).Some?
    ensures w.worker != NoWorker
    ensures var Cutting(store, account, scope, baseline, at, io) := Baseline.CutBy(w, e).value;
            Next(w, e) == Materialize(w.(store := store), w.worker.epoch, account, scope, baseline, at, io)
  {
    hide Materialize;
  }

  lemma PlanAddsExport(w: World, e: Event)
    requires DeliveryInv(w) && Enabled(w, e) && PlanBy(w, e).Some?
    requires Scopes.Valid(Baseline.CutBy(w, e).value.scope)
    ensures var cut := Baseline.CutBy(w, e).value;
            cut.io.exported.Some?
            && ExportAdded(w, Next(w, e), cut.account.userId, cut.scope, cut.io.exported.value)
  {
    hide Next, Enabled, DeliveryInv, Baseline.CutBy, HoldExport, PlanGeneration, WithGeneration, Materialize,
         ScopeExported;
    var cut := Baseline.CutBy(w, e).value;
    CutIsOfDevice(w, e);
    CutMaterializes(w, e);
    OnlyPlansAdd(w, e);
    WithGenerationAdds(w.(store := cut.store), PlanBy(w, e).value.input, PlanBy(w, e).value.store,
      PlanBy(w, e).value.scope, cut.account.userId);
    PlanIsBuilt(w.config, cut.store, cut.account, cut.scope, cut.at, cut.io);
    MaterializeHoldsExport(w.(store := cut.store), w.worker.epoch, cut.account, cut.scope, cut.baseline, cut.at,
        cut.io);
  }

  lemma PlanAddsToNoOther(w: World, e: Event, user: string)
    requires Enabled(w, e) && PlanBy(w, e).Some? && user != Baseline.CutBy(w, e).value.account.userId
    ensures NothingAdded(w, Next(w, e), user)
  {
    hide Next, Enabled, Baseline.CutBy, PlanGeneration, WithGeneration, Build;
    OnlyPlansAdd(w, e);
    var cut, plan := Baseline.CutBy(w, e).value, PlanBy(w, e).value;
    PlanIsBuilt(w.config, cut.store, cut.account, cut.scope, cut.at, cut.io);
    WithGenerationAdds(w.(store := cut.store), plan.input, plan.store, plan.scope, user);
  }

  /**
   * Every transition of a run adds nothing to what was created and exported for a user, or it adds one export:
   * of the scope that was pending, or captured before a device registration, or of everything; and exactly the
   * batches that hold the facts this export returned. A worker exports at the loop head only for the user it is
   * allowed to work for, and after a device reply only for the account it waited for.
   */
  lemma GenerationsHoldTheirExport(ws: seq<World>, es: seq<Event>, i: nat, user: string)
    requires RunFromStart(ws, es) && i < |es|
    ensures
      || NothingAdded(ws[i], ws[i + 1], user)
      || (&& ExportedBy(es[i]).Some?
          && ExportAdded(ws[i], ws[i + 1], user, ScopeExported(ws[i], es[i], user), ExportedBy(es[i]).value)
          && if es[i].Advance? then ws[i].session == Some(user) == ws[i].control.active
             else Coverage.Capturing(ws[i]) && ws[i].worker.account == AccountFor(ws[i].config, user))
  {
    hide Next, Enabled, DeliveryInv, Baseline.CutBy, ExportAdded, NothingAdded, PlanGeneration, WithGeneration,
         ScopeExported, Coverage.Capturing;
    var w, e := ws[i], es[i];
    assert Takes(ws, es, i);
    if PlanBy(w, e).None? {
      OnlyPlansAdd(w, e);
      assert NothingAdded(w, Next(w, e), user) by { SameHistoryAddsNothing(w, Next(w, e), user); }
    } else {
      RunsKeepDelivery(ws, es, i);
      ScopesInUseAreValid(ws, es, i);
      CutIsOfDevice(w, e);
      if user == Baseline.CutBy(w, e).value.account.userId {
        PlanAddsExport(w, e);
      } else {
        PlanAddsToNoOther(w, e, user);
      }
    }
  }

  lemma SameHistoryAddsNothing(w: World, v: World, user: string)
    requires v.history == w.history
    ensures NothingAdded(w, v, user)
  {
  }

  lemma ScopesInUseAreValid(ws: seq<World>, es: seq<Event>, i: nat)
    requires RunFromStart(ws, es) && i < |es| && Baseline.CutBy(ws[i], es[i]).Some?
    ensures Scopes.Valid(Baseline.CutBy(ws[i], es[i]).value.scope)
  {
    Coverage.InitialCoverage(ws[0]);
    Coverage.RunsKeepCoverage(ws, es, 0, i, None);
  }

  // ---- what a run has uploaded ------------------------------------------------------------

  /** The facts of the user's exports in the first `n` transitions of a run, export by export. */
  function ExportedFacts(ws: seq<World>, es: seq<Event>, n: nat, user: string): seq<seq<Fact>>
    requires n <= |es| && |ws| == |es| + 1
  {
    if n == 0 then []
    else
      var before := ExportedFacts(ws, es, n - 1, user);
      if |ExportsOf(ws[n].history, user)| > |ExportsOf(ws[n - 1].history, user)| && ExportedBy(es[n - 1]).Some?
      then before + [ExportedBy(es[n - 1]).value] else before
  }

  /** Where the batches of export number `k` begin among all batches of the user. */
  function ExportStart(exports: seq<ExportRecord>, k: nat): nat
    requires k <= |exports|
  {
    if k == 0 then 0 else exports[k - 1].upTo
  }

  /** Everything created for the user, cut where the exports end, holds the facts of one export after another. */
  ghost predicate Spelled(w: World, user: string, facts: seq<seq<Fact>>)
  {
    var created, exports := CreatedBy(w.history, user), ExportsOf(w.history, user);
    && |facts| == |exports| && ExportStart(exports, |exports|) == |created|
    && (forall k :: 0 <= k < |exports| ==> SpelledAt(w.config, created, exports, k, facts[k]))
    && multiset(BatchFacts(created)) == multiset(Flatten(facts))
  }

  ghost predicate SpelledAt(config: Config, created: seq<OutboxBatch>, exports: seq<ExportRecord>, k: nat,
                            facts: seq<Fact>)
    requires k < |exports|
  {
    && ExportStart(exports, k) <= exports[k].upTo <= |created|
    && HoldExport(config, exports[k].scope, created[ExportStart(exports, k)..exports[k].upTo], facts)
  }

  lemma OneMoreIsSpelledAt(w: World, v: World, user: string, scope: Scopes.UploadScope, facts: seq<Fact>,
                           before: seq<seq<Fact>>, k: nat)
    requires Spelled(w, user, before) && ExportAdded(w, v, user, scope, facts) && v.config == w.config
    requires k < |ExportsOf(v.history, user)|
    ensures SpelledAt(v.config, CreatedBy(v.history, user), ExportsOf(v.history, user), k, (before + [facts])[k])
  {
    hide HoldExport, BatchFacts;
    var created, exports := CreatedBy(w.history, user), ExportsOf(w.history, user);
    var more, records := CreatedBy(v.history, user), ExportsOf(v.history, user);
    if k < |exports| {
      assert SpelledAt(w.config, created, exports, k, before[k]);
      assert ExportStart(records, k) == ExportStart(exports, k);
      var from, to := ExportStart(exports, k), exports[k].upTo;
      assert more[..|created|][from..to] == more[from..to];
    } else {
      assert more[|created|..|more|] == more[|created|..];
    }
  }

  lemma OneMoreIsSpelled(w: World, v: World, user: string, scope: Scopes.UploadScope, facts: seq<Fact>,
                         before: seq<seq<Fact>>)
    requires Spelled(w, user, before) && ExportAdded(w, v, user, scope, facts) && v.config == w.config
    ensures Spelled(v, user, before + [facts])
  {
    hide BatchOfExport, InOrder, BatchFacts, SpelledAt;
    var created, more := CreatedBy(w.history, user), CreatedBy(v.history, user);
    forall k | 0 <= k < |ExportsOf(v.history, user)|
      ensures SpelledAt(v.config, more, ExportsOf(v.history, user), k, (before + [facts])[k])
    {
      OneMoreIsSpelledAt(w, v, user, scope, facts, before, k);
    }
    assert more == created + more[|created|..];
    BatchFactsAppend(created, more[|created|..]);
    FlattenAppend(before, [facts]);
    assert Flatten([facts]) == facts + Flatten([]);
    assert multiset(BatchFacts(more)) == multiset(BatchFacts(created)) + multiset(BatchFacts(more[|created|..]));
  }

  /**
   * Over any run, whatever fails: the batches created for a user are the exports of that user one after another,
   * each cut from exactly the facts it returned, so that together they hold every exported fact, once.
   */
  lemma {:induction false} OutboxSpellsTheExports(ws: seq<World>, es: seq<Event>, n: nat, user: string)
    requires RunFromStart(ws, es) && n <= |es|
    ensures Spelled(ws[n], user, ExportedFacts(ws, es, n, user))
  {
    hide Next, Enabled, HoldExport, Spelled, NothingAdded, ExportAdded, ScopeExported, Coverage.Capturing;
    if n == 0 {
      NothingIsSpelled(ws[0], user);
    } else {
      OutboxSpellsTheExports(ws, es, n - 1, user);
      GenerationsHoldTheirExport(ws, es, n - 1, user);
      assert Takes(ws, es, n - 1);
      OnlyPlansAdd(ws[n - 1], es[n - 1]);
      var before := ExportedFacts(ws, es, n - 1, user);
      if NothingAdded(ws[n - 1], ws[n], user) {
        SameIsSpelled(ws[n - 1], ws[n], user, before);
      } else {
        var scope, facts := ScopeExported(ws[n - 1], es[n - 1], user), ExportedBy(es[n - 1]).value;
        OneMoreRecord(ws[n - 1], ws[n], user, scope, facts);
        OneMoreIsSpelled(ws[n - 1], ws[n], user, scope, facts, before);
      }
    }
  }

  lemma NothingIsSpelled(w: World, user: string)
    requires Initial(w)
    ensures Spelled(w, user, [])
  {
  }

  lemma SameIsSpelled(w: World, v: World, user: string, facts: seq<seq<Fact>>)
    requires Spelled(w, user, facts) && NothingAdded(w, v, user) && v.config == w.config
    ensures Spelled(v, user, facts) && |ExportsOf(v.history, user)| == |ExportsOf(w.history, user)|
  {
    hide HoldExport, BatchFacts;
  }

  lemma OneMoreRecord(w: World, v: World, user: string, scope: Scopes.UploadScope, facts: seq<Fact>)
    requires ExportAdded(w, v, user, scope, facts)
    ensures |ExportsOf(v.history, user)| == |ExportsOf(w.history, user)| + 1
  {
    hide HoldExport;
  }

  lemma LogSpellsBatches(ws: seq<World>, es: seq<Event>, n: nat, user: string, from: nat, to: nat)
    requires RunFromStart(ws, es) && n <= |es| && from <= to <= |LogOf(ws[n].server, user)|
    ensures to <= |CreatedBy(ws[n].history, user)|
    ensures LogFacts(LogOf(ws[n].server, user)[from..to]) == BatchFacts(CreatedBy(ws[n].history, user)[from..to])
  {
    ExactlyOnceInOrder(ws, es, n, user);
    var log, created := LogOf(ws[n].server, user), CreatedBy(ws[n].history, user);
    var xs, ys := log[from..to], created[from..to];
    assert seq(|xs|, i requires 0 <= i < |xs| => xs[i].body.facts)
        == seq(|ys|, i requires 0 <= i < |ys| => ys[i].requestBody.facts);
  }

  /** Once the server has applied as many requests as an export reaches to, it holds all that export returned. */
  lemma AppliedExportIsWhole(ws: seq<World>, es: seq<Event>, n: nat, user: string, k: nat)
    requires RunFromStart(ws, es) && n <= |es| && k < |ExportsOf(ws[n].history, user)|
    requires ExportsOf(ws[n].history, user)[k].upTo <= |LogOf(ws[n].server, user)|
    ensures var exports, log := ExportsOf(ws[n].history, user), LogOf(ws[n].server, user);
            var facts := ExportedFacts(ws, es, n, user);
            && k < |facts| && ExportStart(exports, k) <= exports[k].upTo
            && SortedCopy(LogFacts(log[ExportStart(exports, k)..exports[k].upTo]), facts[k])
  {
    hide SortedCopy, BatchOfExport;
    OutboxSpellsTheExports(ws, es, n, user);
    var exports, facts := ExportsOf(ws[n].history, user), ExportedFacts(ws, es, n, user);
    assert SpelledAt(ws[n].config, CreatedBy(ws[n].history, user), exports, k, facts[k]);
    LogSpellsBatches(ws, es, n, user, ExportStart(exports, k), exports[k].upTo);
  }

  /** With nothing left in the queue, the server holds every fact ever exported for the user, exactly once. */
  lemma EmptyQueueMeansUsageDelivered(ws: seq<World>, es: seq<Event>, n: nat, user: string)
    requires RunFromStart(ws, es) && n <= |es| && Queue(ws[n], user) == []
    ensures multiset(LogFacts(LogOf(ws[n].server, user))) == multiset(Flatten(ExportedFacts(ws, es, n, user)))
  {
    OutboxSpellsTheExports(ws, es, n, user);
    EmptyQueueMeansDelivered(ws, es, n, user);
    var log, created := LogOf(ws[n].server, user), CreatedBy(ws[n].history, user);
    LogSpellsBatches(ws, es, n, user, 0, |log|);
    assert log[0..|log|] == log && created[0..|log|] == created;
  }

  /** A worker that ends Quiescent has delivered every fact ever exported for its account, exactly once. */
  lemma QuiescentMeansUsageDelivered(ws: seq<World>, es: seq<Event>, i: nat)
    requires RunFromStart(ws, es) && i < |es| && es[i].Advance? && EndsQuiescent(ws[i], es[i].io)
    ensures var user := ws[i].session.value;
            multiset(LogFacts(LogOf(ws[i].server, user))) == multiset(Flatten(ExportedFacts(ws, es, i, user)))
  {
    EmptyQueueMeansUsageDelivered(ws, es, i, ws[i].session.value);
  }

  /** A baseline shown as complete stands for a full export every fact of which the server holds. */
  lemma CompleteBaselineHoldsEverything(ws: seq<World>, es: seq<Event>, i: nat, user: string)
    requires RunFromStart(ws, es) && i < |ws| && Baseline.StatusOf(ws[i], user) == Complete
    requires forall k :: 0 <= k < i ==> !Baseline.HollowsBaseline(ws[k], es[k])
    ensures exists k :: FullExportApplied(ws, es, i, user, k)
  {
    Baseline.CompleteBaselineIsReal(ws, es, i, user);
    var exports := ExportsOf(ws[i].history, user);
    var k :| 0 <= k < |exports| && exports[k].scope == Scopes.Full && exports[k].upTo <= |LogOf(ws[i].server, user)|;
    AppliedExportIsWhole(ws, es, i, user, k);
    assert FullExportApplied(ws, es, i, user, k);
  }

  /** Export number `k` was one of everything, and the server log holds exactly its facts where its batches stand. */
  ghost predicate FullExportApplied(ws: seq<World>, es: seq<Event>, n: nat, user: string, k: nat)
    requires n <= |es| && |ws| == |es| + 1
  {
    var exports, log, facts :=
      ExportsOf(ws[n].history, user), LogOf(ws[n].server, user), ExportedFacts(ws, es, n, user);
    && k < |exports| && k < |facts| && exports[k].scope == Scopes.Full
    && ExportStart(exports, k) <= exports[k].upTo <= |log|
    && SortedCopy(LogFacts(log[ExportStart(exports, k)..exports[k].upTo]), facts[k])
  }
}
