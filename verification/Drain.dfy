/** One healthy loop iteration of the worker, and the measure that makes draining terminate. */
module Drain {
  import opened Basics
  import opened Batches
  import Coverage
  import opened Delivery
  import DeliveryRuns
  import opened OutboxStore
  import Scopes
  import opened SyncMachine
  import Timing

  /** An environment in which every call answers and threads spawn. */
  predicate Healthy(io: Io)
  {
    && io.listed && io.loaded && io.ensured && io.merged && io.exported.Some? && io.reloaded && io.created && io.cleared
    && io.completed && io.recorded && io.accepted && io.counted && io.registered && io.workCounted && io.workLoaded
    && io.spawned && !io.deferKick
  }

  /** A worker of the current epoch at the top of its loop, working for the signed-in user. */
  predicate Draining(w: World, user: string)
  {
    && w.worker == AtTop(w.control.epoch) && !w.control.cancel && w.session == Some(user) == w.control.active
    && DeviceKey(w.config) != "" && !BackingOff(w) && w.control.running
  }

  predicate Finished(w: World, user: string)
  {
    && w.worker == NoWorker && Queue(w, user) == []
    && var account := AccountFor(w.config, user);
       account in w.store.states && w.store.states[account].pendingScope.None?
           && w.store.states[account].baselineStatus == Complete
  }

  function Known(w: World, user: string): bool { AccountFor(w.config, user) in w.store.states }

  function SyncStateOf(w: World, user: string): SyncState { EnsuredState(w.store, AccountFor(w.config, user)) }

  /** How many further generations the account can need. */
  function Rank(w: World, user: string): nat
  {
    var state := SyncStateOf(w, user);
    match (state.pendingScope, state.baselineStatus)
    case (Some(scope), NotStarted) => if scope.Full? then 1 else 2
    case (Some(_), _) => 1
    case (None, Complete) => 0
    case (None, InProgress) => if Queue(w, user) == [] then 1 else 0
    case (None, NotStarted) => 1
  }

  /** Every scope exports facts the contract accepts, at most `bound` of them. */
  ghost predicate Exportable(facts: Scopes.UploadScope -> seq<Fact>, bound: nat)
  {
    forall scope :: ModelsFit(facts(scope), BACKEND_V1) && |facts(scope)| <= bound
  }

  /** Room for the revisions of the generations still to come. */
  predicate Headroom(w: World, user: string, bound: nat)
  {
    var next := SyncStateOf(w, user).nextClientRevision;
    (Rank(w, user) >= 1 ==> next + bound <= I64_MAX) && (Rank(w, user) >= 2 ==> next + 2 * bound <= I64_MAX)
  }

  function GenerationsMade(w: World, user: string): nat { |ExportsOf(w.history, user)| }

  /** What one iteration may do: it settles at the top again, with less to do. */
  ghost predicate Progress(w: World, v: World, user: string, bound: nat)
  {
    && DeliveryInv(v) && Draining(v, user) && Headroom(v, user, bound) && Known(v, user)
    && (Known(w, user) ==>
         Rank(v, user) < Rank(w, user) || (Rank(v, user) == Rank(w, user) && |Queue(v, user)| < |Queue(w, user)|))
    && GenerationsMade(w, user) <= GenerationsMade(v, user)
    && GenerationsMade(v, user) + Rank(v, user) <= GenerationsMade(w, user) + Rank(w, user)
    && v.history.keys.Keys >= w.history.keys.Keys
  }

  // ---- the four kinds of iteration --------------------------------------------------------

  lemma EnsureIteration(w: World, user: string, bound: nat, io: Io)
    requires DeliveryInv(w) && Draining(w, user) && Headroom(w, user, bound) && Healthy(io) && FreshKeys(w, io)
    requires !Known(w, user)
    ensures Progress(w, Next(w, Advance(io)), user, bound) && Next(w, Advance(io)).history == w.history
  {
    DeliveryRuns.NextKeepsDelivery(w, Advance(io));
    assert QueueOk(w, user);
    var v := Next(w, Advance(io));
    assert v.store == Ensured(w.store, AccountFor(w.config, user));
  }

  lemma QuiescentIteration(w: World, user: string, io: Io)
    requires DeliveryInv(w) && Draining(w, user) && Healthy(io) && Known(w, user)
    requires Queue(w, user) == [] && SyncStateOf(w, user).pendingScope.None?
    requires SyncStateOf(w, user).baselineStatus == Complete
    ensures Finished(Next(w, Advance(io)), user) && Next(w, Advance(io)).history == w.history
    ensures Next(w, Advance(io)).store == w.store
  {
  }

  lemma PushIterationStarts(w: World, user: string, io: Io)
    requires DeliveryInv(w) && Draining(w, user) && Healthy(io) && Known(w, user) && Queue(w, user) != []
    ensures var account, v := AccountFor(w.config, user), Next(w, Advance(io));
            v == w.(worker := ReadyToPush(w.control.epoch, account, Queue(w, user)[0], w.now))
            || (v == w.(worker := Registering(w.control.epoch, account, w.now, ForBatch(Queue(w, user)[0])))
                && Next(v, DeviceReplied(Registered, io))
                   == w.(worker := ReadyToPush(w.control.epoch, account, Queue(w, user)[0], w.now),
                         store := DeviceRegistered(w.store, account, w.config.fingerprint, 1)))
  {
  }

  /** What an accepted push leaves of the account. */
  lemma AcceptedState(w: World, user: string, io: Io)
    requires DeliveryInv(w) && w.worker.Pushing? && w.worker.epoch == w.control.epoch
    requires w.worker.account == AccountFor(w.config, user)
    requires Draining(w.(worker := AtTop(w.control.epoch)), user) && Healthy(io) && Known(w, user)
    requires Applied(w, RequestFor(w.worker.account, w.worker.batch))
    ensures var v := Next(w, PushReplied(PushAccepted, io));
            var before, after := SyncStateOf(w, user), SyncStateOf(v, user);
            && v == w.(store := v.store, worker := AtTop(w.control.epoch)) && Known(v, user)
            && |Queue(v, user)| == |Queue(w, user)| - 1
            && after.pendingScope == before.pendingScope && after.nextClientRevision == before.nextClientRevision
            && after.baselineStatus
                 == (if before.baselineStatus == InProgress && Queue(v, user) == [] then Complete
                     else before.baselineStatus)
  {
    var account := AccountFor(w.config, user);
    HeldBatchIsOwn(w, account, w.worker.batch);
    AcceptKeepsDurable(w, account, w.worker.batch);
    var taken := AcceptedBatch(w.store, account, w.worker.batch.id, w.now).value;
    var v := Next(w, PushReplied(PushAccepted, io));
    assert v == AfterAccepted(w, w.worker.epoch, account, w.worker.batch, io);
    assert v.store.batches == taken.batches;
    assert AcceptedCount(w.(store := taken), user) == AcceptedCount(w, user) + 1;
  }

  /** An accepted push: one batch fewer, and a baseline in progress is complete once the queue is empty. */
  lemma AcceptedIteration(w: World, user: string, bound: nat, io: Io)
    requires DeliveryInv(w) && w.worker.Pushing? && w.worker.epoch == w.control.epoch
    requires w.worker.account == AccountFor(w.config, user)
    requires Draining(w.(worker := AtTop(w.control.epoch)), user) && Headroom(w, user, bound) && Healthy(io)
    requires Known(w, user)
    requires Applied(w, RequestFor(w.worker.account, w.worker.batch))
    ensures var v := Next(w, PushReplied(PushAccepted, io));
            Progress(w, v, user, bound) && v.history == w.history && Rank(v, user) == Rank(w, user)
  {
    DeliveryRuns.NextKeepsDelivery(w, PushReplied(PushAccepted, io));
    AcceptedState(w, user, io);
  }

  /** In a healthy environment a generation is always planned, with at most one batch per fact. */
  lemma HealthyPlan(w: World, user: string, facts: Scopes.UploadScope -> seq<Fact>, bound: nat, io: Io)
    requires DurableOk(w) && Headroom(w, user, bound) && Known(w, user) && Queue(w, user) == []
    requires Healthy(io) && FreshKeys(w, io) && Exportable(facts, bound)
    requires io.exported == Some(facts(Coverage.ScopeToExport(w, user)))
    requires Rank(w, user) > 0 && Scopes.ExportQuery(Coverage.ScopeToExport(w, user)).Success?
    ensures var plan :=
            PlanGeneration(w.config, w.store, AccountFor(w.config, user), Coverage.ScopeToExport(w, user), w.now, io);
            && plan.Some? && |plan.value.input.prepared| <= bound
            && plan.value.scope.Full? == Coverage.ScopeToExport(w, user).Full?
            && forall i :: 0 <= i < |plan.value.input.prepared| ==>
                 plan.value.input.prepared[i].idempotencyKey in io.keys
  {
    var account, scope := AccountFor(w.config, user), Coverage.ScopeToExport(w, user);
    var exported := facts(scope);
    BuildFailsExactlyWhen(exported, MetaOf(w.config, scope), BACKEND_V1, w.store.states[account].nextClientRevision,
        io.keys);
    StableSortCount(exported);
    assert account == AccountFor(w.config, user);
  }

  /** The account right after its generation: nothing pending in scope, and the baseline moved along. */
  lemma GeneratedState(w: World, user: string, plan: Plan, baseline: BaselineStatus, io: Io)
    requires GenerationFits(w, plan.input) && plan.input.account == AccountFor(w.config, user)
    requires CreatedGeneration(w.store, plan.input) == Success(plan.store) && Healthy(io) && Known(w, user)
    requires plan.input.clearPendingScope && baseline == SyncStateOf(w, user).baselineStatus
    requires plan.input.marksBaselineInProgress <==> NeedsBaseline(baseline) && plan.scope.Full?
    ensures var n, v := |plan.input.prepared|, AfterPlan(w, plan, baseline, w.now, io);
            && Known(v, user) && SyncStateOf(v, user).pendingScope.None? && |Queue(v, user)| == n
            && SyncStateOf(v, user).nextClientRevision == SyncStateOf(w, user).nextClientRevision + n
            && SyncStateOf(v, user).baselineStatus ==
               (if n == 0 then Complete else if NeedsBaseline(baseline) && plan.scope.Full? then InProgress
                   else baseline)
  {
    CreateAppends(w.store, plan.input, plan.input.account);
    var made := WithGeneration(w, plan.input, plan.store, plan.scope);
    assert made.store.states[plan.input.account]
        == GenerationState(w.store.states[plan.input.account].(account := plan.input.account), plan.input);
    if plan.input.prepared == [] {
      assert made.store.batches + [] == made.store.batches;
    }
  }

  /** A generation: its batches are queued, the pending scope is gone, and fewer generations remain. */
  lemma MaterializeIteration(w: World, user: string, baseline: BaselineStatus, facts: Scopes.UploadScope -> seq<Fact>,
                             bound: nat, io: Io)
    requires DurableOk(w) && Draining(w.(worker := AtTop(w.control.epoch)), user) && Headroom(w, user, bound)
    requires Healthy(io) && FreshKeys(w, io) && Known(w, user) && Queue(w, user) == []
    requires Exportable(facts, bound) && io.exported == Some(facts(Coverage.ScopeToExport(w, user)))
    requires baseline == SyncStateOf(w, user).baselineStatus && Rank(w, user) > 0
    requires Scopes.ExportQuery(Coverage.ScopeToExport(w, user)).Success?
    ensures var v := Materialize(w, w.control.epoch, AccountFor(w.config, user), Coverage.ScopeToExport(w, user),
            baseline,
            w.now, io);
            Progress(w, v, user, bound) && GenerationsMade(v, user) == GenerationsMade(w, user) + 1
            && forall key :: key in v.history.keys ==> key in w.history.keys || key in io.keys
  {
    hide DeliveryInv, Progress;
    var account, scope := AccountFor(w.config, user), Coverage.ScopeToExport(w, user);
    HealthyPlan(w, user, facts, bound, io);
    DeliveryRuns.PlanFits(w, account, scope, w.now, io);
    var plan := PlanGeneration(w.config, w.store, account, scope, w.now, io).value;
    DeliveryRuns.MaterializeKeeps(w, w.control.epoch, account, scope, baseline, w.now, io);
    GeneratedState(w, user, plan, baseline, io);
    var after := AfterPlan(w, plan, baseline, w.now, io);
    var v := Materialize(w, w.control.epoch, account, scope, baseline, w.now, io);
    assert v == after.(worker := AtTop(w.control.epoch));
    OriginsAreExact(user, |CreatedBy(w.history, user)|, plan.input.prepared);
    GenerationHistory(w, user, plan, baseline, io);
    GenerationProgress(w, v, user, baseline, bound, |plan.input.prepared|);
  }

  /** Clearing the pending scope and moving the baseline along lowers the rank and keeps room for the revisions. */
  lemma GenerationProgress(w: World, v: World, user: string, baseline: BaselineStatus, bound: nat, n: nat)
    requires Headroom(w, user, bound) && Known(w, user) && Rank(w, user) > 0 && n <= bound && Queue(w, user) == []
    requires DeliveryInv(v) && Draining(v, user) && Known(v, user) && v.history.keys.Keys >= w.history.keys.Keys
    requires SyncStateOf(v, user).pendingScope.None? && |Queue(v, user)| == n
    requires baseline == SyncStateOf(w, user).baselineStatus
    requires SyncStateOf(v, user).nextClientRevision == SyncStateOf(w, user).nextClientRevision + n
    requires SyncStateOf(v, user).baselineStatus ==
             (if n == 0 then Complete
                 else if NeedsBaseline(baseline) && Coverage.ScopeToExport(w, user).Full? then InProgress
                 else baseline)
    requires GenerationsMade(v, user) == GenerationsMade(w, user) + 1
    ensures Progress(w, v, user, bound)
  {
    hide DeliveryInv, Draining;
  }

  lemma GenerationHistory(w: World, user: string, plan: Plan, baseline: BaselineStatus, io: Io)
    requires plan.input.account == AccountFor(w.config, user)
    ensures var v := AfterPlan(w, plan, baseline, w.now, io);
            && GenerationsMade(v, user) == GenerationsMade(w, user) + 1
            && v.history.keys == w.history.keys + NewOrigins(user, |CreatedBy(w.history, user)|, plan.input.prepared)
  {
  }

  /** Recording a device registration changes nothing the drain depends on. */
  lemma RegistrationIsNeutral(w: World, user: string, worker: Worker)
    ensures var v := w.(worker := worker,
            store := DeviceRegistered(w.store, AccountFor(w.config, user), w.config.fingerprint, 1));
            && Queue(v, user) == Queue(w, user) && Known(v, user)
            && SyncStateOf(v, user).pendingScope == SyncStateOf(w, user).pendingScope
            && SyncStateOf(v, user).baselineStatus == SyncStateOf(w, user).baselineStatus
            && SyncStateOf(v, user).nextClientRevision == SyncStateOf(w, user).nextClientRevision
            && Rank(v, user) == Rank(w, user) && v.history == w.history
  {
  }

  /** From the top of the loop through its device registration, when one is needed, to the stored generation. */
  function GenerationRound(w: World, io: Io): World
  {
    var a := Next(w, Advance(io));
    if a.worker.Registering? then Next(a, DeviceReplied(Registered, io)) else a
  }

  lemma GenerationIteration(w: World, user: string, facts: Scopes.UploadScope -> seq<Fact>, bound: nat, io: Io)
    requires DeliveryInv(w) && Draining(w, user) && Headroom(w, user, bound) && Healthy(io) && FreshKeys(w, io)
    requires Known(w, user) && Queue(w, user) == [] && Rank(w, user) > 0
    requires Exportable(facts, bound) && io.exported == Some(facts(Coverage.ScopeToExport(w, user)))
    requires Scopes.ExportQuery(Coverage.ScopeToExport(w, user)).Success?
    ensures Progress(w, GenerationRound(w, io), user, bound)
    ensures GenerationsMade(GenerationRound(w, io), user) == GenerationsMade(w, user) + 1
    ensures forall key :: key in GenerationRound(w, io).history.keys ==> key in w.history.keys || key in io.keys
  {
    if DeviceIsRegistered(w.config, SyncStateOf(w, user)) {
      RegisteredRound(w, user, io);
      MaterializeIteration(w, user, SyncStateOf(w, user).baselineStatus, facts, bound, io);
    } else {
      UnregisteredRound(w, user, io);
      var worker := Registering(w.control.epoch, AccountFor(w.config, user), w.now,
          ForGeneration(Coverage.ScopeToExport(w, user), SyncStateOf(w, user).baselineStatus));
      RegistrationIsNeutral(w, user, worker);
      var known :=
        w.(worker := worker, store := DeviceRegistered(w.store, AccountFor(w.config, user), w.config.fingerprint, 1));
      KeptQueuesStayOk(w, known);
      MaterializeIteration(known, user, SyncStateOf(w, user).baselineStatus, facts, bound, io);
    }
  }

  lemma RegisteredRound(w: World, user: string, io: Io)
    requires Draining(w, user) && Healthy(io) && Known(w, user) && Queue(w, user) == [] && Rank(w, user) > 0
    requires DeviceIsRegistered(w.config, SyncStateOf(w, user))
    ensures GenerationRound(w, io)
         == Materialize(w, w.control.epoch, AccountFor(w.config, user), Coverage.ScopeToExport(w, user),
             SyncStateOf(w, user).baselineStatus, w.now, io)
  {
    var v := Materialize(w, w.control.epoch, AccountFor(w.config, user), Coverage.ScopeToExport(w, user),
        SyncStateOf(w, user).baselineStatus, w.now, io);
    assert Next(w, Advance(io)) == StepFromTop(w, w.control.epoch, AccountFor(w.config, user), io) == v;
    Timing.MaterializeEpoch(w, w.control.epoch, AccountFor(w.config, user), Coverage.ScopeToExport(w, user),
        SyncStateOf(w, user).baselineStatus, w.now, io);
  }

  lemma UnregisteredRound(w: World, user: string, io: Io)
    requires Draining(w, user) && Healthy(io) && Known(w, user) && Queue(w, user) == [] && Rank(w, user) > 0
    requires !DeviceIsRegistered(w.config, SyncStateOf(w, user))
    ensures var account, baseline := AccountFor(w.config, user), SyncStateOf(w, user).baselineStatus;
            GenerationRound(w, io) ==
              Materialize(w.(worker :=
                  Registering(w.control.epoch, account, w.now,
                      ForGeneration(Coverage.ScopeToExport(w, user), baseline)),
                             store := DeviceRegistered(w.store, account, w.config.fingerprint, 1)),
                          w.control.epoch, account, Coverage.ScopeToExport(w, user), baseline, w.now, io)
  {
    hide Materialize, Settle;
    var account, baseline := AccountFor(w.config, user), SyncStateOf(w, user).baselineStatus;
    assert Next(w, Advance(io)) == StepFromTop(w, w.control.epoch, account, io)
        == w.(worker := Registering(w.control.epoch, account, w.now,
            ForGeneration(Coverage.ScopeToExport(w, user), baseline)));
  }

  lemma StableSortCount(facts: seq<Fact>)
    ensures |StableSort(facts)| == |facts| && |Chunks(facts, BACKEND_V1.maxFactsPerBatch)| <= |facts|
    ensures |Chunks(StableSort(facts), BACKEND_V1.maxFactsPerBatch)| <= |facts|
  {
    if facts != [] { StableSortKeeps(facts, facts[0]); }
    ChunksAreExact(facts, BACKEND_V1.maxFactsPerBatch);
    ChunksAreExact(StableSort(facts), BACKEND_V1.maxFactsPerBatch);
  }
}
