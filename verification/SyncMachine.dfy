/**
 * Collect-sync as a state machine: one durable store, one volatile service with at most one worker,
 * a network that may delay, repeat or lose pushes, and a server that applies each idempotency key once.
 *
 * One transition is a whole account handler, a whole kick (or one of its two halves), or one worker
 * step up to its next network call, together with the worker's exit handling.
 */
module SyncMachine {
  import opened Basics
  import Batches
  import CommittedUploads
  import opened OutboxStore
  import opened Scopes

  datatype Config = Config(deviceId: string, appVersion: string, reportingTimezone: string, fingerprint: string)

  // ---- remote errors ----------------------------------------------------------------------

  datatype RemoteError =
    | Network | Timeout
    | RateLimited(retryAfterSeconds: Option<nat>)
    | IdempotencyInProgress
    | Unauthorized | Validation | ContractUnsupported
    | DeviceNotFound
    | Conflict | PayloadTooLarge | Forbidden
    | Problem(code: Option<string>)
    | Decode | Internal

  datatype Classified = Classified(code: string, retryable: bool, backoff: nat)

  function ClassifyRemoteError(error: RemoteError): Classified
  {
    match error
    case Network => Classified("NETWORK", true, 5000)
    case Timeout => Classified("TIMEOUT", true, 5000)
    case RateLimited(None) => Classified("RATE_LIMITED", true, 15000)
    case RateLimited(Some(seconds)) =>
      Classified("RATE_LIMITED", true, Min((if seconds <= I64_MAX then seconds else 60) * 1000, I64_MAX))
    case IdempotencyInProgress => Classified("IDEMPOTENCY_IN_PROGRESS", true, 2000)
    case Unauthorized => Classified("UNAUTHORIZED", false, 0)
    case Validation => Classified("VALIDATION_FAILED", false, 0)
    case ContractUnsupported => Classified("SYNC_CONTRACT_UNSUPPORTED", false, 0)
    case DeviceNotFound => Classified("SYNC_DEVICE_NOT_FOUND", true, 1000)
    case Conflict => Classified("CONFLICT", false, 0)
    case PayloadTooLarge => Classified("PAYLOAD_TOO_LARGE", false, 0)
    case Forbidden => Classified("FORBIDDEN", false, 0)
    case Problem(code) =>
      var retryable := code.None? || code.value !in {"VALIDATION_FAILED", "SYNC_CONTRACT_UNSUPPORTED", "FORBIDDEN"};
      Classified("PROBLEM", retryable, if retryable then 5000 else 0)
    case Decode => Classified("DECODE", false, 0)
    case Internal => Classified("INTERNAL", true, 5000)
  }

  // ---- state ------------------------------------------------------------------------------

  datatype Deadline = Deadline(epoch: nat, until: int)

  /**
   * What kept the last worker, or the last attempt to start one, from carrying on: a failed store call, a
   * failed spawn, or no failure at all. Work that arrives with no attempt to start a worker counts as the
   * latter. Read by no transition.
   */
  datatype Blame = NoFailure | StoreFailed | SpawnFailed

  /** The volatile fields; `blocked` is the terminal-blocked epoch, `latent` counts kicks between check and start. */
  datatype Control = Control(running: bool, cancel: bool, epoch: nat, blocked: Option<nat>, active: Option<string>,
                             retry: Option<Deadline>, latent: nat, blame: Blame)

  const INITIAL_CONTROL: Control := Control(false, false, 0, None, None, None, 0, NoFailure)

  /** Why a device registration is in flight; a generation keeps what `step` had loaded before it. */
  datatype Cause = ForBatch(batch: OutboxBatch) | ForGeneration(scope: UploadScope, baseline: BaselineStatus) | Recovery

  datatype Worker =
    | NoWorker
    | AtTop(epoch: nat)
    | Registering(epoch: nat, account: Account, at: int, cause: Cause)
    | ReadyToPush(epoch: nat, account: Account, batch: OutboxBatch, at: int)
    | Pushing(epoch: nat, account: Account, batch: OutboxBatch, at: int)

  /** One push request: expected user, exact stored body, stored idempotency key. */
  datatype Push = Push(user: string, body: Batches.PushBody, key: string)

  /** Bookkeeping about the past, read by no transition. */
  datatype ExportRecord = ExportRecord(scope: UploadScope, upTo: nat)
  datatype Origin = Origin(user: string, index: nat)
  datatype History = History(created: map<string, seq<OutboxBatch>>, exports: map<string, seq<ExportRecord>>,
                             keys: map<string, Origin>)

  const NO_HISTORY: History := History(map[], map[], map[])

  datatype World = World(config: Config, session: Option<string>, now: int, control: Control, worker: Worker,
                         store: StoreState, sent: set<Push>, server: map<string, seq<Push>>, history: History)

  /**
   * What the environment answers during one transition: which store calls succeed, the exported facts,
   * fresh idempotency keys, whether a thread can be spawned, and whether a kick stops between its halves.
   */
  datatype Io = Io(listed: bool, loaded: bool, ensured: bool, merged: bool, exported: Option<seq<Batches.Fact>>,
      reloaded: bool,
                   created: bool, cleared: bool, completed: bool, recorded: bool, accepted: bool, counted: bool,
                   registered: bool, workCounted: bool, workLoaded: bool, spawned: bool, deferKick: bool,
                   keys: seq<string>, generationId: string)

  datatype DeviceReply = Registered | RegisterFailed(error: RemoteError)
  datatype PushReply = PushAccepted | PushFailed(error: RemoteError)

  datatype StepResult = Continue | Quiescent | Backoff(until: int) | Terminal | StoreFailure | Stop

  datatype Event =
    | Tick(time: int)
    | Session(user: Option<string>)
    | SignedIn(userId: string, io: Io)
    | SignedOut
    | SignIn(userId: string, io: Io)
    | SignOut
    | Commit(upload: CommittedUploads.CommittedDailyUpload, io: Io)
    | MergeForAll(scope: UploadScope, io: Io)
    | RetryNow(io: Io)
    | RetryDue(io: Io)
    | KickStart(io: Io)
    | Advance(io: Io)
    | DeviceReplied(device: DeviceReply, io: Io)
    | PushReplied(push: PushReply, io: Io)
    | Deliver(request: Push)
    | Crash

  // ---- small readers ----------------------------------------------------------------------

  function DeviceKey(config: Config): string { Trim(config.deviceId) }

  function AccountFor(config: Config, user: string): Account { Account(user, DeviceKey(config)) }

  function AccountKey(w: World): Option<Account>
  {
    if w.session.Some? && DeviceKey(w.config) != "" then Some(AccountFor(w.config, w.session.value)) else None
  }

  function CreatedBy(h: History, user: string): seq<OutboxBatch> { if user in h.created then h.created[user] else [] }

  function ExportsOf(h: History, user: string): seq<ExportRecord> { if user in h.exports then h.exports[user] else [] }

  function LogOf(server: map<string, seq<Push>>, user: string): seq<Push>
  {
    if user in server then server[user] else []
  }

  /** The request a worker of `account` sends for a batch: the expected user is the worker's own. */
  function RequestFor(account: Account, batch: OutboxBatch): Push
  {
    Push(account.userId, batch.requestBody, batch.idempotencyKey)
  }

  /** The request a batch is meant to become: the expected user is the batch's owner. */
  function PushOf(batch: OutboxBatch): Push { RequestFor(batch.account, batch) }

  function MetaOf(config: Config, scope: UploadScope): Batches.BatchMeta
  {
    Batches.BatchMeta(config.deviceId, config.appVersion, config.reportingTimezone, scope)
  }

  predicate NeedsBaseline(status: BaselineStatus) { status == NotStarted || status == InProgress }

  predicate DeviceIsRegistered(config: Config, state: SyncState)
  {
    state.deviceFingerprint == Some(config.fingerprint) && state.deviceRegisteredRevision.Some?
  }

  /** Queued batches, a pending scope or an unfinished baseline, as far as the two store reads answer. */
  predicate WorkFor(s: StoreState, account: Account, counted: bool, loaded: bool)
  {
    || (counted && PendingOf(s.batches, account) != [])
    || (loaded && account in s.states &&
        (s.states[account].pendingScope.Some? || NeedsBaseline(s.states[account].baselineStatus)))
  }

  /** `has_work`, for the account the session holds. */
  predicate SeesWork(w: World, counted: bool, loaded: bool)
  {
    AccountKey(w).Some? && WorkFor(w.store, AccountKey(w).value, counted, loaded)
  }

  /** Nothing but the control fields and the worker differs. */
  predicate OnlyControl(w: World, v: World) { v == w.(control := v.control, worker := v.worker) }

  /** Configuration, session, clock, network and server are the same. */
  predicate SameBackground(w: World, v: World)
  {
    v.config == w.config && v.session == w.session && v.now == w.now && v.sent == w.sent && v.server == w.server
  }

  // ---- kick -------------------------------------------------------------------------------

  predicate BackingOff(w: World)
  {
    w.control.retry.Some? && w.control.retry.value.epoch == w.control.epoch && w.now < w.control.retry.value.until
  }

  /** The checks `kick` makes before its compare-exchange. */
  predicate MayStart(w: World)
  {
    !w.control.cancel && w.control.blocked != Some(w.control.epoch) && !BackingOff(w)
  }

  /** The compare-exchange on `running` and the spawn. */
  function StartWorker(w: World, spawned: bool): (r: World)
    ensures OnlyControl(w, r)
  {
    if w.control.running then w
    else if spawned then w.(control := w.control.(running := true, cancel := false), worker := AtTop(w.control.epoch))
    else w.(control := w.control.(cancel := false, blame := SpawnFailed))
  }

  function Kick(w: World, io: Io): (r: World)
    ensures OnlyControl(w, r)
  {
    if !MayStart(w) then w
    else if io.deferKick then w.(control := w.control.(latent := w.control.latent + 1))
    else StartWorker(w, io.spawned)
  }

  // ---- worker exits -----------------------------------------------------------------------

  datatype WorkerExit = ExitQuiescent | ExitBackoff | ExitTerminal | ExitStoreFailure | ExitStopped

  /** The exit handling looks for work: after a quiescent end of its own epoch, or a stop in a later one. */
  predicate LooksForWork(w: World, epoch: nat, exit: WorkerExit)
  {
    && !w.control.cancel
    && ((exit.ExitQuiescent? && w.control.epoch == epoch) || (exit.ExitStopped? && w.control.epoch != epoch))
  }

  /** A read that `has_work` makes for the active user fails, so that work may be overlooked. */
  predicate WorkReadFails(w: World, io: Io)
  {
    && w.session == w.control.active && AccountKey(w).Some?
    && (!io.workCounted || (PendingOf(w.store.batches, AccountKey(w).value) == [] && !io.workLoaded))
  }

  /** The exit handling of the worker thread. */
  function Exit(w: World, epoch: nat, exit: WorkerExit, io: Io): (r: World)
    ensures OnlyControl(w, r)
  {
    var asks := LooksForWork(w, epoch, exit);
    var failed := exit.ExitStoreFailure? || (asks && WorkReadFails(w, io));
    var stopped := w.(worker := NoWorker,
                      control := w.control.(running := false, blame := if failed then StoreFailed else NoFailure,
                                            blocked := if exit.ExitTerminal? then Some(epoch) else w.control.blocked));
    var again := asks && SeesWork(stopped, io.workCounted, io.workLoaded);
    if again then Kick(stopped, io) else stopped
  }

  /** What `run_worker` does with the result of a step. */
  function Settle(w: World, epoch: nat, result: StepResult, io: Io): (r: World)
    ensures OnlyControl(w, r)
  {
    if w.control.cancel || w.control.epoch != epoch then Exit(w, epoch, ExitStopped, io)
    else
      match result
      case Continue => w.(worker := AtTop(epoch))
      case Quiescent => Exit(w, epoch, ExitQuiescent, io)
      case Backoff(until) =>
          Exit(w.(control := w.control.(retry := Some(Deadline(epoch, until)))), epoch, ExitBackoff, io)
      case Terminal => Exit(w, epoch, ExitTerminal, io)
      case StoreFailure => Exit(w, epoch, ExitStoreFailure, io)
      case Stop => Exit(w, epoch, ExitStopped, io)
  }

  // ---- steps ------------------------------------------------------------------------------

  function RemoteFailure(w: World, epoch: nat, account: Account, at: int, error: RemoteError, io: Io): (r: World)
    ensures SameBackground(w, r)
  {
    var c := ClassifyRemoteError(error);
    var recorded :=
      if io.recorded then w.(store := Recorded(w.store, account, at, Some(c.code), Some(c.retryable))) else w;
    Settle(recorded, epoch, if c.retryable then Backoff(SaturatingAdd(at, c.backoff)) else Terminal, io)
  }

  function WithGeneration(w: World, input: GenerationInput, store: StoreState, scope: UploadScope): (r: World)
    ensures SameBackground(w, r) && r.control == w.control
  {
    var user := input.account.userId;
    var before := CreatedBy(w.history, user);
    var created := before + NewBatches(input, w.store.nextId);
    w.(store := store,
       history := w.history.(
         created := w.history.created[user := created],
         exports := w.history.exports[user := ExportsOf(w.history, user) + [ExportRecord(scope, |created|)]],
         keys := w.history.keys + NewOrigins(user, |before|, input.prepared)))
  }

  function NewOrigins(user: string, base: nat, prepared: seq<Batches.PreparedBatch>): map<string, Origin>
  {
    if prepared == [] then map[]
    else
      var n := |prepared| - 1;
      NewOrigins(user, base, prepared[..n])[prepared[n].idempotencyKey := Origin(user, base + n)]
  }

  /** A generation ready to be recorded: what is stored, the store after it, and the exported scope. */
  datatype Plan = Plan(input: GenerationInput, store: StoreState, scope: UploadScope)

  function GenerationFor(account: Account, state: SyncState, scope: UploadScope, prepared: seq<Batches.PreparedBatch>,
                         at: int,
                         io: Io): GenerationInput
  {
    GenerationInput(account, io.generationId, prepared, at, NeedsBaseline(state.baselineStatus) && scope.Full?, true)
  }

  /** `materialize_generation`: export the scope, cut the facts, and create the generation; `None` on any failure. */
  function PlanGeneration(config: Config, store: StoreState, account: Account, scope: UploadScope, at: int,
                          io: Io): Option<Plan>
  {
    var query := ExportQuery(scope);
    if query.Failure? || io.exported.None? || !io.reloaded || account !in store.states then None
    else
      var state := store.states[account];
      var prepared :=
        Batches.Build(io.exported.value, MetaOf(config, scope), Batches.BACKEND_V1, state.nextClientRevision, io.keys);
      if prepared.Failure? || !io.created then None
      else
        var input := GenerationFor(account, state, scope, prepared.value, at, io);
        match CreatedGeneration(store, input)
        case Failure(_) => None
        case Success(after) => Some(Plan(input, after, query.value))
  }

  /** The rest of `step` once the device is registered. */
  function Materialize(w: World, epoch: nat, account: Account, scope: UploadScope, baseline: BaselineStatus, at: int,
                       io: Io): (r: World)
    ensures SameBackground(w, r)
  {
    match PlanGeneration(w.config, w.store, account, scope, at, io)
    case None => Settle(w, epoch, StoreFailure, io)
    case Some(plan) => Settle(AfterPlan(w, plan, baseline, at, io), epoch, Continue, io)
  }

  function AfterPlan(w: World, plan: Plan, baseline: BaselineStatus, at: int, io: Io): (r: World)
    ensures SameBackground(w, r) && r.control == w.control
  {
    var made := WithGeneration(w, plan.input, plan.store, plan.scope);
    if plan.input.prepared == [] then AfterEmptyExport(made, plan.input.account, baseline, at, io) else made
  }

  /** An empty export still clears the pending scope, completes a needed baseline and records a clean attempt. */
  function AfterEmptyExport(w: World, account: Account, baseline: BaselineStatus, at: int, io: Io): (r: World)
    ensures SameBackground(w, r) && r.control == w.control
  {
    var again := CreatedGeneration(w.store, GenerationInput(account, io.generationId, [], at, false, true));
    var cleared := if io.cleared && again.Success? then again.value else w.store;
    var completed := if NeedsBaseline(baseline) && io.completed then BaselineCompleted(cleared, account) else cleared;
    w.(store := if io.recorded then Recorded(completed, account, at, None, None) else completed)
  }

  /** What `step` decides from the store before it touches the network. */
  datatype Move =
    | SendFirst(batch: OutboxBatch)
    | EnsureAccount
    | CutGeneration(scope: UploadScope, baseline: BaselineStatus)
    | Finish(result: StepResult)

  function NextMove(s: StoreState, account: Account, io: Io): (r: Move)
    ensures r.CutGeneration? ==> account in s.states
  {
    var pending := PendingOf(s.batches, account);
    if !io.listed then Finish(StoreFailure)
    else if pending != [] then SendFirst(pending[0])
    else if !io.loaded then Finish(StoreFailure)
    else if account !in s.states then EnsureAccount
    else
      var state := s.states[account];
      match state.pendingScope
      case Some(scope) => CutGeneration(scope, state.baselineStatus)
      case None =>
        if NeedsBaseline(state.baselineStatus) then CutGeneration(Full, state.baselineStatus) else Finish(Quiescent)
  }

  /** One `step` from the top of the loop up to its first network call. */
  function StepFromTop(w: World, epoch: nat, account: Account, io: Io): (r: World)
    ensures SameBackground(w, r)
  {
    match NextMove(w.store, account, io)
    case Finish(result) => Settle(w, epoch, result, io)
    case EnsureAccount => Settle(if io.ensured then w.(store := Ensured(w.store, account)) else w, epoch, Continue, io)
    case SendFirst(batch) =>
      if io.loaded && account in w.store.states && !DeviceIsRegistered(w.config, w.store.states[account])
      then w.(worker := Registering(epoch, account, w.now, ForBatch(batch)))
      else w.(worker := ReadyToPush(epoch, account, batch, w.now))
    case CutGeneration(scope, baseline) =>
      if DeviceIsRegistered(w.config, w.store.states[account])
      then Materialize(w, epoch, account, scope, baseline, w.now, io)
      else w.(worker := Registering(epoch, account, w.now, ForGeneration(scope, baseline)))
  }

  /** The identity checks at the loop head of `run_worker`. */
  predicate MayStep(w: World, epoch: nat)
  {
    !w.control.cancel && w.control.epoch == epoch && AccountKey(w).Some? && w.control.active == w.session
  }

  /** The loop head of `run_worker` followed by one step. */
  function FromTop(w: World, epoch: nat, io: Io): (r: World)
    ensures SameBackground(w, r)
  {
    if !MayStep(w, epoch) then Exit(w, epoch, ExitStopped, io)
    else if BackingOff(w) then Exit(w, epoch, ExitBackoff, io)
    else StepFromTop(w, epoch, AccountKey(w).value, io)
  }

  function AfterAccepted(w: World, epoch: nat, account: Account, batch: OutboxBatch, io: Io): (r: World)
    ensures SameBackground(w, r)
  {
    var taken := AcceptedBatch(w.store, account, batch.id, w.now);
    if !io.accepted || taken.Failure? then Settle(w, epoch, StoreFailure, io)
    else
      var accepted := w.(store := taken.value);
      if !io.counted then Settle(accepted, epoch, StoreFailure, io)
      else
        var drained := PendingOf(accepted.store.batches, account) == [];
        var completes := drained && io.loaded && account in accepted.store.states
          && accepted.store.states[account].baselineStatus == InProgress && io.completed;
        var store := if completes then BaselineCompleted(accepted.store, account) else accepted.store;
        var noted := if io.recorded then Recorded(store, account, w.now, None, None) else store;
        Settle(accepted.(store := noted), epoch, Continue, io)
  }

  function AfterPushReply(w: World, epoch: nat, account: Account, batch: OutboxBatch, at: int, reply: PushReply,
                          io: Io): (r: World)
    ensures SameBackground(w, r)
  {
    match reply
    case PushAccepted => AfterAccepted(w, epoch, account, batch, io)
    case PushFailed(DeviceNotFound) =>
      if !io.loaded || account !in w.store.states then Settle(w, epoch, Continue, io)
      else
        var invalidated :=
          if io.registered then w.(store := DeviceRegistered(w.store, account, "invalidate", 0)) else w;
        if w.control.epoch != epoch then RemoteFailure(invalidated, epoch, account, at, Internal, io)
        else invalidated.(worker := Registering(epoch, account, at, Recovery))
    case PushFailed(error) => RemoteFailure(w, epoch, account, at, error, io)
  }

  function AfterDeviceReply(w: World, epoch: nat, account: Account, at: int, cause: Cause, reply: DeviceReply,
                            io: Io): (r: World)
    ensures SameBackground(w, r)
  {
    match reply
    case RegisterFailed(error) => RemoteFailure(w, epoch, account, at, error, io)
    case Registered =>
      var known :=
        if io.registered then w.(store := DeviceRegistered(w.store, account, w.config.fingerprint, 1)) else w;
      match cause
      case ForBatch(batch) => known.(worker := ReadyToPush(epoch, account, batch, at))
      case ForGeneration(scope, baseline) => Materialize(known, epoch, account, scope, baseline, at, io)
      case Recovery => Settle(known, epoch, Continue, io)
  }

  // ---- handlers ---------------------------------------------------------------------------

  /** The store writes of a sign-in: the state exists, and a baseline that is still needed asks for everything. */
  function SignInStore(s: StoreState, account: Account, io: Io): StoreState
  {
    var ensured := if io.ensured then Ensured(s, account) else s;
    if io.loaded && account in ensured.states && NeedsBaseline(ensured.states[account].baselineStatus) && io.merged
    then MergedPending(ensured, account, Full)
    else ensured
  }

  function SignedInHandler(w: World, user: string, io: Io): World
  {
    var control := w.control.(active := Some(user), cancel := false, blocked := None, epoch := w.control.epoch + 1,
                              retry := None);
    var entered := w.(control := control);
    var prepared :=
      if AccountKey(w).None? then entered else entered.(store := SignInStore(w.store, AccountKey(w).value, io));
    Kick(prepared, io)
  }

  function SignedOutHandler(w: World): World
  {
    w.(control := w.control.(cancel := true, epoch := w.control.epoch + 1, active := None, retry := None))
  }

  function CommitHandler(w: World, upload: CommittedUploads.CommittedDailyUpload, io: Io): World
  {
    var scope := CommittedUploads.UploadScopeOf(upload);
    if scope.None? || AccountKey(w).None? then w
    else
      Kick(if io.merged then w.(store := MergedPending(w.store, AccountKey(w).value, scope.value)) else w, io)
  }

  function RetryNowHandler(w: World, io: Io): World
  {
    Kick(w.(control := w.control.(blocked := None, retry := None)), io)
  }

  /**
   * The repair of a baseline after a refresh: its scope is merged into every known account, and then, if a user
   * is signed in, the service retries. Without a user the merged work waits for a later start.
   */
  function MergeForAllHandler(w: World, scope: UploadScope, io: Io): World
  {
    if !io.merged then w
    else
      var merged := w.(store := MergedForAll(w.store, scope));
      if w.session.Some? then RetryNowHandler(merged, io)
      else merged.(control := w.control.(blame := NoFailure))
  }

  // ---- network and server -----------------------------------------------------------------

  predicate Applied(w: World, push: Push)
  {
    exists i :: 0 <= i < |LogOf(w.server, push.user)| && LogOf(w.server, push.user)[i].key == push.key
  }

  /** The server applies a request unless it already knows its idempotency key. */
  function DeliverTo(w: World, push: Push): World
  {
    if Applied(w, push) then w else w.(server := w.server[push.user := LogOf(w.server, push.user) + [push]])
  }

  // ---- transitions ------------------------------------------------------------------------

  /** Idempotency keys drawn for one generation are distinct and were never drawn before. */
  predicate FreshKeys(w: World, io: Io)
  {
    && (io.exported.Some? ==> |io.exported.value| <= |io.keys|)
    && (forall i :: 0 <= i < |io.keys| ==> io.keys[i] !in w.history.keys)
    && (forall i, j :: 0 <= i < j < |io.keys| ==> io.keys[i] != io.keys[j])
  }

  predicate Enabled(w: World, e: Event)
  {
    match e
    case Tick(time) => w.now <= time
    case RetryDue(_) =>
      !w.control.cancel && w.control.retry.Some? && w.control.retry.value.epoch == w.control.epoch
          && w.control.retry.value.until <= w.now
    case MergeForAll(scope, _) => Valid(scope)
    case KickStart(_) => w.control.latent > 0
    case Advance(io) => (w.worker.AtTop? || w.worker.ReadyToPush?) && FreshKeys(w, io)
    case DeviceReplied(_, io) => w.worker.Registering? && FreshKeys(w, io)
    case PushReplied(reply, _) =>
      w.worker.Pushing? && (reply.PushAccepted? ==> Applied(w, RequestFor(w.worker.account, w.worker.batch)))
    case Deliver(request) => request in w.sent
    case _ => true
  }

  function Next(w: World, e: Event): World
  {
    match e
    case Tick(time) => w.(now := time)
    case Session(user) => w.(session := user)
    case SignedIn(user, io) => SignedInHandler(w, user, io)
    case SignedOut => SignedOutHandler(w)
    case SignIn(user, io) => SignedInHandler(w.(session := Some(user)), user, io)
    case SignOut => SignedOutHandler(w.(session := None))
    case Commit(upload, io) => CommitHandler(w, upload, io)
    case MergeForAll(scope, io) => MergeForAllHandler(w, scope, io)
    case RetryNow(io) => RetryNowHandler(w, io)
    case RetryDue(io) => Kick(w.(control := w.control.(retry := None)), io)
    case KickStart(io) =>
      if w.control.latent == 0 then w
      else StartWorker(w.(control := w.control.(latent := w.control.latent - 1)), io.spawned)
    case Advance(io) =>
      (match w.worker
       case AtTop(epoch) => FromTop(w, epoch, io)
       case ReadyToPush(epoch, account, batch, at) =>
         w.(sent := w.sent + {RequestFor(account, batch)}, worker := Pushing(epoch, account, batch, at))
       case _ => w)
    case DeviceReplied(reply, io) =>
      (match w.worker
       case Registering(epoch, account, at, cause) => AfterDeviceReply(w, epoch, account, at, cause, reply, io)
       case _ => w)
    case PushReplied(reply, io) =>
      (match w.worker
       case Pushing(epoch, account, batch, at) => AfterPushReply(w, epoch, account, batch, at, reply, io)
       case _ => w)
    case Deliver(request) => DeliverTo(w, request)
    case Crash => w.(session := None, control := INITIAL_CONTROL, worker := NoWorker)
  }

  /** The user's retry, or the one that follows a repair. */
  predicate Retries(w: World, e: Event)
  {
    e.RetryNow? || (e.MergeForAll? && e.io.merged && w.session.Some?)
  }

  predicate Initial(w: World)
  {
    && w.control == INITIAL_CONTROL && w.worker == NoWorker && w.store == EMPTY_STORE
    && w.session == None && w.sent == {} && w.server == map[] && w.history == NO_HISTORY
  }

  ghost predicate Takes(ws: seq<World>, es: seq<Event>, i: nat)
    requires i < |es| && |ws| == |es| + 1
  {
    Enabled(ws[i], es[i]) && ws[i + 1] == Next(ws[i], es[i])
  }

  /** `ws` is a run that takes the events `es`, every one of them enabled. */
  ghost predicate Run(ws: seq<World>, es: seq<Event>)
  {
    |ws| == |es| + 1 && forall i :: 0 <= i < |es| ==> Takes(ws, es, i)
  }

  ghost predicate RunFromStart(ws: seq<World>, es: seq<Event>)
  {
    Run(ws, es) && Initial(ws[0])
  }
}
