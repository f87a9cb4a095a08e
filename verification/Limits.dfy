/** Concrete runs that show where a promise stops: each names the events that break it. */
module Limits {
  import Baseline
  import opened Basics
  import Batches
  import opened CommittedUploads
  import Coverage
  import Idleness
  import opened OutboxStore
  import opened Scopes
  import opened SyncMachine
  import Timing

  const CONFIG: Config := Config("d", "1", "UTC", "f")
  const USER: Account := Account("u", "d")

  /** Every call answers, the export is empty. */
  const SMOOTH: Io :=
    Io(true, true, true, true, Some([]), true, true, true, true, true, true, true, true, true, true, true, false, [],
        "g")

  const REFUSED_MERGE: Io := SMOOTH.(merged := false)
  const SPLIT: Io := SMOOTH.(deferKick := true)
  const ONE_FACT: Io := SMOOTH.(exported := Some([Batches.Fact("i", "2026-01-01", "codex", [], "")]), keys := ["k"])

  const START: World := World(CONFIG, None, 0, INITIAL_CONTROL, NoWorker, EMPTY_STORE, {}, map[], NO_HISTORY)
  const AT_TOP: Control := Control(true, false, 1, None, Some("u"), None, 0, NoFailure)

  /** The user is signed in, with one account state and no batches so far. */
  function SignedInWorld(control: Control, worker: Worker, state: SyncState): World
  {
    World(CONFIG, Some("u"), 0, control, worker, StoreState(map[USER := state], [], 1), {}, map[], NO_HISTORY)
  }

  function DayUpload(key: string, day: int): CommittedDailyUpload
  {
    CommittedDailyUpload([CommittedDailyTarget(key, day, day, false)], false)
  }

  function DayScope(key: string, day: int): UploadScope { Incremental({key}, day, day) }

  lemma DayUploadScope(key: string, day: int)
    requires IsSourceKey(key)
    ensures UploadScopeOf(DayUpload(key, day)) == Some(DayScope(key, day)) && Valid(DayScope(key, day))
  {
    var targets := DayUpload(key, day).targets;
    var keys := Keys(targets);
    assert keys == [key] && Trim(keys[0]) == key;
    assert KeySet(keys) == {key};
    assert StartBound(targets, 0) == day && StartBound(targets, 1) == day;
    assert EndBound(targets, 0) == day && EndBound(targets, 1) == day;
  }

  lemma Names()
    ensures IsSourceKey("codex") && IsSourceKey("pi") && DeviceKey(CONFIG) == "d" && AccountFor(CONFIG, "u") == USER
  {
  }

  // ---- single steps -----------------------------------------------------------------------

  lemma SignsIn(io: Io)
    requires io == SMOOTH || io == REFUSED_MERGE
    ensures var state := if io.merged then WithMergedScope(FreshState(USER), Full) else FreshState(USER);
            Next(START, SignIn("u", io)) == SignedInWorld(AT_TOP, AtTop(1), state)
  {
    Names();
  }

  lemma Commits(control: Control, worker: Worker, state: SyncState, key: string, day: int, io: Io)
    requires IsSourceKey(key) && state.account == USER && io.merged && !io.deferKick && control.running
    ensures Next(SignedInWorld(control, worker, state), Commit(DayUpload(key, day), io))
         == SignedInWorld(control, worker, WithMergedScope(state, DayScope(key, day)))
  {
    Names();
    DayUploadScope(key, day);
  }

  /** A worker of the current epoch whose account still needs its device registered. */
  lemma StartsRegistering(control: Control, state: SyncState, scope: UploadScope)
    requires state.pendingScope == Some(scope) && state.deviceFingerprint.None?
    requires !control.cancel && control.epoch == 1 && control.active == Some("u") && control.retry.None?
    ensures Next(SignedInWorld(control, AtTop(1), state), Advance(SMOOTH))
         == SignedInWorld(control, Registering(1, USER, 0, ForGeneration(scope, state.baselineStatus)), state)
  {
    Names();
  }

  /** One export of nothing: the generation is empty. */
  lemma EmptyPlan(store: StoreState, account: Account, scope: UploadScope, at: int, io: Io)
    requires io.exported == Some([]) && io.reloaded && io.created && account in store.states && Valid(scope)
    requires PendingOf(store.batches, account) == []
    ensures var plan := PlanGeneration(CONFIG, store, account, scope, at, io);
            && plan.Some? && plan.value.scope == scope
            && plan.value.input == GenerationFor(account, store.states[account], scope, [], at, io)
            && CreatedGeneration(store, plan.value.input) == Success(plan.value.store)
  {
    QueryIsTheScope(scope);
  }

  lemma EmptyGeneration(state: SyncState, scope: UploadScope)
    requires Valid(scope) && state.account == USER && state.baselineStatus == NotStarted
    ensures var w := SignedInWorld(AT_TOP, Registering(1, USER, 0, ForGeneration(scope, NotStarted)), state);
            var v := Next(w, DeviceReplied(Registered, SMOOTH));
            && ExportsOf(v.history, "u") == [ExportRecord(scope, 0)] && Baseline.StatusOf(v, "u") == Complete
            && Coverage.PendingScopeOf(v.store, USER).None? && v.config == CONFIG && v.control == AT_TOP
            && v.worker == AtTop(1)
            && v.session == Some("u") && v.store.batches == []
  {
    hide Batches.Build;
    Names();
    var w := SignedInWorld(AT_TOP, Registering(1, USER, 0, ForGeneration(scope, NotStarted)), state);
    var known := w.(store := DeviceRegistered(w.store, USER, "f", 1));
    EmptyPlan(known.store, USER, scope, 0, SMOOTH);
    var plan := PlanGeneration(CONFIG, known.store, USER, scope, 0, SMOOTH).value;
    var made := WithGeneration(known, plan.input, plan.store, plan.scope);
    assert ExportsOf(made.history, "u") == [ExportRecord(scope, 0)];
    assert AfterEmptyExport(made, USER, NotStarted, 0, SMOOTH).history == made.history;
    assert made.store.batches + [] == made.store.batches == [];
  }

  lemma NarrowEmptyGenerationHollows(state: SyncState, scope: UploadScope)
    requires Valid(scope) && !scope.Full?
    ensures var w := SignedInWorld(AT_TOP, Registering(1, USER, 0, ForGeneration(scope, NotStarted)), state);
            Baseline.HollowsBaseline(w, DeviceReplied(Registered, SMOOTH))
  {
    EmptyPlan(DeviceRegistered(StoreState(map[USER := state], [], 1), USER, "f", 1), USER, scope, 0, SMOOTH);
  }

  /** Events whose guard is about the worker and the keys only. */
  predicate PlainlyEnabled(w: World, e: Event)
  {
    match e
    case SignIn(_, _) => true
    case Commit(_, _) => true
    case Session(_) => true
    case MergeForAll(scope, _) => Valid(scope)
    case KickStart(_) => w.control.latent > 0
    case Advance(io) => (w.worker.AtTop? || w.worker.ReadyToPush?) && io.exported == Some([]) && io.keys == []
    case DeviceReplied(_, io) => w.worker.Registering? && (io == SMOOTH || (io == ONE_FACT && w.history == NO_HISTORY))
    case _ => false
  }

  lemma TakesStep(ws: seq<World>, es: seq<Event>, i: nat)
    requires i < |es| && |ws| == |es| + 1 && PlainlyEnabled(ws[i], es[i]) && ws[i + 1] == Next(ws[i], es[i])
    ensures Takes(ws, es, i)
  {
  }

  // ---- a baseline without a full export ---------------------------------------------------

  const CAPTURED: SyncState := WithMergedScope(FreshState(USER), DayScope("codex", 10))
  const IN_FLIGHT: Worker := Registering(1, USER, 0, ForGeneration(DayScope("codex", 10), NotStarted))

  /**
   * The sign-in handler ignores a refused merge of the full scope. If the first commit then exports
   * nothing, the baseline is marked complete although no full export was ever made.
   */
  lemma RefusedSignInMergeHollowsBaseline() returns (ws: seq<World>, es: seq<Event>)
    ensures RunFromStart(ws, es) && |ws| == 5
    ensures Baseline.StatusOf(ws[4], "u") == Complete && !Baseline.FullMade(ws[4], "u")
    ensures !Baseline.FaithfulSignIn(ws[0], es[0]) && Baseline.HollowsBaseline(ws[3], es[3])
  {
    hide Next, Baseline.HollowsBaseline;
    Names();
    DayUploadScope("codex", 10);
    SignsIn(REFUSED_MERGE);
    Commits(AT_TOP, AtTop(1), FreshState(USER), "codex", 10, SMOOTH);
    StartsRegistering(AT_TOP, CAPTURED, DayScope("codex", 10));
    EmptyGeneration(CAPTURED, DayScope("codex", 10));
    NarrowEmptyGenerationHollows(CAPTURED, DayScope("codex", 10));
    es := [SignIn("u", REFUSED_MERGE), Commit(DayUpload("codex", 10), SMOOTH), Advance(SMOOTH),
           DeviceReplied(Registered, SMOOTH)];
    var w3 := SignedInWorld(AT_TOP, IN_FLIGHT, CAPTURED);
    ws := [START, SignedInWorld(AT_TOP, AtTop(1), FreshState(USER)), SignedInWorld(AT_TOP, AtTop(1), CAPTURED), w3,
           Next(w3, es[3])];
    TakesStep(ws, es, 0);
    TakesStep(ws, es, 1);
    TakesStep(ws, es, 2);
    TakesStep(ws, es, 3);
  }

  // ---- a commit that is lost --------------------------------------------------------------

  lemma GenerationForgetsLateCommit()
    ensures var w := SignedInWorld(AT_TOP, IN_FLIGHT, WithMergedScope(CAPTURED, DayScope("pi", 20)));
            var v := Next(w, DeviceReplied(Registered, SMOOTH));
            !Coverage.Remembered(v, Coverage.CommitRecord("u", DayScope("pi", 20), 0), "pi", 20)
  {
    Names();
    DayUploadScope("codex", 10);
    EmptyGeneration(WithMergedScope(CAPTURED, DayScope("pi", 20)), DayScope("codex", 10));
    assert !Covers(DayScope("codex", 10), "pi", 20);
  }

  /**
   * A commit that lands while the device registration of the next generation is in flight is gone: its
   * usage is neither pending nor in any export taken since.
   */
  lemma LateCommitIsForgotten() returns (ws: seq<World>, es: seq<Event>)
    ensures RunFromStart(ws, es) && |ws| == 6
    ensures es[3] == Commit(DayUpload("pi", 20), SMOOTH) && AccountKey(ws[3]) == Some(USER)
    ensures UploadScopeOf(DayUpload("pi", 20)) == Some(DayScope("pi", 20)) && Covers(DayScope("pi", 20), "pi", 20)
    ensures !Coverage.Remembered(ws[5], Coverage.RecordOf(ws[3], USER, DayScope("pi", 20)), "pi", 20)
    ensures !Coverage.QuietCommit(ws[3], USER, DayScope("pi", 20))
  {
    hide Next;
    Names();
    DayUploadScope("pi", 20);
    SignsIn(REFUSED_MERGE);
    Commits(AT_TOP, AtTop(1), FreshState(USER), "codex", 10, SMOOTH);
    StartsRegistering(AT_TOP, CAPTURED, DayScope("codex", 10));
    Commits(AT_TOP, IN_FLIGHT, CAPTURED, "pi", 20, SMOOTH);
    GenerationForgetsLateCommit();
    es := [SignIn("u", REFUSED_MERGE), Commit(DayUpload("codex", 10), SMOOTH), Advance(SMOOTH),
           Commit(DayUpload("pi", 20), SMOOTH), DeviceReplied(Registered, SMOOTH)];
    var w4 := SignedInWorld(AT_TOP, IN_FLIGHT, WithMergedScope(CAPTURED, DayScope("pi", 20)));
    ws := [START, SignedInWorld(AT_TOP, AtTop(1), FreshState(USER)), SignedInWorld(AT_TOP, AtTop(1), CAPTURED),
           SignedInWorld(AT_TOP, IN_FLIGHT, CAPTURED), w4, Next(w4, es[4])];
    TakesStep(ws, es, 0);
    TakesStep(ws, es, 1);
    TakesStep(ws, es, 2);
    TakesStep(ws, es, 3);
    TakesStep(ws, es, 4);
    assert "pi" !in DayScope("codex", 10).sourceKeys;
  }

  // ---- idling before work -----------------------------------------------------------------

  function Counting(counted: bool): Io { SMOOTH.(workCounted := counted) }

  const FULL: SyncState := WithMergedScope(FreshState(USER), Full)
  const STRAYED: Control := AT_TOP.(running := false)

  /**
   * If the session leaves and comes back without its handler, a worker that looked at it meanwhile has ended
   * for good: the service idles before work with no failure to blame, whether or not the reads it would make of
   * its work would succeed.
   */
  lemma StraySessionStopsWorker(counted: bool) returns (ws: seq<World>, es: seq<Event>)
    ensures RunFromStart(ws, es) && |ws| == 5 && es[0] == SignIn("u", SMOOTH)
    ensures es[1] == Session(None) && es[2] == Advance(Counting(counted)) && es[3] == Session(Some("u"))
    ensures Idleness.Strands(ws[2], es[2]) && Idleness.IdlesBeforeWork(ws[4]) && ws[4].control.blame == NoFailure
  {
    hide Next;
    Names();
    SignsIn(SMOOTH);
    es := [SignIn("u", SMOOTH), Session(None), Advance(Counting(counted)), Session(Some("u"))];
    var w1 := SignedInWorld(AT_TOP, AtTop(1), FULL);
    var w4 := SignedInWorld(STRAYED, NoWorker, FULL);
    ws := [START, w1, w1.(session := None), w4.(session := None), w4];
    Strays(w1, w4, counted);
    TakesStep(ws, es, 0);
    TakesStep(ws, es, 1);
    TakesStep(ws, es, 2);
    TakesStep(ws, es, 3);
  }

  lemma Strays(w1: World, w4: World, counted: bool)
    requires w1 == SignedInWorld(AT_TOP, AtTop(1), FULL) && w4 == SignedInWorld(STRAYED, NoWorker, FULL)
    ensures Next(w1, Session(None)) == w1.(session := None)
    ensures Next(w1.(session := None), Advance(Counting(counted))) == w4.(session := None)
    ensures Idleness.Strands(w1.(session := None), Advance(Counting(counted)))
    ensures Next(w4.(session := None), Session(Some("u"))) == w4
  {
  }

  /** An account with nothing to do: its worker ends Quiescent. */
  lemma NothingLeft(w: World)
    requires w.config == CONFIG && w.session == Some("u") && w.control == AT_TOP && w.worker == AtTop(1)
    requires w.store.batches == [] && Coverage.PendingScopeOf(w.store, USER).None?
    requires Baseline.StatusOf(w, "u") == Complete
    ensures Next(w, Advance(SMOOTH)) == w.(worker := NoWorker, control := STRAYED)
  {
    Names();
  }

  /** A repair that merges its scope while the session is away leaves the work to nobody. */
  lemma RepairStrandsWork() returns (ws: seq<World>, es: seq<Event>)
    ensures RunFromStart(ws, es) && |ws| == 8 && es[4] == Session(None) && es[6] == Session(Some("u"))
    ensures es[5] == MergeForAll(Full, SMOOTH) && Idleness.Strands(ws[5], es[5])
    ensures Idleness.IdlesBeforeWork(ws[7]) && ws[7].control.blame == NoFailure
  {
    hide Next, PendingOf;
    Names();
    SignsIn(SMOOTH);
    StartsRegistering(AT_TOP, FULL, Full);
    EmptyGeneration(FULL, Full);
    es := [SignIn("u", SMOOTH), Advance(SMOOTH), DeviceReplied(Registered, SMOOTH), Advance(SMOOTH), Session(None),
           MergeForAll(Full, SMOOTH), Session(Some("u"))];
    var w1, w2 := SignedInWorld(AT_TOP, AtTop(1), FULL), SignedInWorld(AT_TOP, NEEDS_ALL, FULL);
    var w3 := Next(w2, es[2]);
    var w4 := w3.(worker := NoWorker, control := STRAYED);
    var w6 := Next(w4.(session := None), es[5]);
    ws := [START, w1, w2, w3, w4, w4.(session := None), w6, w6.(session := Some("u"))];
    NothingLeft(w3);
    RepairArrives(w4);
    forall i | 0 <= i < 7 ensures Takes(ws, es, i) { TakesStep(ws, es, i); }
  }

  lemma RepairArrives(w: World)
    requires w.config == CONFIG && w.session == Some("u") && w.control == STRAYED && w.worker == NoWorker
    requires USER in w.store.states
    ensures var away := w.(session := None); var v := Next(away, MergeForAll(Full, SMOOTH));
            && Next(w, Session(None)) == away && Idleness.Strands(away, MergeForAll(Full, SMOOTH))
            && Next(v, Session(Some("u"))) == v.(session := Some("u"))
            && Idleness.IdlesBeforeWork(v.(session := Some("u"))) && v.control.blame == NoFailure
  {
    Names();
  }

  // ---- a push in a blocked epoch ----------------------------------------------------------

  const BLOCKED: Control := AT_TOP.(running := false, blocked := Some(1), latent := 1)
  const RESUMED: Control := BLOCKED.(running := true, latent := 0)
  const NEEDS_ALL: Worker := Registering(1, USER, 0, ForGeneration(Full, NotStarted))
  const FAILED: SyncState :=
    FULL.(lastAttemptAt := Some(0), lastErrorCode := Some("UNAUTHORIZED"), lastErrorRetryable := Some(false))

  /** A commit whose kick passes its check and then waits; the full scope is pending already. */
  lemma CommitDefersKick()
    ensures Next(SignedInWorld(AT_TOP, AtTop(1), FULL), Commit(DayUpload("codex", 10), SPLIT))
         == SignedInWorld(AT_TOP.(latent := 1), AtTop(1), FULL)
  {
    Names();
    DayUploadScope("codex", 10);
  }

  lemma RegistrationFailsForGood()
    ensures Next(SignedInWorld(AT_TOP.(latent := 1), NEEDS_ALL, FULL),
            DeviceReplied(RegisterFailed(Unauthorized), SMOOTH))
         == SignedInWorld(BLOCKED, NoWorker, FAILED)
  {
  }

  lemma KickResumes()
    ensures Next(SignedInWorld(BLOCKED, NoWorker, FAILED), KickStart(SMOOTH))
            == SignedInWorld(RESUMED, AtTop(1), FAILED)
  {
  }

  /** The account is ready for its first push, in the blocked epoch. */
  predicate ReadyInBlockedEpoch(w: World)
  {
    && w.config == CONFIG && w.session == Some("u") && w.control == RESUMED && w.worker == AtTop(1)
    && PendingOf(w.store.batches, USER) != []
    && USER in w.store.states && DeviceIsRegistered(CONFIG, w.store.states[USER])
  }

  lemma OneFactPlan(store: StoreState)
    requires USER in store.states && store.states[USER].nextClientRevision == 1 && store.batches == []
    ensures var plan := PlanGeneration(CONFIG, store, USER, Full, 0, ONE_FACT);
            && plan.Some? && plan.value.input.prepared != [] && plan.value.input.account == USER
            && CreatedGeneration(store, plan.value.input) == Success(plan.value.store)
  {
    hide Batches.PreparedBatches;
    Batches.BuildFailsExactlyWhen(ONE_FACT.exported.value, MetaOf(CONFIG, Full), Batches.BACKEND_V1, 1, ONE_FACT.keys);
  }

  lemma FirstGeneration()
    ensures ReadyInBlockedEpoch(Next(SignedInWorld(RESUMED, NEEDS_ALL, FAILED), DeviceReplied(Registered, ONE_FACT)))
  {
    hide PlanGeneration, PendingOf;
    var w := SignedInWorld(RESUMED, NEEDS_ALL, FAILED);
    var known := w.(store := DeviceRegistered(w.store, USER, "f", 1));
    OneFactPlan(known.store);
    var plan := PlanGeneration(CONFIG, known.store, USER, Full, 0, ONE_FACT).value;
    assert WellNumbered(known.store);
    CreateAppends(known.store, plan.input, USER);
    assert NewBatches(plan.input, 1) != [];
  }

  lemma PushStarts(w: World)
    requires ReadyInBlockedEpoch(w)
    ensures Next(w, Advance(SMOOTH)) == w.(worker := ReadyToPush(1, USER, PendingOf(w.store.batches, USER)[0], w.now))
  {
    Names();
  }

  /**
   * A kick that passed its checks before a terminal exit starts a worker in the blocked epoch, and that worker
   * pushes, with no `retry_now`, sign-in or restart since.
   */
  lemma SplitKickPushesInBlockedEpoch() returns (ws: seq<World>, es: seq<Event>)
    ensures RunFromStart(ws, es) && |es| == 9
    ensures ws[4].worker == NoWorker && ws[4].control.blocked == Some(ws[4].control.epoch) && ws[4].control.latent == 1
    ensures forall k :: 4 <= k < 9 ==> !Idleness.Unblocks(ws[k], es[k])
    ensures Timing.Sends(ws[8], es[8]) && ws[8].worker.epoch == ws[4].control.epoch == ws[8].control.epoch
  {
    hide Next;
    es := [SignIn("u", SMOOTH), Commit(DayUpload("codex", 10), SPLIT), Advance(SMOOTH),
           DeviceReplied(RegisterFailed(Unauthorized), SMOOTH), KickStart(SMOOTH), Advance(SMOOTH),
           DeviceReplied(Registered, ONE_FACT), Advance(SMOOTH), Advance(SMOOTH)];
    var w6 := SignedInWorld(RESUMED, NEEDS_ALL, FAILED);
    var w7 := Next(w6, es[6]);
    var w8 := Next(w7, es[7]);
    ws := [START, SignedInWorld(AT_TOP, AtTop(1), FULL), SignedInWorld(AT_TOP.(latent := 1), AtTop(1), FULL),
           SignedInWorld(AT_TOP.(latent := 1), NEEDS_ALL, FULL), SignedInWorld(BLOCKED, NoWorker, FAILED),
           SignedInWorld(RESUMED, AtTop(1), FAILED), w6, w7, w8, Next(w8, es[8])];
    SignsIn(SMOOTH);
    CommitDefersKick();
    StartsRegistering(AT_TOP.(latent := 1), FULL, Full);
    RegistrationFailsForGood();
    KickResumes();
    StartsRegistering(RESUMED, FAILED, Full);
    FirstGeneration();
    PushStarts(w7);
    forall i | 0 <= i < 9 ensures Takes(ws, es, i) { TakesStep(ws, es, i); }
  }
}
