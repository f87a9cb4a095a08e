/** The durable collect-sync store: per-account state and the outbox of immutable batches. */
module OutboxStore {
  import opened Basics
  import Batches
  import opened Scopes

  datatype Account = Account(userId: string, clientDeviceId: string)

  datatype BaselineStatus = NotStarted | InProgress | Complete

  datatype SyncState = SyncState(
    account: Account,
    nextClientRevision: int,
    baselineStatus: BaselineStatus,
    pendingScope: Option<UploadScope>,
    activeGenerationId: Option<string>,
    lastAttemptAt: Option<int>,
    lastAcceptedAt: Option<int>,
    lastErrorCode: Option<string>,
    lastErrorRetryable: Option<bool>,
    deviceFingerprint: Option<string>,
    deviceRegisteredRevision: Option<int>)

  datatype BatchStatus = Pending | Accepted

  datatype OutboxBatch = OutboxBatch(
    id: int,
    account: Account,
    generationId: string,
    batchIndex: int,
    batchCount: int,
    clientRevision: int,
    idempotencyKey: string,
    requestBody: Batches.PushBody,
    windowScope: Batches.WireScope,
    windowStart: string,
    windowEnd: string,
    status: BatchStatus,
    createdAt: int,
    acceptedAt: Option<int>)

  datatype GenerationInput = GenerationInput(
    account: Account,
    generationId: string,
    prepared: seq<Batches.PreparedBatch>,
    now: int,
    marksBaselineInProgress: bool,
    clearPendingScope: bool)

  datatype StoreError = NotFound | PendingGenerationExists | Backend

  /** The abstract content of the store. */
  datatype StoreState = StoreState(states: map<Account, SyncState>, batches: seq<OutboxBatch>, nextId: int)

  const EMPTY_STORE: StoreState := StoreState(map[], [], 1)

  // ---- specification functions ------------------------------------------------------------

  function FreshState(account: Account): SyncState
  {
    SyncState(account, 1, NotStarted, None, None, None, None, None, None, None, None)
  }

  function StateOf(s: StoreState, account: Account): Option<SyncState>
  {
    if account in s.states then Some(s.states[account]) else None
  }

  function EnsuredState(s: StoreState, account: Account): SyncState
  {
    if account in s.states then s.states[account].(account := account) else FreshState(account)
  }

  function Ensured(s: StoreState, account: Account): StoreState
  {
    s.(states := s.states[account := EnsuredState(s, account)])
  }

  function WithMergedScope(state: SyncState, scope: UploadScope): SyncState
  {
    state.(pendingScope := Some(MergeUploadScopes(state.pendingScope, scope)))
  }

  function MergedPending(s: StoreState, account: Account, scope: UploadScope): StoreState
  {
    s.(states := s.states[account := WithMergedScope(EnsuredState(s, account), scope)])
  }

  function MergedForAll(s: StoreState, scope: UploadScope): StoreState
  {
    s.(states := map account | account in s.states :: WithMergedScope(s.states[account], scope))
  }

  predicate IsPendingOf(batch: OutboxBatch, account: Account)
  {
    batch.account == account && batch.status == Pending
  }

  /** The account's pending batches in creation order. */
  function PendingOf(batches: seq<OutboxBatch>, account: Account): seq<OutboxBatch>
  {
    if batches == [] then []
    else
      var rest := PendingOf(batches[..|batches| - 1], account);
      if IsPendingOf(batches[|batches| - 1], account) then rest + [batches[|batches| - 1]] else rest
  }

  function NewBatch(input: GenerationInput, prepared: Batches.PreparedBatch, id: int): OutboxBatch
  {
    OutboxBatch(id, input.account, input.generationId, prepared.batchIndex, prepared.batchCount,
        prepared.clientRevision,
                prepared.idempotencyKey, prepared.requestBody, prepared.windowScope, prepared.windowStart,
                    prepared.windowEnd,
                Pending, input.now, None)
  }

  function NewBatches(input: GenerationInput, firstId: int): seq<OutboxBatch>
  {
    seq(|input.prepared|, i requires 0 <= i < |input.prepared| => NewBatch(input, input.prepared[i], firstId + i))
  }

  function GenerationState(state: SyncState, input: GenerationInput): SyncState
  {
    state.(nextClientRevision := state.nextClientRevision + |input.prepared|,
           baselineStatus := if input.marksBaselineInProgress then InProgress else state.baselineStatus,
           pendingScope := if input.clearPendingScope then None else state.pendingScope,
           activeGenerationId := if input.prepared != [] then Some(input.generationId) else state.activeGenerationId)
  }

  function CreatedGeneration(s: StoreState, input: GenerationInput): Result<StoreState, StoreError>
  {
    if PendingOf(s.batches, input.account) != [] then Failure(PendingGenerationExists)
    else
      Success(StoreState(s.states[input.account := GenerationState(EnsuredState(s, input.account), input)],
                         s.batches + NewBatches(input, s.nextId),
                         s.nextId + |input.prepared|))
  }

  /** The first position of a batch with this id and account, or the length when there is none. */
  function PositionOf(batches: seq<OutboxBatch>, account: Account, id: int): (r: nat)
    ensures r <= |batches|
    ensures r < |batches| ==> batches[r].id == id && batches[r].account == account
    ensures forall k :: 0 <= k < r ==> !(batches[k].id == id && batches[k].account == account)
  {
    if batches == [] || (batches[0].id == id && batches[0].account == account) then 0
    else 1 + PositionOf(batches[1..], account, id)
  }

  function RemoveAt<T>(s: seq<T>, i: nat): seq<T>
    requires i < |s|
  {
    s[..i] + s[i + 1..]
  }

  function AcceptedBatch(s: StoreState, account: Account, id: int, at: int): Result<StoreState, StoreError>
  {
    var i := PositionOf(s.batches, account, id);
    if i == |s.batches| then Failure(NotFound)
    else
      Success(StoreState(
        if account in s.states then s.states[account := s.states[account].(lastAcceptedAt := Some(at))] else s.states,
        RemoveAt(s.batches, i), s.nextId))
  }

  function Recorded(s: StoreState, account: Account, now: int, code: Option<string>,
                    retryable: Option<bool>): StoreState
  {
    s.(states := s.states[account :=
        EnsuredState(s, account).(lastAttemptAt := Some(now), lastErrorCode := code, lastErrorRetryable := retryable)])
  }

  function BaselineCompleted(s: StoreState, account: Account): StoreState
  {
    s.(states := s.states[account := EnsuredState(s, account).(baselineStatus := Complete)])
  }

  function DeviceRegistered(s: StoreState, account: Account, fingerprint: string, revision: int): StoreState
  {
    s.(states := s.states[account :=
        EnsuredState(s, account).(deviceFingerprint := Some(fingerprint), deviceRegisteredRevision := Some(revision))])
  }

  // ---- facts about the outbox -------------------------------------------------------------

  lemma {:induction false} PendingOfAppend(batches: seq<OutboxBatch>, more: seq<OutboxBatch>, account: Account)
    ensures PendingOf(batches + more, account) == PendingOf(batches, account) + PendingOf(more, account)
  {
    if more == [] {
      assert batches + more == batches;
    } else {
      var front, last := more[..|more| - 1], more[|more| - 1];
      PendingOfAppend(batches, front, account);
      assert (batches + more)[..|batches + more| - 1] == batches + front;
    }
  }

  lemma {:induction false} PendingOfMembers(batches: seq<OutboxBatch>, account: Account)
    ensures forall b :: b in PendingOf(batches, account) <==> b in batches && IsPendingOf(b, account)
  {
    if batches != [] {
      PendingOfMembers(batches[..|batches| - 1], account);
      assert batches == batches[..|batches| - 1] + [batches[|batches| - 1]];
    }
  }

  lemma {:induction false} PendingOfUniform(batches: seq<OutboxBatch>, account: Account, all: bool)
    requires forall i :: 0 <= i < |batches| ==> (IsPendingOf(batches[i], account) <==> all)
    ensures PendingOf(batches, account) == if all then batches else []
  {
    if batches != [] {
      PendingOfUniform(batches[..|batches| - 1], account, all);
      assert batches == batches[..|batches| - 1] + [batches[|batches| - 1]];
    }
  }

  /** Every stored batch is pending (accepted ones are removed) and ids are distinct and below the next one. */
  predicate Numbered(batches: seq<OutboxBatch>, nextId: int)
  {
    && (forall i :: 0 <= i < |batches| ==> batches[i].status == Pending && batches[i].id < nextId)
    && (forall i, j :: 0 <= i < j < |batches| ==> batches[i].id < batches[j].id)
  }

  predicate WellNumbered(s: StoreState) { Numbered(s.batches, s.nextId) }

  lemma NewBatchesNumbered(batches: seq<OutboxBatch>, nextId: int, input: GenerationInput)
    requires Numbered(batches, nextId)
    ensures Numbered(batches + NewBatches(input, nextId), nextId + |input.prepared|)
  {
    var all := batches + NewBatches(input, nextId);
    forall i | 0 <= i < |all| ensures all[i].status == Pending && all[i].id < nextId + |input.prepared| {
      if i >= |batches| { assert all[i] == NewBatch(input, input.prepared[i - |batches|], nextId + i - |batches|); }
    }
    forall i, j | 0 <= i < j < |all| ensures all[i].id < all[j].id {
      if j >= |batches| {
        assert all[j].id == nextId + j - |batches|;
        if i >= |batches| { assert all[i].id == nextId + i - |batches|; }
      }
    }
  }

  /** Creating a generation appends exactly its batches to its own account's queue and to no other. */
  lemma CreateAppends(s: StoreState, input: GenerationInput, other: Account)
    requires CreatedGeneration(s, input).Success? && WellNumbered(s)
    ensures var t := CreatedGeneration(s, input).value;
            && WellNumbered(t)
            && PendingOf(t.batches, input.account) == NewBatches(input, s.nextId)
            && (other != input.account ==> PendingOf(t.batches, other) == PendingOf(s.batches, other))
  {
    var added := NewBatches(input, s.nextId);
    NewBatchesNumbered(s.batches, s.nextId, input);
    PendingOfAppend(s.batches, added, input.account);
    PendingOfUniform(added, input.account, true);
    if other != input.account {
      PendingOfAppend(s.batches, added, other);
      PendingOfUniform(added, other, false);
    }
  }

  lemma PositionIs(batches: seq<OutboxBatch>, nextId: int, k: nat)
    requires Numbered(batches, nextId) && k < |batches|
    ensures PositionOf(batches, batches[k].account, batches[k].id) == k
  {
  }

  /** The head of a queue comes before every other pending batch of its account. */
  lemma {:induction false} HeadComesFirst(batches: seq<OutboxBatch>, nextId: int, account: Account) returns (k: nat)
    requires Numbered(batches, nextId) && PendingOf(batches, account) != []
    ensures k < |batches| && batches[k] == PendingOf(batches, account)[0] && PendingOf(batches[..k], account) == []
  {
    var front := batches[..|batches| - 1];
    if PendingOf(front, account) == [] {
      k := |batches| - 1;
    } else {
      k := HeadComesFirst(front, nextId, account);
      assert front[..k] == batches[..k];
    }
  }

  lemma HeadPosition(batches: seq<OutboxBatch>, nextId: int, account: Account)
    requires Numbered(batches, nextId) && PendingOf(batches, account) != []
    ensures var head := PendingOf(batches, account)[0];
            var i := PositionOf(batches, account, head.id);
            i < |batches| && batches[i] == head && PendingOf(batches[..i], account) == []
  {
    var k := HeadComesFirst(batches, nextId, account);
    PendingOfMembers(batches, account);
    assert PendingOf(batches, account)[0] in PendingOf(batches, account);
    PositionIs(batches, nextId, k);
  }

  lemma RemoveFromQueue(batches: seq<OutboxBatch>, i: nat, account: Account)
    requires i < |batches|
    ensures PendingOf(batches, account)
         == PendingOf(batches[..i], account) + (if IsPendingOf(batches[i], account) then [batches[i]]
             else []) + PendingOf(batches[i + 1..], account)
    ensures PendingOf(RemoveAt(batches, i), account)
            == PendingOf(batches[..i], account) + PendingOf(batches[i + 1..], account)
  {
    var here := [batches[i]];
    assert batches == batches[..i] + here + batches[i + 1..];
    assert here[..0] == [];
    PendingOfAppend(batches[..i] + here, batches[i + 1..], account);
    PendingOfAppend(batches[..i], here, account);
    PendingOfAppend(batches[..i], batches[i + 1..], account);
  }

  lemma RemoveKeepsNumbered(batches: seq<OutboxBatch>, nextId: int, i: nat)
    requires Numbered(batches, nextId) && i < |batches|
    ensures Numbered(RemoveAt(batches, i), nextId)
  {
    var left := RemoveAt(batches, i);
    assert forall k :: 0 <= k < |left| ==> left[k] == batches[if k < i then k else k + 1];
  }

  lemma RemoveFromOthers(batches: seq<OutboxBatch>, i: nat, other: Account)
    requires i < |batches| && batches[i].account != other
    ensures PendingOf(RemoveAt(batches, i), other) == PendingOf(batches, other)
  {
    RemoveFromQueue(batches, i, other);
    assert PendingOf(batches[..i], other) + [] == PendingOf(batches[..i], other);
  }

  /** Accepting the head of an account's queue removes that batch and nothing else. */
  lemma AcceptRemovesHead(s: StoreState, account: Account, at: int, other: Account)
    requires WellNumbered(s) && PendingOf(s.batches, account) != []
    ensures var head := PendingOf(s.batches, account)[0];
            var r := AcceptedBatch(s, account, head.id, at);
            && r.Success? && WellNumbered(r.value)
            && PendingOf(r.value.batches, account) == PendingOf(s.batches, account)[1..]
            && (other != account ==> PendingOf(r.value.batches, other) == PendingOf(s.batches, other))
  {
    HeadPosition(s.batches, s.nextId, account);
    var i := PositionOf(s.batches, account, PendingOf(s.batches, account)[0].id);
    RemoveFromQueue(s.batches, i, account);
    RemoveKeepsNumbered(s.batches, s.nextId, i);
    if other != account {
      RemoveFromOthers(s.batches, i, other);
    }
  }

  // ---- the imperative store ---------------------------------------------------------------

  /**
   * The store as the application drives it. `answers` says whether the backend answers the call;
   * a call it does not answer fails and changes nothing.
   */
  class CollectSyncStore {
    var states: map<Account, SyncState>
    var batches: seq<OutboxBatch>
    var nextId: int

    ghost function View(): StoreState
      reads this
    {
      StoreState(states, batches, nextId)
    }

    constructor ()
      ensures View() == EMPTY_STORE
    {
      states, batches, nextId := map[], [], 1;
    }

    method LoadState(account: Account, answers: bool) returns (r: Result<Option<SyncState>, StoreError>)
      ensures r == if answers then Success(StateOf(View(), account)) else Failure(Backend)
    {
      if !answers {
        return Failure(Backend);
      }
      return Success(if account in states then Some(states[account]) else None);
    }

    method EnsureState(account: Account, answers: bool) returns (r: Result<SyncState, StoreError>)
      modifies this
      ensures View() == if answers then Ensured(old(View()), account) else old(View())
      ensures r == if answers then Success(EnsuredState(old(View()), account)) else Failure(Backend)
    {
      if !answers {
        return Failure(Backend);
      }
      var state := FreshState(account);
      if account in states {
        state := states[account];
      }
      state := state.(account := account);
      states := states[account := state];
      return Success(state);
    }

    method MergePendingScope(account: Account, scope: UploadScope, answers: bool)
      returns (r: Result<UploadScope, StoreError>)
      modifies this
      ensures View() == if answers then MergedPending(old(View()), account, scope) else old(View())
      ensures r == if answers then Success(MergeUploadScopes(EnsuredState(old(View()), account).pendingScope, scope))
              else Failure(Backend)
    {
      if !answers {
        return Failure(Backend);
      }
      var ensured := EnsureState(account, true);
      var state := states[account];
      var merged := MergeUploadScopes(state.pendingScope, scope);
      states := states[account := state.(pendingScope := Some(merged))];
      return Success(merged);
    }

    method MergePendingScopeForAllAccounts(scope: UploadScope, answers: bool) returns (r: Result<nat, StoreError>)
      modifies this
      ensures View() == if answers then MergedForAll(old(View()), scope) else old(View())
      ensures r == if answers then Success(|old(states)|) else Failure(Backend)
    {
      if !answers {
        return Failure(Backend);
      }
      var todo, count := states.Keys, 0;
      while todo != {}
        invariant todo <= old(states).Keys && states.Keys == old(states).Keys
        invariant batches == old(batches) && nextId == old(nextId)
        invariant count == |old(states).Keys| - |todo|
        invariant forall a :: a in states ==> states[a] == if a in todo then old(states)[a]
            else WithMergedScope(old(states)[a], scope)
        decreases todo
      {
        var account :| account in todo;
        states := states[account := WithMergedScope(states[account], scope)];
        todo, count := todo - {account}, count + 1;
      }
      assert states == MergedForAll(old(View()), scope).states;
      return Success(count);
    }

    method ListPendingBatches(account: Account, answers: bool) returns (r: Result<seq<OutboxBatch>, StoreError>)
      ensures r == if answers then Success(PendingOf(batches, account)) else Failure(Backend)
    {
      if !answers {
        return Failure(Backend);
      }
      var pending: seq<OutboxBatch> := [];
      for i := 0 to |batches|
        invariant pending == PendingOf(batches[..i], account)
      {
        assert batches[..i + 1][..i] == batches[..i];
        if batches[i].account == account && batches[i].status == Pending {
          pending := pending + [batches[i]];
        }
      }
      assert batches[..|batches|] == batches;
      return Success(pending);
    }

    method CountPendingBatches(account: Account, answers: bool) returns (r: Result<nat, StoreError>)
      ensures r == if answers then Success(|PendingOf(batches, account)|) else Failure(Backend)
    {
      var listed := ListPendingBatches(account, answers);
      match listed
      case Success(pending) => r := Success(|pending|);
      case Failure(error) => r := Failure(error);
    }

    method CreateGeneration(input: GenerationInput, answers: bool) returns (r: Result<(), StoreError>)
      modifies this
      ensures !answers ==> r == Failure(Backend) && View() == old(View())
      ensures answers ==>
                match CreatedGeneration(old(View()), input)
                case Success(after) => r == Success(()) && View() == after
                case Failure(error) => r == Failure(error) && View() == old(View())
    {
      var count := CountPendingBatches(input.account, answers);
      if count.Failure? {
        return Failure(Backend);
      }
      if count.value > 0 {
        return Failure(PendingGenerationExists);
      }
      var ensured := EnsureState(input.account, true);
      var state := states[input.account];
      QueueBatches(input);
      state := state.(nextClientRevision := state.nextClientRevision + |input.prepared|);
      if input.marksBaselineInProgress {
        state := state.(baselineStatus := InProgress);
      }
      if input.clearPendingScope {
        state := state.(pendingScope := None);
      }
      if input.prepared != [] {
        state := state.(activeGenerationId := Some(input.generationId));
      }
      states := states[input.account := state];
      return Success(());
    }

    method QueueBatches(input: GenerationInput)
      modifies this`batches, this`nextId
      ensures batches == old(batches) + NewBatches(input, old(nextId)) && nextId == old(nextId) + |input.prepared|
    {
      ghost var added := NewBatches(input, nextId);
      for i := 0 to |input.prepared|
        invariant batches == old(batches) + added[..i] && nextId == old(nextId) + i
      {
        batches := batches + [NewBatch(input, input.prepared[i], nextId)];
        nextId := nextId + 1;
      }
      assert added[..|input.prepared|] == added;
    }

    method MarkBatchAccepted(account: Account, id: int, at: int, answers: bool) returns (r: Result<(), StoreError>)
      modifies this
      ensures !answers ==> r == Failure(Backend) && View() == old(View())
      ensures answers ==>
                match AcceptedBatch(old(View()), account, id, at)
                case Success(after) => r == Success(()) && View() == after
                case Failure(error) => r == Failure(error) && View() == old(View())
    {
      if !answers {
        return Failure(Backend);
      }
      var index := 0;
      while index < |batches| && !(batches[index].id == id && batches[index].account == account)
        invariant 0 <= index <= |batches|
        invariant forall k :: 0 <= k < index ==> !(batches[k].id == id && batches[k].account == account)
      {
        index := index + 1;
      }
      assert index == PositionOf(batches, account, id);
      if index == |batches| {
        return Failure(NotFound);
      }
      batches := batches[..index] + batches[index + 1..];
      if account in states {
        states := states[account := states[account].(lastAcceptedAt := Some(at))];
      }
      return Success(());
    }

    method RecordAttemptResult(account: Account, now: int, code: Option<string>, retryable: Option<bool>, answers: bool)
      modifies this
      ensures View() == if answers then Recorded(old(View()), account, now, code, retryable) else old(View())
    {
      if answers {
        var ensured := EnsureState(account, true);
        states := states[account :=
            states[account].(lastAttemptAt := Some(now), lastErrorCode := code, lastErrorRetryable := retryable)];
      }
    }

    method MarkBaselineComplete(account: Account, answers: bool)
      modifies this
      ensures View() == if answers then BaselineCompleted(old(View()), account) else old(View())
    {
      if answers {
        var ensured := EnsureState(account, true);
        states := states[account := states[account].(baselineStatus := Complete)];
      }
    }

    method SetDeviceRegistration(account: Account, fingerprint: string, revision: int, answers: bool)
      modifies this
      ensures View() == if answers then DeviceRegistered(old(View()), account, fingerprint, revision) else old(View())
    {
      if answers {
        var ensured := EnsureState(account, true);
        states := states[account :=
            states[account].(deviceFingerprint := Some(fingerprint), deviceRegisteredRevision := Some(revision))];
      }
    }
  }
}
