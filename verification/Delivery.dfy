/** Exactly-once, in-order delivery and account isolation, as an invariant of every reachable state. */
module Delivery {
  import opened Batches
  import opened OutboxStore
  import opened Scopes
  import opened SyncMachine

  function Queue(w: World, user: string): seq<OutboxBatch>
  {
    PendingOf(w.store.batches, AccountFor(w.config, user))
  }

  /** How many of the user's batches the store has marked accepted. */
  function AcceptedCount(w: World, user: string): int
  {
    |CreatedBy(w.history, user)| - |Queue(w, user)|
  }

  ghost predicate BatchOk(w: World, user: string, i: nat)
    requires i < |CreatedBy(w.history, user)|
  {
    var b := CreatedBy(w.history, user)[i];
    && b.account == AccountFor(w.config, user)
    && b.clientRevision == b.requestBody.clientRevision == i + 1
    && b.idempotencyKey in w.history.keys && w.history.keys[b.idempotencyKey] == Origin(user, i)
  }

  /**
   * The queue is the unaccepted tail of what was created; the server log is a prefix at most one batch ahead of
   * acceptance.
   */
  ghost predicate QueueOk(w: World, user: string)
  {
    var account, created, log := AccountFor(w.config, user), CreatedBy(w.history, user), LogOf(w.server, user);
    && 0 <= AcceptedCount(w, user) && Queue(w, user) == created[AcceptedCount(w, user)..]
    && AcceptedCount(w, user) <= |log| <= |created| && |log| <= AcceptedCount(w, user) + 1
    && (forall i :: 0 <= i < |log| ==> log[i] == PushOf(created[i]))
    && (forall i :: 0 <= i < |created| ==> BatchOk(w, user, i))
    && (account in w.store.states ==> w.store.states[account].nextClientRevision == |created| + 1)
    && (account !in w.store.states ==> created == [])
  }

  ghost predicate SentOk(w: World, push: Push)
  {
    var created, i := CreatedBy(w.history, push.user), push.body.clientRevision - 1;
    0 <= i < |created| && i <= AcceptedCount(w, push.user) && push == PushOf(created[i])
  }

  ghost predicate DurableOk(w: World)
  {
    && WellNumbered(w.store)
    && (forall user :: QueueOk(w, user))
    && (forall push :: push in w.sent ==> SentOk(w, push))
  }

  predicate HoldsHead(w: World, account: Account, batch: OutboxBatch)
  {
    account.clientDeviceId == DeviceKey(w.config) && Queue(w, account.userId) != []
        && Queue(w, account.userId)[0] == batch
  }

  /** Whatever batch the worker carries is still the head of its own account's queue. */
  predicate WorkerOk(w: World)
  {
    && (w.control.running <==> w.worker != NoWorker)
    && match w.worker
       case Registering(_, account, _, ForBatch(batch)) => HoldsHead(w, account, batch)
       case Registering(_, account, _, ForGeneration(_, _)) =>
         account.clientDeviceId == DeviceKey(w.config) && Queue(w, account.userId) == [] && account in w.store.states
       case Registering(_, account, _, Recovery) => account.clientDeviceId == DeviceKey(w.config)
       case ReadyToPush(_, account, batch, _) => HoldsHead(w, account, batch)
       case Pushing(_, account, batch, _) => HoldsHead(w, account, batch) && PushOf(batch) in w.sent
       case _ => true
  }

  ghost predicate DeliveryInv(w: World) { DurableOk(w) && WorkerOk(w) }

  ghost predicate SameAccepted(w: World, v: World)
  {
    forall user :: AcceptedCount(v, user) == AcceptedCount(w, user)
  }

  // ---- transitions that leave the queues alone --------------------------------------------

  /** Account states may appear fresh or change in other fields, but no allocated revision moves. */
  ghost predicate RevisionsKept(s: StoreState, t: StoreState)
  {
    && s.batches == t.batches && s.nextId == t.nextId
    && (forall a :: a in s.states ==> a in t.states && t.states[a].nextClientRevision == s.states[a].nextClientRevision)
    && (forall a :: a in t.states && a !in s.states ==> t.states[a].nextClientRevision == 1)
  }

  ghost predicate QueuesKept(w: World, v: World)
  {
    && w.config == v.config && w.sent == v.sent && w.server == v.server
    && w.history.created == v.history.created && w.history.keys == v.history.keys
    && RevisionsKept(w.store, v.store)
  }

  lemma KeptQueuesStayOk(w: World, v: World)
    requires DurableOk(w) && QueuesKept(w, v)
    ensures DurableOk(v)
    ensures forall user :: Queue(v, user) == Queue(w, user)
    ensures SameAccepted(w, v)
  {
    forall user ensures QueueOk(v, user) {
      assert QueueOk(w, user);
      forall i | 0 <= i < |CreatedBy(v.history, user)| ensures BatchOk(v, user, i) {
        assert BatchOk(w, user, i);
      }
    }
    forall push | push in v.sent ensures SentOk(v, push) {
      assert SentOk(w, push);
    }
  }

  /** The worker and control after a step has settled: either back at the top or gone, possibly restarted. */
  ghost predicate Settled(w: World, v: World)
  {
    && v.config == w.config && v.store == w.store && v.sent == w.sent && v.server == w.server && v.history == w.history
    && (v.worker.NoWorker? || v.worker.AtTop?) && (v.control.running <==> v.worker != NoWorker)
  }

  lemma SettleSettles(w: World, epoch: nat, result: StepResult, io: Io)
    requires w.control.running
    ensures Settled(w, Settle(w, epoch, result, io))
  {
  }

  lemma ExitSettles(w: World, epoch: nat, exit: WorkerExit, io: Io)
    ensures Settled(w, Exit(w, epoch, exit, io))
  {
  }

  lemma SettledKeeps(w: World, v: World)
    requires DurableOk(w) && Settled(w, v)
    ensures DeliveryInv(v) && SameAccepted(w, v)
  {
    KeptQueuesStayOk(w, v);
  }

  lemma KickKeeps(w: World, io: Io)
    requires DeliveryInv(w)
    ensures DeliveryInv(Kick(w, io)) && DeliveryInv(StartWorker(w, io.spawned))
    ensures SameAccepted(w, Kick(w, io)) && SameAccepted(w, StartWorker(w, io.spawned))
  {
    KeptQueuesStayOk(w, Kick(w, io));
    KeptQueuesStayOk(w, StartWorker(w, io.spawned));
  }

  // ---- creating a generation --------------------------------------------------------------

  lemma {:induction false} OriginsAreExact(user: string, base: nat, prepared: seq<PreparedBatch>)
    requires forall i, j :: 0 <= i < j < |prepared| ==> prepared[i].idempotencyKey != prepared[j].idempotencyKey
    ensures forall i :: 0 <= i < |prepared| ==>
              prepared[i].idempotencyKey in NewOrigins(user, base, prepared)
              && NewOrigins(user, base, prepared)[prepared[i].idempotencyKey] == Origin(user, base + i)
    ensures forall key :: key in NewOrigins(user, base, prepared) ==>
            exists i :: 0 <= i < |prepared| && prepared[i].idempotencyKey == key
  {
    if prepared != [] {
      var front := prepared[..|prepared| - 1];
      OriginsAreExact(user, base, front);
      forall key | key in NewOrigins(user, base, prepared)
        ensures exists i :: 0 <= i < |prepared| && prepared[i].idempotencyKey == key
      {
        if key in NewOrigins(user, base, front) {
          var i :| 0 <= i < |front| && front[i].idempotencyKey == key;
          assert prepared[i].idempotencyKey == key;
        } else {
          assert prepared[|prepared| - 1].idempotencyKey == key;
        }
      }
    }
  }

  /** What creating a generation relies on: numbered from the next revision, with keys never used before. */
  predicate FitsNext(w: World, account: Account, prepared: seq<PreparedBatch>)
  {
    && account in w.store.states
    && (forall i :: 0 <= i < |prepared| ==>
          && prepared[i].clientRevision == prepared[i].requestBody.clientRevision
               == w.store.states[account].nextClientRevision + i
          && prepared[i].idempotencyKey !in w.history.keys)
    && (forall i, j :: 0 <= i < j < |prepared| ==> prepared[i].idempotencyKey != prepared[j].idempotencyKey)
  }

  lemma NumberedBatchesFit(w: World, account: Account, prepared: seq<PreparedBatch>, keys: seq<string>)
    requires account in w.store.states && |prepared| <= |keys|
    requires NumberedFrom(prepared, w.store.states[account].nextClientRevision, keys)
    requires forall i :: 0 <= i < |keys| ==> keys[i] !in w.history.keys
    requires forall i, j :: 0 <= i < j < |keys| ==> keys[i] != keys[j]
    ensures FitsNext(w, account, prepared)
  {
  }

  lemma BuiltBatchesFit(w: World, account: Account, scope: UploadScope, io: Io)
    requires account in w.store.states && FreshKeys(w, io) && io.exported.Some?
    ensures var r := Build(io.exported.value, MetaOf(w.config, scope), BACKEND_V1,
            w.store.states[account].nextClientRevision, io.keys);
            r.Success? ==> FitsNext(w, account, r.value)
  {
    var facts, meta, first := io.exported.value, MetaOf(w.config, scope), w.store.states[account].nextClientRevision;
    BuildNumbers(facts, meta, BACKEND_V1, first, io.keys);
    var r := Build(facts, meta, BACKEND_V1, first, io.keys);
    if r.Success? {
      NumberedBatchesFit(w, account, r.value, io.keys);
    }
  }

  ghost predicate GenerationFits(w: World, input: GenerationInput)
  {
    && DurableOk(w) && input.account.clientDeviceId == DeviceKey(w.config)
    && Queue(w, input.account.userId) == [] && FitsNext(w, input.account, input.prepared)
  }

  function AfterGeneration(w: World, input: GenerationInput, scope: UploadScope): World
    requires CreatedGeneration(w.store, input).Success?
  {
    WithGeneration(w, input, CreatedGeneration(w.store, input).value, scope)
  }

  lemma GenerationCreates(w: World, input: GenerationInput, scope: UploadScope)
    requires CreatedGeneration(w.store, input).Success?
    ensures var before, v := CreatedBy(w.history, input.account.userId), AfterGeneration(w, input, scope);
            && CreatedBy(v.history, input.account.userId) == before + NewBatches(input, w.store.nextId)
            && v.history.keys == w.history.keys + NewOrigins(input.account.userId, |before|, input.prepared)
            && v.store == CreatedGeneration(w.store, input).value && v.config == w.config
  {
  }

  lemma OldBatchStaysOk(w: World, input: GenerationInput, scope: UploadScope, i: nat)
    requires GenerationFits(w, input) && CreatedGeneration(w.store, input).Success?
    requires i < |CreatedBy(w.history, input.account.userId)|
    ensures i < |CreatedBy(AfterGeneration(w, input, scope).history, input.account.userId)|
    ensures BatchOk(AfterGeneration(w, input, scope), input.account.userId, i)
  {
    hide AfterGeneration, CreatedGeneration, NewOrigins;
    var user := input.account.userId;
    GenerationCreates(w, input, scope);
    OriginsAreExact(user, |CreatedBy(w.history, user)|, input.prepared);
    assert QueueOk(w, user) && BatchOk(w, user, i);
  }

  /** Where a new batch stands among everything created. */
  lemma NewBatchStandsAt(w: World, input: GenerationInput, scope: UploadScope, k: nat)
    requires CreatedGeneration(w.store, input).Success? && k < |input.prepared|
    ensures var before, v := |CreatedBy(w.history, input.account.userId)|, AfterGeneration(w, input, scope);
            && before + k < |CreatedBy(v.history, input.account.userId)|
            && CreatedBy(v.history, input.account.userId)[before + k]
                 == NewBatch(input, input.prepared[k], w.store.nextId + k)
  {
    hide AfterGeneration, CreatedGeneration, NewOrigins, CreatedBy;
    GenerationCreates(w, input, scope);
  }

  lemma NewKeyIsExact(w: World, input: GenerationInput, scope: UploadScope, k: nat)
    requires GenerationFits(w, input) && CreatedGeneration(w.store, input).Success? && k < |input.prepared|
    ensures var user, key, v := input.account.userId, input.prepared[k].idempotencyKey,
            AfterGeneration(w, input, scope);
            key in v.history.keys && v.history.keys[key] == Origin(user, |CreatedBy(w.history, user)| + k)
  {
    hide AfterGeneration, CreatedGeneration, NewOrigins, CreatedBy, DurableOk;
    GenerationCreates(w, input, scope);
    OriginsAreExact(input.account.userId, |CreatedBy(w.history, input.account.userId)|, input.prepared);
  }

  lemma NewBatchIsOk(w: World, input: GenerationInput, scope: UploadScope, k: nat)
    requires GenerationFits(w, input) && CreatedGeneration(w.store, input).Success?
    requires k < |input.prepared|
    ensures |CreatedBy(w.history, input.account.userId)| + k
            < |CreatedBy(AfterGeneration(w, input, scope).history, input.account.userId)|
    ensures BatchOk(AfterGeneration(w, input, scope), input.account.userId,
            |CreatedBy(w.history, input.account.userId)| + k)
  {
    hide AfterGeneration, CreatedGeneration, NewOrigins, CreatedBy;
    NewBatchStandsAt(w, input, scope, k);
    NewKeyIsExact(w, input, scope, k);
    GenerationCreates(w, input, scope);
    assert QueueOk(w, input.account.userId);
  }

  lemma GenerationBatchesOk(w: World, input: GenerationInput, scope: UploadScope)
    requires GenerationFits(w, input) && CreatedGeneration(w.store, input).Success?
    ensures forall i :: 0 <= i < |CreatedBy(AfterGeneration(w, input, scope).history, input.account.userId)| ==>
              BatchOk(AfterGeneration(w, input, scope), input.account.userId, i)
  {
    var user := input.account.userId;
    var v := AfterGeneration(w, input, scope);
    GenerationCreates(w, input, scope);
    var n := |CreatedBy(w.history, user)|;
    forall i | 0 <= i < |CreatedBy(v.history, user)| ensures BatchOk(v, user, i) {
      if i < n { OldBatchStaysOk(w, input, scope, i); } else { NewBatchIsOk(w, input, scope, i - n); }
    }
  }

  lemma GenerationKeepsOwnQueue(w: World, input: GenerationInput, scope: UploadScope)
    requires GenerationFits(w, input) && CreatedGeneration(w.store, input).Success?
    ensures QueueOk(AfterGeneration(w, input, scope), input.account.userId)
    ensures AcceptedCount(AfterGeneration(w, input, scope), input.account.userId)
            == AcceptedCount(w, input.account.userId)
  {
    var user := input.account.userId;
    var v := AfterGeneration(w, input, scope);
    var before, added := CreatedBy(w.history, user), NewBatches(input, w.store.nextId);
    CreateAppends(w.store, input, input.account);
    GenerationCreates(w, input, scope);
    GenerationBatchesOk(w, input, scope);
    assert QueueOk(w, user);
    assert input.account == AccountFor(w.config, user);
    assert Queue(v, user) == added;
    assert (before + added)[|before|..] == added;
    assert LogOf(v.server, user) == LogOf(w.server, user);
  }

  lemma GenerationKeepsOtherQueue(w: World, input: GenerationInput, scope: UploadScope, other: string)
    requires GenerationFits(w, input) && CreatedGeneration(w.store, input).Success? && other != input.account.userId
    ensures QueueOk(AfterGeneration(w, input, scope), other)
    ensures CreatedBy(AfterGeneration(w, input, scope).history, other) == CreatedBy(w.history, other)
    ensures AcceptedCount(AfterGeneration(w, input, scope), other) == AcceptedCount(w, other)
  {
    var v := AfterGeneration(w, input, scope);
    CreateAppends(w.store, input, AccountFor(w.config, other));
    OriginsAreExact(input.account.userId, |CreatedBy(w.history, input.account.userId)|, input.prepared);
    assert QueueOk(w, other);
    forall i | 0 <= i < |CreatedBy(v.history, other)| ensures BatchOk(v, other, i) {
      assert BatchOk(w, other, i);
    }
  }

  lemma GenerationKeepsDurable(w: World, input: GenerationInput, scope: UploadScope)
    requires GenerationFits(w, input)
    ensures CreatedGeneration(w.store, input).Success?
    ensures DurableOk(AfterGeneration(w, input, scope)) && SameAccepted(w, AfterGeneration(w, input, scope))
  {
    var user := input.account.userId;
    assert input.account == AccountFor(w.config, user);
    var v := AfterGeneration(w, input, scope);
    CreateAppends(w.store, input, input.account);
    GenerationCreates(w, input, scope);
    GenerationKeepsOwnQueue(w, input, scope);
    forall other ensures QueueOk(v, other) && AcceptedCount(v, other) == AcceptedCount(w, other) {
      if other != user { GenerationKeepsOtherQueue(w, input, scope, other); }
    }
    forall push | push in v.sent ensures SentOk(v, push) {
      assert SentOk(w, push);
      if push.user != user { GenerationKeepsOtherQueue(w, input, scope, push.user); }
    }
  }

  // ---- accepting, sending, delivering -----------------------------------------------------

  /** An applied head is exactly the batch the server log is ahead by. */
  lemma AppliedHeadIsAhead(w: World, account: Account, batch: OutboxBatch)
    requires DurableOk(w) && HoldsHead(w, account, batch) && Applied(w, PushOf(batch))
    ensures |LogOf(w.server, account.userId)| == AcceptedCount(w, account.userId) + 1
  {
    var user := account.userId;
    assert QueueOk(w, user);
    var created, n := CreatedBy(w.history, user), AcceptedCount(w, user);
    assert created[n] == batch && BatchOk(w, user, n);
    var i :| 0 <= i < |LogOf(w.server, user)| && LogOf(w.server, user)[i].key == batch.idempotencyKey;
    assert BatchOk(w, user, i) && created[i].idempotencyKey == batch.idempotencyKey;
  }

  /** The head of a queue belongs to the account of the queue, so the request sent for it names its owner. */
  lemma HeldBatchIsOwn(w: World, account: Account, batch: OutboxBatch)
    requires DurableOk(w) && HoldsHead(w, account, batch)
    ensures batch.account == account && RequestFor(account, batch) == PushOf(batch)
  {
    var user := account.userId;
    assert QueueOk(w, user) && BatchOk(w, user, AcceptedCount(w, user));
  }

  lemma AcceptKeepsQueue(w: World, account: Account, batch: OutboxBatch, user: string)
    requires DurableOk(w) && HoldsHead(w, account, batch) && Applied(w, PushOf(batch))
    ensures AcceptedBatch(w.store, account, batch.id, w.now).Success?
    ensures var v := w.(store := AcceptedBatch(w.store, account, batch.id, w.now).value);
            WellNumbered(v.store) && QueueOk(v, user)
                && AcceptedCount(v, user) == AcceptedCount(w, user) + (if user == account.userId then 1 else 0)
  {
    AcceptRemovesHead(w.store, account, w.now, AccountFor(w.config, user));
    AppliedHeadIsAhead(w, account, batch);
    var v := w.(store := AcceptedBatch(w.store, account, batch.id, w.now).value);
    assert QueueOk(w, user);
    forall j | 0 <= j < |CreatedBy(v.history, user)| ensures BatchOk(v, user, j) { assert BatchOk(w, user, j); }
    if user == account.userId {
      var created, n := CreatedBy(w.history, user), AcceptedCount(w, user);
      assert created[n..][1..] == created[n + 1..];
    }
  }

  lemma AcceptKeepsDurable(w: World, account: Account, batch: OutboxBatch)
    requires DurableOk(w) && HoldsHead(w, account, batch) && Applied(w, PushOf(batch))
    ensures AcceptedBatch(w.store, account, batch.id, w.now).Success?
    ensures var v := w.(store := AcceptedBatch(w.store, account, batch.id, w.now).value);
            && DurableOk(v)
            && AcceptedCount(v, account.userId) == AcceptedCount(w, account.userId) + 1
            && (forall other :: other != account.userId ==> AcceptedCount(v, other) == AcceptedCount(w, other))
  {
    AcceptKeepsQueue(w, account, batch, account.userId);
    var v := w.(store := AcceptedBatch(w.store, account, batch.id, w.now).value);
    forall user
      ensures QueueOk(v, user)
      ensures AcceptedCount(v, user) == AcceptedCount(w, user) + (if user == account.userId then 1 else 0)
    {
      AcceptKeepsQueue(w, account, batch, user);
    }
    forall push | push in v.sent ensures SentOk(v, push) {
      assert SentOk(w, push);
    }
  }

  lemma SendKeepsDurable(w: World, account: Account, batch: OutboxBatch)
    requires DurableOk(w) && HoldsHead(w, account, batch)
    ensures DurableOk(w.(sent := w.sent + {RequestFor(account, batch)}))
  {
    var user := account.userId;
    HeldBatchIsOwn(w, account, batch);
    var v := w.(sent := w.sent + {PushOf(batch)});
    assert QueueOk(w, user) && BatchOk(w, user, AcceptedCount(w, user));
    forall other ensures QueueOk(v, other) {
      assert QueueOk(w, other);
      forall j | 0 <= j < |CreatedBy(v.history, other)| ensures BatchOk(v, other, j) { assert BatchOk(w, other, j); }
    }
    forall push | push in v.sent ensures SentOk(v, push) {
      assert push in w.sent ==> SentOk(w, push);
    }
  }

  /** A sent request the server does not know yet carries exactly the batch that comes next in its log. */
  lemma UnknownPushIsNext(w: World, push: Push)
    requires DurableOk(w) && push in w.sent
    ensures var log, created := LogOf(w.server, push.user), CreatedBy(w.history, push.user);
            !Applied(w, push) ==> |log| == AcceptedCount(w, push.user) < |created| && push == PushOf(created[|log|])
  {
    assert SentOk(w, push) && QueueOk(w, push.user);
    var i := push.body.clientRevision - 1;
    var log := LogOf(w.server, push.user);
    assert i < |log| ==> log[i].key == push.key;
  }

  function Logged(w: World, push: Push): World
  {
    w.(server := w.server[push.user := LogOf(w.server, push.user) + [push]])
  }

  lemma BatchesStayOk(w: World, push: Push, user: string)
    requires QueueOk(w, user)
    ensures forall j :: 0 <= j < |CreatedBy(w.history, user)| ==> BatchOk(Logged(w, push), user, j)
  {
    forall j | 0 <= j < |CreatedBy(w.history, user)|
      ensures BatchOk(Logged(w, push), user, j)
    {
      assert BatchOk(w, user, j);
    }
  }

  lemma DeliverKeepsOwnQueue(w: World, push: Push)
    requires DurableOk(w) && push in w.sent && !Applied(w, push)
    ensures QueueOk(Logged(w, push), push.user)
  {
    UnknownPushIsNext(w, push);
    assert QueueOk(w, push.user);
    BatchesStayOk(w, push, push.user);
    assert LogOf(Logged(w, push).server, push.user) == LogOf(w.server, push.user) + [push];
  }

  lemma DeliverKeepsOtherQueue(w: World, push: Push, user: string)
    requires QueueOk(w, user) && user != push.user
    ensures QueueOk(Logged(w, push), user)
  {
    BatchesStayOk(w, push, user);
    assert LogOf(Logged(w, push).server, user) == LogOf(w.server, user);
  }

  lemma DeliverKeeps(w: World, push: Push)
    requires DeliveryInv(w) && push in w.sent
    ensures DeliveryInv(DeliverTo(w, push)) && SameAccepted(w, DeliverTo(w, push))
  {
    var v := DeliverTo(w, push);
    forall user ensures QueueOk(v, user) {
      assert QueueOk(w, user);
      if !Applied(w, push) {
        if user == push.user { DeliverKeepsOwnQueue(w, push); } else { DeliverKeepsOtherQueue(w, push, user); }
      }
    }
    forall p | p in v.sent ensures SentOk(v, p) { assert SentOk(w, p); }
  }
}
