/** Deterministic construction of upload batches from exported daily facts. */
module Batches {
  import opened Basics
  import Scopes

  /** One exported daily fact; `details` stands for the columns the construction never looks at. */
  datatype Fact = Fact(identityKey: string, usageDate: string, sourceKey: string, models: seq<string>, details: string)

  datatype BatchMeta = BatchMeta(clientDeviceId: string, appVersion: string, reportingTimezone: string,
      scope: Scopes.UploadScope)

  datatype BatchLimits = BatchLimits(maxFactsPerBatch: nat, maxModelsPerFact: nat)

  const BACKEND_V1: BatchLimits := BatchLimits(1000, 100)

  datatype WireScope = WireFull | WireIncremental

  /** The request record whose serialised form is the immutable request body. */
  datatype PushBody = PushBody(clientDeviceId: string, appVersion: string, reportingTimezone: string,
      clientRevision: int,
                               windowStart: string, windowEnd: string, windowScope: WireScope, facts: seq<Fact>)

  datatype PreparedBatch = PreparedBatch(batchIndex: int, batchCount: int, clientRevision: int, idempotencyKey: string,
                                         requestBody: PushBody, windowScope: WireScope, windowStart: string,
                                             windowEnd: string)

  datatype BuildError = TooManyModels(max: nat) | Serialize

  // ---- the order of facts -----------------------------------------------------------------

  predicate FactLe(a: Fact, b: Fact)
  {
    if a.usageDate == b.usageDate then LexLe(a.identityKey, b.identityKey) else LexLe(a.usageDate, b.usageDate)
  }

  predicate SameKey(a: Fact, b: Fact)
  {
    a.usageDate == b.usageDate && a.identityKey == b.identityKey
  }

  lemma FactOrder(a: Fact, b: Fact, c: Fact)
    ensures FactLe(a, b) || FactLe(b, a)
    ensures FactLe(a, b) && FactLe(b, a) ==> SameKey(a, b)
    ensures FactLe(a, b) && FactLe(b, c) ==> FactLe(a, c)
    ensures SameKey(a, b) ==> FactLe(a, b)
    ensures FactLe(a, b) ==> LexLe(a.usageDate, b.usageDate)
  {
    LexTotal(a.usageDate, b.usageDate);
    LexTotal(a.identityKey, b.identityKey);
    LexReflexive(a.usageDate);
    if FactLe(a, b) && FactLe(b, a) {
      if a.usageDate != b.usageDate { LexAntisymmetric(a.usageDate, b.usageDate); }
      LexAntisymmetric(a.identityKey, b.identityKey);
    }
    if FactLe(a, b) && FactLe(b, c) {
      if a.usageDate == b.usageDate == c.usageDate {
        LexTransitive(a.identityKey, b.identityKey, c.identityKey);
      } else if a.usageDate != b.usageDate && b.usageDate != c.usageDate {
        LexTransitive(a.usageDate, b.usageDate, c.usageDate);
        if a.usageDate == c.usageDate { LexAntisymmetric(a.usageDate, b.usageDate); }
      }
    }
  }

  predicate Sorted(s: seq<Fact>)
  {
    forall i, j :: 0 <= i < j < |s| ==> FactLe(s[i], s[j])
  }

  /** The facts of `s` that carry the sort key of `f`, in their order in `s`. */
  function Alike(s: seq<Fact>, f: Fact): seq<Fact>
  {
    if s == [] then [] else (if SameKey(s[0], f) then [s[0]] else []) + Alike(s[1..], f)
  }

  function Insert(f: Fact, s: seq<Fact>): seq<Fact>
  {
    if s == [] then [f] else if FactLe(f, s[0]) then [f] + s else [s[0]] + Insert(f, s[1..])
  }

  /** The library's stable sort by (date, identity key). */
  function StableSort(s: seq<Fact>): seq<Fact>
  {
    if s == [] then [] else Insert(s[0], StableSort(s[1..]))
  }

  lemma {:induction false} InsertElements(f: Fact, s: seq<Fact>)
    ensures multiset(Insert(f, s)) == multiset([f]) + multiset(s)
  {
    if s != [] && !FactLe(f, s[0]) {
      InsertElements(f, s[1..]);
      assert s == [s[0]] + s[1..];
    }
  }

  lemma {:induction false} InsertSorted(f: Fact, s: seq<Fact>)
    requires Sorted(s)
    ensures Sorted(Insert(f, s))
  {
    if s == [] {
    } else if FactLe(f, s[0]) {
      forall j | 0 <= j < |s| ensures FactLe(f, s[j]) { FactOrder(f, s[0], s[j]); }
    } else {
      InsertSorted(f, s[1..]);
      InsertElements(f, s[1..]);
      FactOrder(s[0], f, f);
      var r := Insert(f, s[1..]);
      forall j | 0 <= j < |r| ensures FactLe(s[0], r[j]) {
        assert r[j] in multiset(r);
        assert r[j] == f || r[j] in s[1..];
      }
    }
  }

  lemma {:induction false} InsertAlike(f: Fact, s: seq<Fact>, g: Fact)
    ensures Alike(Insert(f, s), g) == (if SameKey(f, g) then [f] else []) + Alike(s, g)
  {
    if s == [] {
    } else if FactLe(f, s[0]) {
      assert ([f] + s)[1..] == s;
    } else {
      InsertAlike(f, s[1..], g);
      FactOrder(f, s[0], s[0]);
      assert ([s[0]] + Insert(f, s[1..]))[1..] == Insert(f, s[1..]);
    }
  }

  lemma {:induction false} StableSortKeeps(s: seq<Fact>, g: Fact)
    ensures Sorted(StableSort(s)) && multiset(StableSort(s)) == multiset(s) && |StableSort(s)| == |s|
    ensures Alike(StableSort(s), g) == Alike(s, g)
  {
    if s != [] {
      StableSortKeeps(s[1..], g);
      InsertElements(s[0], StableSort(s[1..]));
      InsertSorted(s[0], StableSort(s[1..]));
      InsertAlike(s[0], StableSort(s[1..]), g);
      assert s == [s[0]] + s[1..];
      assert |multiset(StableSort(s))| == |multiset(s)|;
    }
  }

  lemma {:induction false} AlikeMember(s: seq<Fact>, f: Fact)
    requires Alike(s, f) != []
    ensures exists i :: 0 <= i < |s| && SameKey(s[i], f)
  {
    if !SameKey(s[0], f) {
      AlikeMember(s[1..], f);
      var i :| 0 <= i < |s[1..]| && SameKey(s[1..][i], f);
      assert SameKey(s[i + 1], f);
    }
  }

  lemma LeastHead(s: seq<Fact>, f: Fact)
    requires s != [] && Sorted(s) && Alike(s, f) != []
    ensures FactLe(s[0], f)
  {
    AlikeMember(s, f);
    var i :| 0 <= i < |s| && SameKey(s[i], f);
    FactOrder(s[0], s[i], f);
    FactOrder(s[i], f, f);
    FactOrder(s[0], s[0], s[0]);
  }

  /** Being sorted with every group of equal keys in place determines the sequence. */
  lemma {:induction false} StableOrderIsUnique(s: seq<Fact>, t: seq<Fact>)
    requires Sorted(s) && Sorted(t) && forall f :: Alike(s, f) == Alike(t, f)
    ensures s == t
  {
    if t != [] {
      assert Alike(t, t[0])[0] == t[0];
    }
    if s != [] {
      assert Alike(s, s[0])[0] == s[0];
      AlikeMember(t, s[0]);
      LeastHead(t, s[0]);
      LeastHead(s, t[0]);
      FactOrder(s[0], t[0], t[0]);
      forall f ensures Alike(s[1..], f) == Alike(t[1..], f) {
        assert SameKey(s[0], t[0]);
        if SameKey(s[0], f) {
          assert Alike(s, f)[1..] == Alike(s[1..], f) && Alike(t, f)[1..] == Alike(t[1..], f);
        } else {
          assert Alike(s, f) == Alike(s[1..], f) && Alike(t, f) == Alike(t[1..], f);
        }
      }
      StableOrderIsUnique(s[1..], t[1..]);
      assert s == [s[0]] + s[1..] && t == [t[0]] + t[1..];
    }
  }

  // ---- cutting into batches ---------------------------------------------------------------

  function ClampU32(n: nat): nat { if n <= U32_MAX then n else U32_MAX }

  /** `slice::chunks`. */
  function Chunks(facts: seq<Fact>, max: nat): seq<seq<Fact>>
    requires max > 0
    decreases |facts|
  {
    if facts == [] then [] else if |facts| <= max then [facts] else [facts[..max]] + Chunks(facts[max..], max)
  }

  function Flatten(chunks: seq<seq<Fact>>): seq<Fact>
  {
    if chunks == [] then [] else chunks[0] + Flatten(chunks[1..])
  }

  lemma {:induction false} ChunksAreExact(facts: seq<Fact>, max: nat)
    requires max > 0
    ensures var c := Chunks(facts, max);
            && Flatten(c) == facts
            && (forall i :: 0 <= i < |c| ==> 0 < |c[i]| <= max)
            && (forall i :: 0 <= i < |c| - 1 ==> |c[i]| == max)
            && |c| <= |facts| && (|c| == 0 <==> facts == [])
    decreases |facts|
  {
    if |facts| > max {
      ChunksAreExact(facts[max..], max);
      assert facts == facts[..max] + facts[max..];
      assert Chunks(facts, max)[1..] == Chunks(facts[max..], max);
    } else if facts != [] {
      assert Flatten([facts]) == facts + Flatten([]);
    }
  }

  /** The number of chunks is the quotient rounded up. */
  lemma {:induction false} ChunkCountRoundsUp(facts: seq<Fact>, max: nat)
    requires max > 0 && facts != []
    ensures (|Chunks(facts, max)| - 1) * max < |facts| <= |Chunks(facts, max)| * max
    decreases |facts|
  {
    if |facts| > max {
      ChunkCountRoundsUp(facts[max..], max);
      var k := |Chunks(facts[max..], max)|;
      assert |Chunks(facts, max)| == k + 1;
      assert (k + 1) * max == k * max + max && k * max == (k - 1) * max + max;
    }
  }

  lemma {:induction false} FlattenMember(chunks: seq<seq<Fact>>, j: nat, q: nat)
    requires j < |chunks| && q < |chunks[j]|
    ensures exists k :: 0 <= k < |Flatten(chunks)| && Flatten(chunks)[k] == chunks[j][q]
  {
    if j == 0 {
      assert Flatten(chunks)[q] == chunks[0][q];
    } else {
      FlattenMember(chunks[1..], j - 1, q);
      var k :| 0 <= k < |Flatten(chunks[1..])| && Flatten(chunks[1..])[k] == chunks[j][q];
      assert Flatten(chunks)[|chunks[0]| + k] == chunks[j][q];
    }
  }

  /** Everything in a later chunk comes from behind the first one. */
  lemma LaterChunkMember(facts: seq<Fact>, max: nat, j: nat, q: nat) returns (k: nat)
    requires max > 0 && 0 < j < |Chunks(facts, max)| && q < |Chunks(facts, max)[j]|
    ensures max <= k < |facts| && facts[k] == Chunks(facts, max)[j][q]
  {
    var rest := Chunks(facts[max..], max);
    assert Chunks(facts, max) == [facts[..max]] + rest;
    ChunksAreExact(facts[max..], max);
    FlattenMember(rest, j - 1, q);
    var m :| 0 <= m < |facts[max..]| && facts[max..][m] == rest[j - 1][q];
    k := max + m;
  }

  lemma {:induction false} ChunksKeepOrder(facts: seq<Fact>, max: nat, i: nat, j: nat, p: nat, q: nat)
    requires max > 0 && Sorted(facts) && i < j < |Chunks(facts, max)|
    requires p < |Chunks(facts, max)[i]| && q < |Chunks(facts, max)[j]|
    ensures FactLe(Chunks(facts, max)[i][p], Chunks(facts, max)[j][q])
    decreases |facts|
  {
    assert Chunks(facts, max) == [facts[..max]] + Chunks(facts[max..], max);
    if i > 0 {
      ChunksKeepOrder(facts[max..], max, i - 1, j - 1, p, q);
    } else {
      var k := LaterChunkMember(facts, max, j, q);
      assert Chunks(facts, max)[i][p] == facts[p];
    }
  }

  /** `chunk.iter().map(date).min()`. */
  function EarliestDate(chunk: seq<Fact>): string
  {
    if chunk == [] then ""
    else if |chunk| == 1 then chunk[0].usageDate
    else var rest := EarliestDate(chunk[1..]); if LexLe(chunk[0].usageDate, rest) then chunk[0].usageDate else rest
  }

  function LatestDate(chunk: seq<Fact>): string
  {
    if chunk == [] then ""
    else if |chunk| == 1 then chunk[0].usageDate
    else var rest := LatestDate(chunk[1..]); if LexLe(rest, chunk[0].usageDate) then chunk[0].usageDate else rest
  }

  ghost predicate IsEarliest(date: string, chunk: seq<Fact>)
  {
    (exists i :: 0 <= i < |chunk| && chunk[i].usageDate == date) && forall i :: 0 <= i < |chunk| ==>
        LexLe(date, chunk[i].usageDate)
  }

  ghost predicate IsLatest(date: string, chunk: seq<Fact>)
  {
    (exists i :: 0 <= i < |chunk| && chunk[i].usageDate == date) && forall i :: 0 <= i < |chunk| ==>
        LexLe(chunk[i].usageDate, date)
  }

  lemma {:induction false} WindowIsExact(chunk: seq<Fact>)
    requires chunk != []
    ensures IsEarliest(EarliestDate(chunk), chunk) && IsLatest(LatestDate(chunk), chunk)
  {
    LexReflexive(chunk[0].usageDate);
    if |chunk| > 1 {
      var rest := chunk[1..];
      WindowIsExact(rest);
      var low, high := EarliestDate(rest), LatestDate(rest);
      LexTotal(low, chunk[0].usageDate);
      LexTotal(high, chunk[0].usageDate);
      forall i | 0 <= i < |chunk|
        ensures LexLe(EarliestDate(chunk), chunk[i].usageDate) && LexLe(chunk[i].usageDate, LatestDate(chunk))
      {
        if i > 0 {
          assert rest[i - 1] == chunk[i];
          LexTransitive(EarliestDate(chunk), low, chunk[i].usageDate);
          LexTransitive(chunk[i].usageDate, high, LatestDate(chunk));
        }
      }
      var i :| 0 <= i < |rest| && rest[i].usageDate == low;
      assert chunk[i + 1].usageDate == low;
      var j :| 0 <= j < |rest| && rest[j].usageDate == high;
      assert chunk[j + 1].usageDate == high;
    }
  }

  function WireOf(scope: Scopes.UploadScope): WireScope { if scope.Full? then WireFull else WireIncremental }

  function KeyAt(keys: seq<string>, i: nat): string { if i < |keys| then keys[i] else "" }

  function BodyOf(chunk: seq<Fact>, meta: BatchMeta, revision: int): PushBody
  {
    PushBody(meta.clientDeviceId, meta.appVersion, meta.reportingTimezone, revision,
             EarliestDate(chunk), LatestDate(chunk), WireOf(meta.scope), chunk)
  }

  function PreparedOf(chunk: seq<Fact>, meta: BatchMeta, index: nat, count: nat, first: int,
                      keys: seq<string>): PreparedBatch
  {
    PreparedBatch(ClampU32(index), ClampU32(count), first + index, KeyAt(keys, index),
        BodyOf(chunk, meta, first + index),
                  WireOf(meta.scope), EarliestDate(chunk), LatestDate(chunk))
  }

  predicate ModelsFit(facts: seq<Fact>, limits: BatchLimits)
  {
    forall i :: 0 <= i < |facts| ==> |facts[i].models| <= limits.maxModelsPerFact
  }

  function PreparedBatches(sorted: seq<Fact>, meta: BatchMeta, limits: BatchLimits, first: int,
                           keys: seq<string>): (r: seq<PreparedBatch>)
    requires limits.maxFactsPerBatch > 0
    ensures |r| == |Chunks(sorted, limits.maxFactsPerBatch)|
  {
    var chunks := Chunks(sorted, limits.maxFactsPerBatch);
    seq(|chunks|, i requires 0 <= i < |chunks| => PreparedOf(chunks[i], meta, i, |chunks|, first, keys))
  }

  function Build(facts: seq<Fact>, meta: BatchMeta, limits: BatchLimits, first: int,
                 keys: seq<string>): Result<seq<PreparedBatch>, BuildError>
    requires limits.maxFactsPerBatch > 0
  {
    if facts == [] then Success([])
    else if !ModelsFit(facts, limits) then Failure(TooManyModels(limits.maxModelsPerFact))
    else
      var prepared := PreparedBatches(StableSort(facts), meta, limits, first, keys);
      if first + |prepared| - 1 > I64_MAX then Failure(Serialize) else Success(prepared)
  }

  method CutIntoBatches(facts: seq<Fact>, meta: BatchMeta, limits: BatchLimits, first: int, keys: seq<string>)
    returns (r: Result<seq<PreparedBatch>, BuildError>)
    requires limits.maxFactsPerBatch > 0 && facts != []
    ensures var prepared := PreparedBatches(facts, meta, limits, first, keys);
            r == if first + |prepared| - 1 > I64_MAX then Failure(Serialize) else Success(prepared)
  {
    var chunks := Chunks(facts, limits.maxFactsPerBatch);
    ghost var expected := PreparedBatches(facts, meta, limits, first, keys);
    var prepared: seq<PreparedBatch> := [];
    for index := 0 to |chunks|
      invariant prepared == expected[..index]
      invariant index > 0 ==> first + index - 1 <= I64_MAX
    {
      if first + index > I64_MAX {
        return Failure(Serialize);
      }
      prepared := prepared + [PreparedOf(chunks[index], meta, index, |chunks|, first, keys)];
    }
    ChunksAreExact(facts, limits.maxFactsPerBatch);
    assert prepared == expected;
    return Success(prepared);
  }

  /** `build_prepared_batches`; `keys` are the freshly drawn idempotency keys. */
  method BuildPreparedBatches(input: seq<Fact>, meta: BatchMeta, limits: BatchLimits, first: int, keys: seq<string>)
    returns (r: Result<seq<PreparedBatch>, BuildError>)
    requires limits.maxFactsPerBatch > 0
    ensures r == Build(input, meta, limits, first, keys)
  {
    if input == [] {
      return Success([]);
    }
    for i := 0 to |input|
      invariant forall j :: 0 <= j < i ==> |input[j].models| <= limits.maxModelsPerFact
    {
      if |input[i].models| > limits.maxModelsPerFact {
        return Failure(TooManyModels(limits.maxModelsPerFact));
      }
    }
    var facts := StableSort(input);
    StableSortKeeps(input, input[0]);
    r := CutIntoBatches(facts, meta, limits, first, keys);
  }

  function BodyFacts(batches: seq<PreparedBatch>): seq<seq<Fact>>
  {
    seq(|batches|, i requires 0 <= i < |batches| => batches[i].requestBody.facts)
  }

  lemma FlattenAppend(xs: seq<seq<Fact>>, ys: seq<seq<Fact>>)
    ensures Flatten(xs + ys) == Flatten(xs) + Flatten(ys)
  {
    if xs == [] {
      assert xs + ys == ys;
    } else {
      assert (xs + ys)[1..] == xs[1..] + ys;
      FlattenAppend(xs[1..], ys);
    }
  }

  /** Cutting loses, repeats and reorders nothing: the batches spell out the one stable order of the facts. */
  lemma BatchesSpellTheStableOrder(facts: seq<Fact>, meta: BatchMeta, limits: BatchLimits, first: int,
                                   keys: seq<string>, f: Fact)
    requires limits.maxFactsPerBatch > 0
    ensures var r := Build(facts, meta, limits, first, keys);
            r.Success? ==>
              var all := Flatten(BodyFacts(r.value));
              multiset(all) == multiset(facts) && Sorted(all) && Alike(all, f) == Alike(facts, f)
  {
    var r := Build(facts, meta, limits, first, keys);
    if r.Success? && facts != [] {
      StableSortKeeps(facts, f);
      ChunksAreExact(StableSort(facts), limits.maxFactsPerBatch);
      assert BodyFacts(r.value) == Chunks(StableSort(facts), limits.maxFactsPerBatch);
    }
  }

  ghost predicate WellCut(batches: seq<PreparedBatch>, i: nat, meta: BatchMeta, limits: BatchLimits, first: int,
                          keys: seq<string>)
    requires i < |batches|
  {
    var b := batches[i];
    && 0 < |b.requestBody.facts| <= limits.maxFactsPerBatch
    && (i < |batches| - 1 ==> |b.requestBody.facts| == limits.maxFactsPerBatch)
    && b.batchIndex == ClampU32(i) && b.batchCount == ClampU32(|batches|)
    && b.clientRevision == b.requestBody.clientRevision == first + i <= I64_MAX
    && b.idempotencyKey == KeyAt(keys, i)
    && b.requestBody.clientDeviceId == meta.clientDeviceId && b.requestBody.appVersion == meta.appVersion
    && b.requestBody.reportingTimezone == meta.reportingTimezone
    && b.windowScope == b.requestBody.windowScope == (if meta.scope.Full? then WireFull else WireIncremental)
    && IsEarliest(b.windowStart, b.requestBody.facts) && IsLatest(b.windowEnd, b.requestBody.facts)
    && b.requestBody.windowStart == b.windowStart && b.requestBody.windowEnd == b.windowEnd
    && (i > 0 ==> LexLe(batches[i - 1].windowEnd, b.windowStart))
  }

  /** Size, numbering and windows of every batch, and that windows follow each other in time. */
  lemma BatchesAreWellCut(facts: seq<Fact>, meta: BatchMeta, limits: BatchLimits, first: int, keys: seq<string>)
    requires limits.maxFactsPerBatch > 0
    ensures var r := Build(facts, meta, limits, first, keys);
            r.Success? ==>
              forall i :: 0 <= i < |r.value| ==> WellCut(r.value, i, meta, limits, first, keys)
  {
    var r := Build(facts, meta, limits, first, keys);
    if r.Success? && facts != [] {
      StableSortKeeps(facts, facts[0]);
      forall i | 0 <= i < |r.value| ensures WellCut(r.value, i, meta, limits, first, keys) {
        PreparedIsWellCut(StableSort(facts), meta, limits, first, keys, i);
      }
    }
  }

  lemma PreparedIsWellCut(sorted: seq<Fact>, meta: BatchMeta, limits: BatchLimits, first: int, keys: seq<string>,
                          i: nat)
    requires limits.maxFactsPerBatch > 0 && Sorted(sorted)
    requires i < |PreparedBatches(sorted, meta, limits, first, keys)|
    requires first + |PreparedBatches(sorted, meta, limits, first, keys)| - 1 <= I64_MAX
    ensures WellCut(PreparedBatches(sorted, meta, limits, first, keys), i, meta, limits, first, keys)
  {
    hide Chunks, EarliestDate, LatestDate, IsEarliest, IsLatest;
    var max := limits.maxFactsPerBatch;
    var chunks := Chunks(sorted, max);
    ChunksAreExact(sorted, max);
    WindowIsExact(chunks[i]);
    if i > 0 {
      WindowIsExact(chunks[i - 1]);
      WindowsFollow(sorted, max, i);
    }
  }

  /** The number of batches is the number of facts over the limit, rounded up; none for no facts. */
  lemma BatchCountRoundsUp(facts: seq<Fact>, meta: BatchMeta, limits: BatchLimits, first: int, keys: seq<string>)
    requires limits.maxFactsPerBatch > 0
    ensures var r := Build(facts, meta, limits, first, keys);
            r.Success? ==>
              && (r.value == [] <==> facts == [])
              && (facts != [] ==>
                    (|r.value| - 1) * limits.maxFactsPerBatch < |facts| <= |r.value| * limits.maxFactsPerBatch)
  {
    BuildFailsExactlyWhen(facts, meta, limits, first, keys);
    if facts != [] {
      StableSortKeeps(facts, facts[0]);
      ChunkCountRoundsUp(StableSort(facts), limits.maxFactsPerBatch);
    }
  }

  lemma WindowsFollow(sorted: seq<Fact>, max: nat, i: nat)
    requires max > 0 && Sorted(sorted) && 0 < i < |Chunks(sorted, max)|
    ensures LexLe(LatestDate(Chunks(sorted, max)[i - 1]), EarliestDate(Chunks(sorted, max)[i]))
  {
    ChunksAreExact(sorted, max);
    var before, here := Chunks(sorted, max)[i - 1], Chunks(sorted, max)[i];
    WindowIsExact(before);
    WindowIsExact(here);
    var p :| 0 <= p < |before| && before[p].usageDate == LatestDate(before);
    var q :| 0 <= q < |here| && here[q].usageDate == EarliestDate(here);
    ChunksKeepOrder(sorted, max, i - 1, i, p, q);
    FactOrder(before[p], here[q], here[q]);
  }

  lemma BuildFailsExactlyWhen(facts: seq<Fact>, meta: BatchMeta, limits: BatchLimits, first: int, keys: seq<string>)
    requires limits.maxFactsPerBatch > 0
    ensures var r := Build(facts, meta, limits, first, keys);
            && (r.Success? && r.value == [] <==> facts == [])
            && (r == Failure(TooManyModels(limits.maxModelsPerFact)) <==> !ModelsFit(facts, limits))
            && (r.Success? ==> |r.value| <= |facts|)
  {
    if facts != [] {
      StableSortKeeps(facts, facts[0]);
      ChunksAreExact(StableSort(facts), limits.maxFactsPerBatch);
    }
  }

  /** The revisions and keys of a build, in order. */
  predicate NumberedFrom(prepared: seq<PreparedBatch>, first: int, keys: seq<string>)
  {
    forall i :: 0 <= i < |prepared| ==>
      prepared[i].clientRevision == prepared[i].requestBody.clientRevision == first + i
          && prepared[i].idempotencyKey == KeyAt(keys, i)
  }

  lemma BuildNumbers(facts: seq<Fact>, meta: BatchMeta, limits: BatchLimits, first: int, keys: seq<string>)
    requires limits.maxFactsPerBatch > 0
    ensures var r := Build(facts, meta, limits, first, keys);
            r.Success? ==> NumberedFrom(r.value, first, keys) && |r.value| <= |facts|
  {
    BuildFailsExactlyWhen(facts, meta, limits, first, keys);
    if facts != [] {
      assert NumberedFrom(PreparedBatches(StableSort(facts), meta, limits, first, keys), first, keys);
    }
  }
}
