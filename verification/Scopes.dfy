/** Upload scopes: what a pending upload must cover, how scopes merge, and how they are stored. */
module Scopes {
  import opened Basics

  /** Days are counted from 1970-01-01, which is day 0. */
  datatype UploadScope =
    | Full
    | Incremental(sourceKeys: set<string>, startDate: int, endDate: int)

  datatype ScopeError = EmptySourceKeys | InvertedDateRange | InvalidStoredDate

  /** The meaning of a scope: the usage of source `key` on `day` is inside it. */
  predicate Covers(scope: UploadScope, key: string, day: int)
  {
    match scope
    case Full => true
    case Incremental(keys, first, last) => key in keys && first <= day <= last
  }

  /** Every (source, day) of `a` is inside `b`. */
  ghost predicate Within(a: UploadScope, b: UploadScope)
  {
    forall key, day :: Covers(a, key, day) ==> Covers(b, key, day)
  }

  predicate IsSourceKey(key: string) { key != "" && Trim(key) == key }

  /** What the constructor of incremental scopes guarantees. */
  predicate Valid(scope: UploadScope)
  {
    scope.Incremental? ==>
      && scope.sourceKeys != {}
      && (forall key | key in scope.sourceKeys :: IsSourceKey(key))
      && scope.startDate <= scope.endDate
  }

  function KeySet(keys: seq<string>): (r: set<string>)
    ensures forall key :: key in r <==> key != "" && exists i :: 0 <= i < |keys| && Trim(keys[i]) == key
  {
    set i | 0 <= i < |keys| && Trim(keys[i]) != "" :: Trim(keys[i])
  }

  lemma OnlyBlankKeysVanish(keys: seq<string>)
    ensures KeySet(keys) != {} <==> exists i :: 0 <= i < |keys| && Trim(keys[i]) != ""
  {
    if i :| 0 <= i < |keys| && Trim(keys[i]) != "" {
      assert Trim(keys[i]) in KeySet(keys);
    }
  }

  /** Keys are trimmed and blank ones dropped before the emptiness check. */
  function NewIncremental(keys: seq<string>, first: int, last: int): (r: Result<UploadScope, ScopeError>)
    ensures r.Success? ==> Valid(r.value) && r.value.Incremental?
    ensures r.Success? <==> first <= last && exists i :: 0 <= i < |keys| && Trim(keys[i]) != ""
    ensures last < first ==> r == Failure(InvertedDateRange)
    ensures forall key, day :: r.Success? && IsSourceKey(key) && key in keys && first <= day <= last ==>
            Covers(r.value, key, day)
  {
    if last < first then Failure(InvertedDateRange)
    else
      var kept := KeySet(keys);
      assert forall key :: key in kept ==> IsSourceKey(key) by {
        forall key | key in kept ensures IsSourceKey(key) {
          var i :| 0 <= i < |keys| && Trim(keys[i]) == key;
          TrimIdempotent(keys[i]);
        }
      }
      OnlyBlankKeysVanish(keys);
      if kept == {} then Failure(EmptySourceKeys) else Success(Incremental(kept, first, last))
  }

  function MergeUploadScopes(existing: Option<UploadScope>, incoming: UploadScope): UploadScope
  {
    match (existing, incoming)
    case (_, Full) => Full
    case (Some(Full), _) => Full
    case (None, other) => other
    case (Some(Incremental(oldKeys, oldFirst, oldLast)), Incremental(keys, first, last)) =>
      Incremental(oldKeys + keys, Min(oldFirst, first), Max(oldLast, last))
  }

  /** Containment read off the fields. */
  predicate FieldsWithin(a: UploadScope, b: UploadScope)
  {
    || b.Full?
    || (a.Incremental? && a.sourceKeys <= b.sourceKeys && b.startDate <= a.startDate && a.endDate <= b.endDate)
  }

  /** For constructor-made scopes, coverage decides the structure completely. */
  lemma WithinIsStructural(a: UploadScope, b: UploadScope)
    requires Valid(a)
    ensures Within(a, b) <==> FieldsWithin(a, b)
  {
    if a.Full? && b.Incremental? {
      assert Covers(a, "", b.startDate - 1) && !Covers(b, "", b.startDate - 1);
    } else if a.Incremental? && b.Incremental? && Within(a, b) {
      forall key | key in a.sourceKeys ensures key in b.sourceKeys {
        assert Covers(a, key, a.startDate);
      }
      var key :| key in a.sourceKeys;
      assert Covers(a, key, a.startDate) && Covers(a, key, a.endDate);
    }
  }

  lemma WithinAntisymmetric(a: UploadScope, b: UploadScope)
    requires Valid(a) && Valid(b) && Within(a, b) && Within(b, a)
    ensures a == b
  {
    WithinIsStructural(a, b);
    WithinIsStructural(b, a);
  }

  /** Merging is the least upper bound of the two scopes under coverage. */
  lemma MergeIsLeastUpperBound(a: UploadScope, b: UploadScope, bound: UploadScope)
    requires Valid(a) && Valid(b)
    ensures var m := MergeUploadScopes(Some(a), b);
            Valid(m) && Within(a, m) && Within(b, m) && (Within(a, bound) && Within(b, bound) ==> Within(m, bound))
  {
    var m := MergeUploadScopes(Some(a), b);
    assert Valid(m);
    WithinIsStructural(a, m);
    WithinIsStructural(b, m);
    WithinIsStructural(a, bound);
    WithinIsStructural(b, bound);
    WithinIsStructural(m, bound);
  }

  lemma MergeIsSemilattice(a: UploadScope, b: UploadScope, c: UploadScope)
    requires Valid(a) && Valid(b) && Valid(c)
    ensures MergeUploadScopes(Some(a), b) == MergeUploadScopes(Some(b), a)
    ensures MergeUploadScopes(Some(MergeUploadScopes(Some(a), b)), c)
            == MergeUploadScopes(Some(a), MergeUploadScopes(Some(b), c))
    ensures MergeUploadScopes(Some(a), a) == a
    ensures MergeUploadScopes(Some(a), Full) == Full == MergeUploadScopes(Some(Full), a)
  {
    if a.Incremental? && b.Incremental? {
      assert a.sourceKeys + b.sourceKeys == b.sourceKeys + a.sourceKeys;
      assert a.sourceKeys + a.sourceKeys == a.sourceKeys;
      if c.Incremental? {
        assert (a.sourceKeys + b.sourceKeys) + c.sourceKeys == a.sourceKeys + (b.sourceKeys + c.sourceKeys);
      }
    } else if a.Incremental? {
      assert a.sourceKeys + a.sourceKeys == a.sourceKeys;
    }
  }

  /** The pending scope after a sequence of merges. */
  function MergeSequence(existing: Option<UploadScope>, scopes: seq<UploadScope>): Option<UploadScope>
  {
    if scopes == [] then existing
    else Some(MergeUploadScopes(MergeSequence(existing, scopes[..|scopes| - 1]), scopes[|scopes| - 1]))
  }

  lemma {:induction false} MergeSequenceIsLeast(existing: Option<UploadScope>, scopes: seq<UploadScope>,
                                                bound: UploadScope)
    requires existing.Some? ==> Valid(existing.value)
    requires forall i :: 0 <= i < |scopes| ==> Valid(scopes[i])
    ensures var m := MergeSequence(existing, scopes);
            && (m.None? <==> existing.None? && scopes == [])
            && (m.Some? ==> Valid(m.value))
            && (existing.Some? ==> Within(existing.value, m.value))
            && (forall i :: 0 <= i < |scopes| ==> Within(scopes[i], m.value))
            && ((m.Some? && (existing.Some? ==> Within(existing.value, bound)) && forall i :: 0 <= i < |scopes| ==>
                 Within(scopes[i], bound))
                ==> Within(m.value, bound))
  {
    if scopes != [] {
      var front, last := scopes[..|scopes| - 1], scopes[|scopes| - 1];
      MergeSequenceIsLeast(existing, front, bound);
      var before := MergeSequence(existing, front);
      var m := MergeSequence(existing, scopes).value;
      if before.Some? {
        MergeIsLeastUpperBound(before.value, last, bound);
        forall i | 0 <= i < |scopes| ensures Within(scopes[i], m) {
          if i < |front| { assert front[i] == scopes[i]; }
        }
        if (existing.Some? ==> Within(existing.value, bound))
            && (forall i :: 0 <= i < |scopes| ==> Within(scopes[i], bound)) {
          forall i | 0 <= i < |front| ensures Within(front[i], bound) { assert front[i] == scopes[i]; }
        }
      } else {
        assert m == last;
      }
    }
  }

  /** The pending scope does not depend on the order, or the repetition, of the merges that built it. */
  lemma MergeOrderIsIrrelevant(existing: Option<UploadScope>, xs: seq<UploadScope>, ys: seq<UploadScope>)
    requires existing.Some? ==> Valid(existing.value)
    requires forall i :: 0 <= i < |xs| ==> Valid(xs[i])
    requires forall i :: 0 <= i < |ys| ==> Valid(ys[i])
    requires forall s :: s in xs <==> s in ys
    ensures MergeSequence(existing, xs) == MergeSequence(existing, ys)
  {
    var mx, my := MergeSequence(existing, xs), MergeSequence(existing, ys);
    MergeSequenceIsLeast(existing, xs, Full);
    MergeSequenceIsLeast(existing, ys, Full);
    assert |ys| > 0 ==> ys[0] in ys;
    if xs != [] {
      assert xs[0] in ys;
      MergeSequenceIsLeast(existing, xs, my.value);
      MergeSequenceIsLeast(existing, ys, mx.value);
      forall i | 0 <= i < |xs| ensures Within(xs[i], my.value) { assert xs[i] in ys; }
      forall i | 0 <= i < |ys| ensures Within(ys[i], mx.value) { assert ys[i] in xs; }
      WithinAntisymmetric(mx.value, my.value);
    }
  }

  /** The scope of an export query: the incremental bounds and keys go through the constructor's checks again. */
  function ExportQuery(scope: UploadScope): Result<UploadScope, ScopeError>
  {
    match scope
    case Full => Success(Full)
    case Incremental(keys, first, last) =>
      var kept := set key | key in keys && Trim(key) != "" :: Trim(key);
      if last < first then Failure(InvertedDateRange)
      else if kept == {} then Failure(EmptySourceKeys)
      else Success(Incremental(kept, first, last))
  }

  /** A pending scope is exported exactly as it stands. */
  lemma QueryIsTheScope(scope: UploadScope)
    requires Valid(scope)
    ensures ExportQuery(scope) == Success(scope)
  {
    if scope.Incremental? {
      var kept := set key | key in scope.sourceKeys && Trim(key) != "" :: Trim(key);
      forall key ensures key in kept <==> key in scope.sourceKeys {
        if key in scope.sourceKeys { assert IsSourceKey(key); }
        if key in kept { var k :| k in scope.sourceKeys && Trim(k) == key; assert IsSourceKey(k); }
      }
      assert kept == scope.sourceKeys;
    }
  }

  // ---- the durable form -------------------------------------------------------------------

  /** A stored date column: a printed calendar day, or text that does not parse as one. */
  datatype StoredDate = Iso(day: int) | Unreadable(text: string)

  datatype StoredUploadScope =
    | StoredFull
    | StoredIncremental(keys: seq<string>, startDate: StoredDate, endDate: StoredDate)

  predicate LeastOf(least: string, keys: set<string>)
  {
    least in keys && forall key :: key in keys ==> LexLe(least, key)
  }

  lemma LeastWithOneMore(keys: set<string>, low: string, pick: string)
    requires LeastOf(low, keys - {pick}) && pick in keys
    ensures LeastOf(if LexLe(pick, low) then pick else low, keys)
  {
    LexTotal(pick, low);
    LexReflexive(pick);
    if LexLe(pick, low) {
      forall key | key in keys ensures LexLe(pick, key) {
        if key != pick { LexTransitive(pick, low, key); }
      }
    }
  }

  lemma {:induction false} LeastKeyExists(keys: set<string>)
    requires keys != {}
    ensures exists least :: LeastOf(least, keys)
  {
    var pick :| pick in keys;
    if keys - {pick} == {} {
      LexReflexive(pick);
      assert forall key :: key in keys ==> key == pick || key in keys - {pick};
      assert LeastOf(pick, keys);
    } else {
      LeastKeyExists(keys - {pick});
      var low :| LeastOf(low, keys - {pick});
      LeastWithOneMore(keys, low, pick);
    }
  }

  /** The ascending iteration order of an ordered set. */
  ghost function Ascending(keys: set<string>): seq<string>
  {
    if keys == {} then []
    else
      LeastKeyExists(keys);
      var least :| LeastOf(least, keys);
      [least] + Ascending(keys - {least})
  }

  lemma {:induction false} AscendingListsTheSet(keys: set<string>)
    ensures forall key :: key in Ascending(keys) <==> key in keys
    ensures |Ascending(keys)| == |keys|
    ensures forall i, j :: 0 <= i < j < |Ascending(keys)| ==> LexLe(Ascending(keys)[i], Ascending(keys)[j])
  {
    if keys != {} {
      LeastKeyExists(keys);
      var least := Ascending(keys)[0];
      AscendingListsTheSet(keys - {least});
      forall key ensures key in Ascending(keys) <==> key in keys {
        assert key in Ascending(keys) <==> key == least || key in Ascending(keys - {least});
      }
      forall i, j | 0 <= i < j < |Ascending(keys)| ensures LexLe(Ascending(keys)[i], Ascending(keys)[j]) {
        if i == 0 { assert Ascending(keys)[j] in Ascending(keys); }
      }
    }
  }

  ghost function ToStored(scope: UploadScope): StoredUploadScope
  {
    match scope
    case Full => StoredFull
    case Incremental(keys, first, last) => StoredIncremental(Ascending(keys), Iso(first), Iso(last))
  }

  function FromStored(stored: StoredUploadScope): (r: Result<UploadScope, ScopeError>)
    ensures r.Success? ==> Valid(r.value)
    ensures stored.StoredIncremental? && (stored.startDate.Unreadable? || stored.endDate.Unreadable?) ==>
            r == Failure(InvalidStoredDate)
  {
    match stored
    case StoredFull => Success(Full)
    case StoredIncremental(keys, Iso(first), Iso(last)) => NewIncremental(keys, first, last)
    case StoredIncremental(_, _, _) => Failure(InvalidStoredDate)
  }

  /** The constructor's trimming leaves a set of source keys as it is. */
  lemma StoredKeysComeBack(keys: set<string>)
    requires forall key | key in keys :: IsSourceKey(key)
    ensures KeySet(Ascending(keys)) == keys
  {
    var listed := Ascending(keys);
    AscendingListsTheSet(keys);
    forall key ensures key in KeySet(listed) <==> key in keys {
      if key in keys {
        var i :| 0 <= i < |listed| && listed[i] == key;
        assert Trim(listed[i]) == key;
      }
      if key in KeySet(listed) {
        var i :| 0 <= i < |listed| && Trim(listed[i]) == key;
        assert listed[i] in keys;
      }
    }
  }

  /** Writing a pending scope and reading it back changes nothing, for exactly the valid scopes. */
  lemma StoredRoundTrip(scope: UploadScope)
    ensures FromStored(ToStored(scope)) == Success(scope) <==> Valid(scope)
  {
    if scope.Incremental? && Valid(scope) {
      StoredKeysComeBack(scope.sourceKeys);
      OnlyBlankKeysVanish(Ascending(scope.sourceKeys));
    }
  }
}
