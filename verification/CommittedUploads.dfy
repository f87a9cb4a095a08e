/** What a refresh committed, and the upload scope derived from it. */
module CommittedUploads {
  import opened Basics
  import opened Scopes

  datatype CommittedDailyTarget = CommittedDailyTarget(sourceKey: string, startDate: int, endDate: int,
      fullHistory: bool)

  datatype CommittedDailyUpload = CommittedDailyUpload(targets: seq<CommittedDailyTarget>, fullRefreshComplete: bool)

  /** The source keys come from the fixed source catalog and the dates from a checked range. */
  predicate WellFormed(target: CommittedDailyTarget)
  {
    IsSourceKey(target.sourceKey) && target.startDate <= target.endDate
  }

  predicate AllFullHistory(targets: seq<CommittedDailyTarget>)
  {
    forall i :: 0 <= i < |targets| ==> targets[i].fullHistory
  }

  /** The running start bound after the first `n` targets: a full-history target resets it to day 0. */
  function StartBound(targets: seq<CommittedDailyTarget>, n: nat): int
    requires 0 < |targets| && n <= |targets|
  {
    if n == 0 then targets[0].startDate
    else if targets[n - 1].fullHistory then 0
    else Min(StartBound(targets, n - 1), targets[n - 1].startDate)
  }

  function EndBound(targets: seq<CommittedDailyTarget>, n: nat): int
    requires 0 < |targets| && n <= |targets|
  {
    if n == 0 then targets[0].endDate else Max(EndBound(targets, n - 1), targets[n - 1].endDate)
  }

  function Keys(targets: seq<CommittedDailyTarget>): seq<string>
  {
    seq(|targets|, i requires 0 <= i < |targets| => targets[i].sourceKey)
  }

  function UploadScopeOf(upload: CommittedDailyUpload): Option<UploadScope>
  {
    if upload.targets == [] then None
    else if upload.fullRefreshComplete && AllFullHistory(upload.targets) then Some(Full)
    else
      match NewIncremental(Keys(upload.targets), StartBound(upload.targets, |upload.targets|),
          EndBound(upload.targets, |upload.targets|))
      case Success(scope) => Some(scope)
      case Failure(_) => None
  }

  /** `into_upload_scope`: one pass over the targets with a running key set and two running bounds. */
  method IntoUploadScope(upload: CommittedDailyUpload) returns (r: Option<UploadScope>)
    ensures r == UploadScopeOf(upload)
  {
    var targets := upload.targets;
    if targets == [] {
      return None;
    }
    if upload.fullRefreshComplete && AllFullHistory(targets) {
      return Some(Full);
    }
    var sourceKeys: seq<string> := [];
    var start, end := targets[0].startDate, targets[0].endDate;
    for i := 0 to |targets|
      invariant sourceKeys == Keys(targets)[..i]
      invariant start == StartBound(targets, i) && end == EndBound(targets, i)
    {
      sourceKeys := sourceKeys + [targets[i].sourceKey];
      start := Min(start, targets[i].startDate);
      end := Max(end, targets[i].endDate);
      if targets[i].fullHistory {
        start := 0;
      }
    }
    assert sourceKeys == Keys(targets);
    var scope := NewIncremental(sourceKeys, start, end);
    r := if scope.Success? then Some(scope.value) else None;
  }

  lemma UploadScopeIsValid(upload: CommittedDailyUpload)
    ensures UploadScopeOf(upload).Some? ==> Valid(UploadScopeOf(upload).value)
  {
  }

  predicate NamesSource(targets: seq<CommittedDailyTarget>, key: string)
  {
    exists i :: 0 <= i < |targets| && targets[i].sourceKey == key
  }

  /** The scope's sources are the targets' sources, no more and no fewer; full exactly when everything is. */
  lemma UploadScopeSources(upload: CommittedDailyUpload, key: string)
    requires UploadScopeOf(upload).Some?
    requires forall i :: 0 <= i < |upload.targets| ==> WellFormed(upload.targets[i])
    ensures UploadScopeOf(upload).value.Full? <==> upload.fullRefreshComplete && AllFullHistory(upload.targets)
    ensures UploadScopeOf(upload).value.Incremental? ==>
            (key in UploadScopeOf(upload).value.sourceKeys <==> NamesSource(upload.targets, key))
  {
    var keys := Keys(upload.targets);
    assert forall i :: 0 <= i < |keys| ==> Trim(keys[i]) == keys[i] == upload.targets[i].sourceKey by {
      assert forall i :: 0 <= i < |keys| ==> WellFormed(upload.targets[i]);
    }
  }

  predicate HandsOver(upload: CommittedDailyUpload, key: string, day: int)
  {
    UploadScopeOf(upload).Some? && Covers(UploadScopeOf(upload).value, key, day)
  }

  /** The whole range of every committed target is inside the scope handed to the outbox. */
  ghost predicate CoversEveryTarget(upload: CommittedDailyUpload)
  {
    forall i, day :: 0 <= i < |upload.targets| && upload.targets[i].startDate <= day <= upload.targets[i].endDate ==>
      HandsOver(upload, upload.targets[i].sourceKey, day)
  }

  /** Some target from `from` on reaches back to `day` or earlier. */
  predicate ReachesBack(targets: seq<CommittedDailyTarget>, from: nat, day: int)
  {
    exists k :: from <= k < |targets| && targets[k].startDate <= day
  }

  /**
   * A caller-checkable condition on the targets: nothing that starts before 1970-01-01 stands before,
   * or at, a full-history target unless a target after all full-history ones reaches back as far.
   */
  predicate NoEarlierHistoryDropped(targets: seq<CommittedDailyTarget>)
  {
    forall i, j :: 0 <= i <= j < |targets| && targets[j].fullHistory && targets[i].startDate < 0 ==>
      ReachesBack(targets, j + 1, targets[i].startDate)
  }

  /** No history is dropped, or the upload is the full scope anyway. */
  predicate KeepsEarlyHistory(upload: CommittedDailyUpload)
  {
    (upload.fullRefreshComplete && AllFullHistory(upload.targets)) || NoEarlierHistoryDropped(upload.targets)
  }

  lemma {:induction false} StartBoundReaches(targets: seq<CommittedDailyTarget>, n: nat, k: nat)
    requires k < n <= |targets| && forall j :: k <= j < n ==> !targets[j].fullHistory
    ensures StartBound(targets, n) <= targets[k].startDate
  {
    if k < n - 1 {
      StartBoundReaches(targets, n - 1, k);
    }
  }

  /** Past a full-history target the bound is day 0, or was lowered further by a later target. */
  lemma {:induction false} StartBoundAfterFullHistory(targets: seq<CommittedDailyTarget>, n: nat, j: nat)
    requires j < n <= |targets| && targets[j].fullHistory
    ensures StartBound(targets, n) <= 0
    ensures StartBound(targets, n) < 0 ==> exists k :: j < k < n && targets[k].startDate == StartBound(targets, n)
  {
    if j < n - 1 {
      StartBoundAfterFullHistory(targets, n - 1, j);
      if !targets[n - 1].fullHistory && StartBound(targets, n) < 0 {
        if StartBound(targets, n) == targets[n - 1].startDate {
        } else {
          var k :| j < k < n - 1 && targets[k].startDate == StartBound(targets, n - 1);
          assert targets[k].startDate == StartBound(targets, n);
        }
      }
    }
  }

  lemma {:induction false} EndBoundIsMaximum(targets: seq<CommittedDailyTarget>, n: nat)
    requires 0 < |targets| && n <= |targets|
    ensures forall k :: 0 <= k < n ==> targets[k].endDate <= EndBound(targets, n)
  {
    if n > 0 {
      EndBoundIsMaximum(targets, n - 1);
    }
  }

  lemma {:induction false} LaterReachKept(targets: seq<CommittedDailyTarget>, i: nat)
    requires i < |targets| && NoEarlierHistoryDropped(targets)
    ensures StartBound(targets, |targets|) <= targets[i].startDate
    decreases |targets| - i
  {
    if forall j :: i <= j < |targets| ==> !targets[j].fullHistory {
      StartBoundReaches(targets, |targets|, i);
    } else {
      var j :| i <= j < |targets| && targets[j].fullHistory;
      StartBoundAfterFullHistory(targets, |targets|, j);
      if targets[i].startDate < 0 {
        assert ReachesBack(targets, j + 1, targets[i].startDate);
        var k :| j + 1 <= k < |targets| && targets[k].startDate <= targets[i].startDate;
        LaterReachKept(targets, k);
      }
    }
  }

  /**
   * Nothing committed falls outside the handed-over scope exactly when no history before 1970 is dropped
   * (or the scope is the full one).
   */
  lemma CommittedTargetsAreCovered(upload: CommittedDailyUpload)
    requires upload.targets != []
    requires forall i :: 0 <= i < |upload.targets| ==> WellFormed(upload.targets[i])
    ensures CoversEveryTarget(upload) <==> KeepsEarlyHistory(upload)
  {
    var targets := upload.targets;
    var n := |targets|;
    if upload.fullRefreshComplete && AllFullHistory(targets) {
      return;
    }
    var start, end := StartBound(targets, n), EndBound(targets, n);
    EndBoundIsMaximum(targets, n);
    var keys := Keys(targets);
    assert forall i :: 0 <= i < n ==> keys[i] == targets[i].sourceKey && Trim(keys[i]) == targets[i].sourceKey;
    if NoEarlierHistoryDropped(targets) {
      forall i, day | 0 <= i < n && targets[i].startDate <= day <= targets[i].endDate
        ensures HandsOver(upload, targets[i].sourceKey, day)
      {
        LaterReachKept(targets, i);
        assert targets[i].sourceKey in keys by { assert keys[i] == targets[i].sourceKey; }
        assert Trim(keys[i]) != "";
      }
    }
    if CoversEveryTarget(upload) {
      forall i, j | 0 <= i <= j < n && targets[j].fullHistory && targets[i].startDate < 0
        ensures ReachesBack(targets, j + 1, targets[i].startDate)
      {
        assert WellFormed(targets[i]) && HandsOver(upload, targets[i].sourceKey, targets[i].startDate);
        StartBoundAfterFullHistory(targets, n, j);
      }
    }
  }

  /** Targets with full history reaching past day 0, as every full one does, always yield a scope. */
  lemma UploadScopeExists(upload: CommittedDailyUpload)
    requires upload.targets != []
    requires forall i :: 0 <= i < |upload.targets| ==> WellFormed(upload.targets[i])
    requires forall i :: 0 <= i < |upload.targets| && upload.targets[i].fullHistory ==> 0 <= upload.targets[i].endDate
    ensures UploadScopeOf(upload).Some?
  {
    var targets := upload.targets;
    var n := |targets|;
    EndBoundIsMaximum(targets, n);
    if forall j :: 0 <= j < n ==> !targets[j].fullHistory {
      StartBoundReaches(targets, n, 0);
    } else {
      var j :| 0 <= j < n && targets[j].fullHistory;
      StartBoundAfterFullHistory(targets, n, j);
    }
    var keys := Keys(targets);
    assert WellFormed(targets[0]) && keys[0] == targets[0].sourceKey && Trim(keys[0]) == keys[0];
  }

  lemma {:induction false} BoundsAreCommitted(targets: seq<CommittedDailyTarget>, n: nat)
    requires 0 < |targets| && n <= |targets|
    ensures exists k :: 0 <= k < |targets| && targets[k].endDate == EndBound(targets, n)
    ensures exists k :: 0 <= k < |targets| && BeginsAt(targets[k], StartBound(targets, n))
  {
    if n == 0 {
      assert targets[0].endDate == EndBound(targets, n) && BeginsAt(targets[0], StartBound(targets, n));
    } else {
      BoundsAreCommitted(targets, n - 1);
      assert targets[n - 1].endDate == EndBound(targets, n) || EndBound(targets, n - 1) == EndBound(targets, n);
      assert BeginsAt(targets[n - 1], StartBound(targets, n)) || StartBound(targets, n - 1) == StartBound(targets, n);
    }
  }

  /** The first day of the target, or day 0 for one with full history. */
  predicate BeginsAt(target: CommittedDailyTarget, day: int)
  {
    target.startDate == day || (target.fullHistory && day == 0)
  }

  /** A narrower scope begins and ends where some target does. */
  lemma UploadScopeBounds(upload: CommittedDailyUpload)
    requires UploadScopeOf(upload).Some? && UploadScopeOf(upload).value.Incremental?
    ensures var targets, scope := upload.targets, UploadScopeOf(upload).value;
            && (exists k :: 0 <= k < |targets| && targets[k].endDate == scope.endDate)
            && (exists k :: 0 <= k < |targets| && BeginsAt(targets[k], scope.startDate))
  {
    BoundsAreCommitted(upload.targets, |upload.targets|);
  }

  /** A committed range that starts before 1970 is cut when a full-history target follows it. */
  lemma EarlyHistoryCanBeDropped()
    ensures var early := CommittedDailyTarget("codex", -3, 5, false);
            var complete := CommittedDailyTarget("pi", 0, 47481, true);
            !CoversEveryTarget(CommittedDailyUpload([early, complete], false))
  {
    var targets := [CommittedDailyTarget("codex", -3, 5, false), CommittedDailyTarget("pi", 0, 47481, true)];
    var upload := CommittedDailyUpload(targets, false);
    assert IsSourceKey("codex") && IsSourceKey("pi");
    CommittedTargetsAreCovered(upload);
    assert targets[1].fullHistory && targets[0].startDate < 0 && !ReachesBack(targets, 2, -3);
  }
}
