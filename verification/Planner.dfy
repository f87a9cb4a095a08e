/** The refresh planner: which days the next refresh of a target collects. */
module Planner {
  import opened Basics
  import opened CollectionScopes

  const LOOKBACK_DAYS := 2

  /** The earliest calendar day that can be represented, 1 January of the year -262143. */
  const EARLIEST_DAY := -96465292

  datatype PlanMode = CatchUp | Freshness

  /** The latest successful import of a target. */
  datatype ImportState = ImportState(target: RefreshTarget, scope: CollectionScope)

  function ScopeEnd(state: ImportState): Option<int>
  {
    if state.scope.FullScope? then None else Some(state.scope.endDate)
  }

  function CheckedBack(day: int, days: nat): Option<int>
  {
    if day - days < EARLIEST_DAY then None else Some(day - days)
  }

  function CatchUpScope(today: int, previous: ImportState): CollectionScope
  {
    var base := if ScopeEnd(previous).Some? then ScopeEnd(previous).value else today;
    var lookback := CheckedBack(base, LOOKBACK_DAYS);
    Range(Min(if lookback.Some? then lookback.value else base, today), today)
  }

  function TodayScope(today: int): CollectionScope { Range(today, today) }

  /** Building a planned range never fails, and it always ends today. */
  function Plan(target: RefreshTarget, mode: PlanMode, today: int, previous: Option<ImportState>): (r: CollectionScope)
    ensures r.FullScope? <==> previous.None? || previous.value.target != target
    ensures r.Range? ==> IsRange(r) && r.endDate == today
  {
    match previous
    case None => FullScope
    case Some(state) =>
      if state.target != target then FullScope
      else if mode.CatchUp? then CatchUpScope(today, state)
      else TodayScope(today)
  }

  // ---- runs of plans ----------------------------------------------------------------------

  /** One refresh of the target: when it ran and whether its import succeeded. */
  datatype Refresh = Refresh(mode: PlanMode, today: int, succeeds: bool)

  /** The latest successful import after the first `n` refreshes; a failed one leaves it alone. */
  function ImportAfter(target: RefreshTarget, first: Option<ImportState>, runs: seq<Refresh>,
                       n: nat): Option<ImportState>
    requires n <= |runs|
  {
    if n == 0 then first
    else
      var before := ImportAfter(target, first, runs, n - 1);
      if runs[n - 1].succeeds then Some(ImportState(target, Plan(target, runs[n - 1].mode, runs[n - 1].today, before)))
      else before
  }

  function ScopeAt(target: RefreshTarget, first: Option<ImportState>, runs: seq<Refresh>, i: nat): CollectionScope
    requires i < |runs|
  {
    Plan(target, runs[i].mode, runs[i].today, ImportAfter(target, first, runs, i))
  }

  /** A full collection of a day covers everything up to that day. */
  predicate Collects(scope: CollectionScope, today: int, day: int)
  {
    match scope
    case FullScope => day <= today
    case Range(first, last) => first <= day <= last
  }

  predicate CollectedBy(target: RefreshTarget, first: Option<ImportState>, runs: seq<Refresh>, n: nat, day: int)
    requires n <= |runs|
  {
    exists i :: 0 <= i < n && runs[i].succeeds && Collects(ScopeAt(target, first, runs, i), runs[i].today, day)
  }

  /** The last day a successful refresh ran on, or `from`. */
  function LastSuccess(runs: seq<Refresh>, n: nat, from: int): int
    requires n <= |runs|
  {
    if n == 0 then from else if runs[n - 1].succeeds then runs[n - 1].today else LastSuccess(runs, n - 1, from)
  }

  /** The clock never goes back, and starts no earlier than `from`. */
  predicate ClockAdvances(runs: seq<Refresh>, from: int)
  {
    (forall i :: 0 <= i < |runs| ==> from <= runs[i].today)
    && forall i, j :: 0 <= i < j < |runs| ==> runs[i].today <= runs[j].today
  }

  /** The import a run of refreshes starts from: a full one made on `day0`, or a range that ends on it. */
  predicate StartsFrom(target: RefreshTarget, first: ImportState, day0: int)
  {
    && first.target == target && EARLIEST_DAY <= day0
    && (first.scope.Range? ==> IsRange(first.scope) && first.scope.endDate == day0)
  }

  /** In hand after `n` refreshes: the days of the import they started from, and what they collected. */
  predicate InHand(target: RefreshTarget, first: ImportState, day0: int, runs: seq<Refresh>, n: nat, day: int)
    requires n <= |runs|
  {
    Collects(first.scope, day0, day) || CollectedBy(target, Some(first), runs, n, day)
  }

  /** The days in hand are one unbroken interval that ends on `last`. */
  ghost predicate Unbroken(target: RefreshTarget, first: ImportState, day0: int, runs: seq<Refresh>, n: nat, last: int)
    requires n <= |runs|
  {
    && InHand(target, first, day0, runs, n, last)
    && (forall day :: InHand(target, first, day0, runs, n, day) ==> day <= last)
    && forall x, day :: InHand(target, first, day0, runs, n, x) && x <= day <= last ==>
         InHand(target, first, day0, runs, n, day)
  }

  lemma {:induction false} LatestImport(target: RefreshTarget, first: ImportState, day0: int, runs: seq<Refresh>,
                                        n: nat)
    requires StartsFrom(target, first, day0) && n <= |runs| && ClockAdvances(runs, day0)
    ensures var state := ImportAfter(target, Some(first), runs, n);
            && state.Some? && state.value.target == target
            && day0 <= LastSuccess(runs, n, day0)
            && (forall i :: n <= i < |runs| ==> LastSuccess(runs, n, day0) <= runs[i].today)
            && (forall i :: 0 <= i < n && runs[i].succeeds ==> runs[i].today <= LastSuccess(runs, n, day0))
            && (state.value.scope.Range? ==> state.value.scope.endDate == LastSuccess(runs, n, day0))
            && (state.value.scope.FullScope? <==>
                  first.scope.FullScope? && forall i :: 0 <= i < n ==> !runs[i].succeeds)
            && ((forall i :: 0 <= i < n ==> !runs[i].succeeds) ==> LastSuccess(runs, n, day0) == day0)
  {
    if n > 0 {
      LatestImport(target, first, day0, runs, n - 1);
    }
  }

  lemma {:induction false} LastSuccessIsOne(runs: seq<Refresh>, n: nat, from: int)
    requires n <= |runs|
    ensures LastSuccess(runs, n, from) == from
            || exists i :: 0 <= i < n && runs[i].succeeds && runs[i].today == LastSuccess(runs, n, from)
  {
    if n > 0 && !runs[n - 1].succeeds {
      LastSuccessIsOne(runs, n - 1, from);
    }
  }

  // ---- gaps -------------------------------------------------------------------------------

  /** Where the range of refresh `i` starts. */
  function StartAt(target: RefreshTarget, first: ImportState, runs: seq<Refresh>, i: nat): int
    requires i < |runs|
  {
    var scope := ScopeAt(target, Some(first), runs, i);
    if scope.Range? then scope.startDate else 0
  }

  /** Freshness starts today; catch-up two days before the last collected day, or before today after a full import. */
  lemma RangeAt(target: RefreshTarget, first: ImportState, day0: int, runs: seq<Refresh>, i: nat)
    requires StartsFrom(target, first, day0) && i < |runs| && ClockAdvances(runs, day0)
    ensures ScopeAt(target, Some(first), runs, i) == Range(StartAt(target, first, runs, i), runs[i].today)
    ensures StartAt(target, first, runs, i) <= runs[i].today
    ensures var back := (day: int) => if day - 2 < EARLIEST_DAY then day else day - 2;
            var onlyFull := first.scope.FullScope? && forall k :: 0 <= k < i ==> !runs[k].succeeds;
            StartAt(target, first, runs, i) ==
              if runs[i].mode.Freshness? then runs[i].today
              else back(if onlyFull then runs[i].today else LastSuccess(runs, i, day0))
  {
    LatestImport(target, first, day0, runs, i);
  }

  /** Refresh `i` leaves out days between the last collected one and its own range. */
  predicate OpensGap(target: RefreshTarget, first: ImportState, day0: int, runs: seq<Refresh>, i: nat)
    requires i < |runs|
  {
    runs[i].succeeds && LastSuccess(runs, i, day0) + 1 < StartAt(target, first, runs, i)
  }

  /** Refresh `j` reaches back to the first day refresh `i` left out. */
  predicate ClosesGap(target: RefreshTarget, first: ImportState, day0: int, runs: seq<Refresh>, i: nat, j: nat)
    requires i < j < |runs|
  {
    runs[j].succeeds && StartAt(target, first, runs, j) <= LastSuccess(runs, i, day0) + 1
  }

  predicate GapsAreClosed(target: RefreshTarget, first: ImportState, day0: int, runs: seq<Refresh>)
  {
    forall i :: 0 <= i < |runs| && OpensGap(target, first, day0, runs, i) ==>
      exists j :: i < j < |runs| && ClosesGap(target, first, day0, runs, i, j)
  }

  /** A day is in hand exactly when the first import holds it or the range of a successful refresh does. */
  lemma InHandMeans(target: RefreshTarget, first: ImportState, day0: int, runs: seq<Refresh>, day: int)
    requires StartsFrom(target, first, day0) && ClockAdvances(runs, day0)
    ensures InHand(target, first, day0, runs, |runs|, day) <==>
            || Collects(first.scope, day0, day)
            || exists i :: 0 <= i < |runs| && runs[i].succeeds
                 && StartAt(target, first, runs, i) <= day <= runs[i].today
  {
    forall i | 0 <= i < |runs|
      ensures Collects(ScopeAt(target, Some(first), runs, i), runs[i].today, day)
              <==> StartAt(target, first, runs, i) <= day <= runs[i].today
    {
      RangeAt(target, first, day0, runs, i);
    }
  }

  /** The first day a gap leaves out is in hand in the end only if a later refresh reaches back to it. */
  lemma GapDay(target: RefreshTarget, first: ImportState, day0: int, runs: seq<Refresh>, i: nat)
    requires StartsFrom(target, first, day0) && ClockAdvances(runs, day0)
    requires i < |runs| && OpensGap(target, first, day0, runs, i)
    requires InHand(target, first, day0, runs, |runs|, LastSuccess(runs, i, day0) + 1)
    ensures exists j :: i < j < |runs| && ClosesGap(target, first, day0, runs, i, j)
  {
    var day := LastSuccess(runs, i, day0) + 1;
    InHandMeans(target, first, day0, runs, day);
    LatestImport(target, first, day0, runs, i);
    var j :| 0 <= j < |runs| && runs[j].succeeds && StartAt(target, first, runs, j) <= day <= runs[j].today;
    assert i < j && ClosesGap(target, first, day0, runs, i, j);
  }

  /** The first successful refresh, from `i` on, that ran on `day` or later. */
  lemma {:induction false} FirstToReach(runs: seq<Refresh>, day: int, i: nat, k: nat) returns (r: nat)
    requires i <= k < |runs| && runs[k].succeeds && day <= runs[k].today
    ensures i <= r <= k && runs[r].succeeds && day <= runs[r].today
    ensures forall m :: i <= m < r && runs[m].succeeds ==> runs[m].today < day
    decreases k - i
  {
    if runs[i].succeeds && day <= runs[i].today {
      r := i;
    } else {
      r := FirstToReach(runs, day, i + 1, k);
    }
  }

  /** With every gap closed, each day after the first import and up to the last success is in hand. */
  lemma DayIsInHand(target: RefreshTarget, first: ImportState, day0: int, runs: seq<Refresh>, day: int)
    requires StartsFrom(target, first, day0) && ClockAdvances(runs, day0) && GapsAreClosed(target, first, day0, runs)
    requires day0 < day <= LastSuccess(runs, |runs|, day0)
    ensures InHand(target, first, day0, runs, |runs|, day)
  {
    LastSuccessIsOne(runs, |runs|, day0);
    var k :| 0 <= k < |runs| && runs[k].succeeds && runs[k].today == LastSuccess(runs, |runs|, day0);
    var i := FirstToReach(runs, day, 0, k);
    LastSuccessIsOne(runs, i, day0);
    InHandMeans(target, first, day0, runs, day);
    if day < StartAt(target, first, runs, i) {
      assert OpensGap(target, first, day0, runs, i);
      var j :| i < j < |runs| && ClosesGap(target, first, day0, runs, i, j);
      assert StartAt(target, first, runs, j) <= day <= runs[j].today;
    }
  }

  lemma ClosedGapsAreUnbroken(target: RefreshTarget, first: ImportState, day0: int, runs: seq<Refresh>)
    requires StartsFrom(target, first, day0) && ClockAdvances(runs, day0) && GapsAreClosed(target, first, day0, runs)
    ensures Unbroken(target, first, day0, runs, |runs|, LastSuccess(runs, |runs|, day0))
  {
    var n, last := |runs|, LastSuccess(runs, |runs|, day0);
    LatestImport(target, first, day0, runs, n);
    if day0 < last { DayIsInHand(target, first, day0, runs, last); }
    forall x | InHand(target, first, day0, runs, n, x) ensures x <= last {
      InHandMeans(target, first, day0, runs, x);
    }
    forall x, day | InHand(target, first, day0, runs, n, x) && x <= day <= last
      ensures InHand(target, first, day0, runs, n, day)
    {
      InHandMeans(target, first, day0, runs, x);
      InHandMeans(target, first, day0, runs, day);
      if day0 < day { DayIsInHand(target, first, day0, runs, day); }
    }
  }

  /**
   * For any run of freshness and catch-up refreshes, any of them failing, after a full or a partial import: the
   * days in hand are one unbroken interval up to the last success if and only if every gap a refresh opens is
   * closed by a later one that reaches back to it.
   */
  lemma UnbrokenExactlyWhenGapsAreClosed(target: RefreshTarget, first: ImportState, day0: int, runs: seq<Refresh>)
    requires StartsFrom(target, first, day0) && ClockAdvances(runs, day0)
    ensures Unbroken(target, first, day0, runs, |runs|, LastSuccess(runs, |runs|, day0))
            <==> GapsAreClosed(target, first, day0, runs)
  {
    var n, last := |runs|, LastSuccess(runs, |runs|, day0);
    if GapsAreClosed(target, first, day0, runs) {
      ClosedGapsAreUnbroken(target, first, day0, runs);
    }
    if Unbroken(target, first, day0, runs, n, last) {
      forall i | 0 <= i < n && OpensGap(target, first, day0, runs, i)
        ensures exists j :: i < j < n && ClosesGap(target, first, day0, runs, i, j)
      {
        LatestImport(target, first, day0, runs, i);
        LatestImport(target, first, day0, runs, n);
        RangeAt(target, first, day0, runs, i);
        assert InHand(target, first, day0, runs, n, day0);
        GapDay(target, first, day0, runs, i);
      }
    }
  }

  // ---- what follows for the two modes -----------------------------------------------------

  predicate OnlyCatchUps(runs: seq<Refresh>) { forall i :: 0 <= i < |runs| ==> runs[i].mode.CatchUp? }

  /**
   * From an incremental import on, catch-ups leave no holes, however many of them fail: what was collected is
   * one unbroken interval that ends on the day of the last success.
   */
  lemma CatchUpLeavesNoHoles(target: RefreshTarget, first: ImportState, day0: int, runs: seq<Refresh>)
    requires StartsFrom(target, first, day0) && first.scope.Range? && ClockAdvances(runs, day0) && OnlyCatchUps(runs)
    ensures Unbroken(target, first, day0, runs, |runs|, LastSuccess(runs, |runs|, day0))
  {
    forall i | 0 <= i < |runs| ensures !OpensGap(target, first, day0, runs, i) {
      RangeAt(target, first, day0, runs, i);
    }
    ClosedGapsAreUnbroken(target, first, day0, runs);
  }

  /** The first successful refresh, if any. */
  predicate IsFirstSuccess(runs: seq<Refresh>, i: nat)
  {
    i < |runs| && runs[i].succeeds && forall k :: 0 <= k < i ==> !runs[k].succeeds
  }

  /**
   * A successful refresh that skips days: a freshness refresh more than a day after the last collected day, or a
   * first catch-up more than three days after a full import.
   */
  predicate Skips(first: ImportState, day0: int, runs: seq<Refresh>, i: nat)
    requires i < |runs|
  {
    && runs[i].succeeds
    && if runs[i].mode.Freshness? then LastSuccess(runs, i, day0) + 1 < runs[i].today
       else first.scope.FullScope? && IsFirstSuccess(runs, i) && day0 + 3 < runs[i].today
  }

  /** A catch-up that comes while the last collected day is at most three days past the one before the gap. */
  predicate CatchesUp(day0: int, runs: seq<Refresh>, i: nat, j: nat)
    requires i < j < |runs|
  {
    runs[j].succeeds && runs[j].mode.CatchUp? && LastSuccess(runs, j, day0) <= LastSuccess(runs, i, day0) + 3
  }

  lemma OpensGapMeansSkips(target: RefreshTarget, first: ImportState, day0: int, runs: seq<Refresh>, i: nat)
    requires StartsFrom(target, first, day0) && ClockAdvances(runs, day0) && i < |runs|
    ensures OpensGap(target, first, day0, runs, i) <==> Skips(first, day0, runs, i)
  {
    RangeAt(target, first, day0, runs, i);
    LatestImport(target, first, day0, runs, i);
  }

  lemma ClosesGapMeansCatchesUp(target: RefreshTarget, first: ImportState, day0: int, runs: seq<Refresh>, i: nat,
                                j: nat)
    requires StartsFrom(target, first, day0) && ClockAdvances(runs, day0)
    requires i < j < |runs| && Skips(first, day0, runs, i)
    ensures ClosesGap(target, first, day0, runs, i, j) <==> CatchesUp(day0, runs, i, j)
  {
    RangeAt(target, first, day0, runs, j);
    LatestImport(target, first, day0, runs, i);
    LatestImport(target, first, day0, runs, j);
  }

  /**
   * Freshness and catch-up mixed in any order, after a full or a partial import: there is no hole if and only if
   * after every refresh that skips days a catch-up succeeds while the last collected day is still within three
   * days of the one before the gap. Read off the modes, days and successes alone.
   */
  lemma MixedRunsExactlyWhen(target: RefreshTarget, first: ImportState, day0: int, runs: seq<Refresh>)
    requires StartsFrom(target, first, day0) && ClockAdvances(runs, day0)
    ensures Unbroken(target, first, day0, runs, |runs|, LastSuccess(runs, |runs|, day0))
            <==> forall i :: 0 <= i < |runs| && Skips(first, day0, runs, i) ==>
                   exists j :: i < j < |runs| && CatchesUp(day0, runs, i, j)
  {
    hide Unbroken, OpensGap, ClosesGap, Skips, CatchesUp;
    UnbrokenExactlyWhenGapsAreClosed(target, first, day0, runs);
    forall i | 0 <= i < |runs| ensures OpensGap(target, first, day0, runs, i) <==> Skips(first, day0, runs, i) {
      OpensGapMeansSkips(target, first, day0, runs, i);
    }
    forall i, j | 0 <= i < j < |runs| && Skips(first, day0, runs, i)
      ensures ClosesGap(target, first, day0, runs, i, j) <==> CatchesUp(day0, runs, i, j)
    {
      ClosesGapMeansCatchesUp(target, first, day0, runs, i, j);
    }
  }

  /**
   * A full import stores no end date, so the next catch-up looks back from its own day. After a full import on
   * `day0` catch-ups leave no hole exactly when the first successful one comes by `day0 + 3`.
   */
  lemma FullThenCatchUpExactlyWhen(target: RefreshTarget, first: ImportState, day0: int, runs: seq<Refresh>)
    requires StartsFrom(target, first, day0) && first.scope.FullScope? && ClockAdvances(runs, day0)
    requires OnlyCatchUps(runs)
    ensures Unbroken(target, first, day0, runs, |runs|, LastSuccess(runs, |runs|, day0))
            <==> forall i :: 0 <= i < |runs| && IsFirstSuccess(runs, i) ==> runs[i].today <= day0 + 3
  {
    hide Unbroken;
    MixedRunsExactlyWhen(target, first, day0, runs);
    forall i | 0 <= i < |runs|
      ensures Skips(first, day0, runs, i) <==> IsFirstSuccess(runs, i) && day0 + 3 < runs[i].today
    {
    }
    forall i, j | 0 <= i < j < |runs| && Skips(first, day0, runs, i) ensures !CatchesUp(day0, runs, i, j) {
      LatestImport(target, first, day0, runs, i);
      LatestImport(target, first, day0, runs, j);
    }
  }
}
