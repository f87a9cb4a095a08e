/** One refresh: every target is collected and persisted in turn, and every run that was ending is closed again. */
module RefreshRuns {
  import opened Basics
  import opened CollectionScopes
  import opened CommittedUploads
  import Scopes

  datatype RunOutcome = Succeeded | Partial | Failed

  datatype CollectionOutcome = Complete | PartialCollection | Empty

  datatype ScopePolicy = FullPolicy | CatchUpPolicy | FreshnessPolicy

  /** What a collector returned: the collection names its own projection and effective scope. */
  datatype Collection = Collection(projection: Projection, effectiveScope: CollectionScope, outcome: CollectionOutcome)

  /** How a completion call ends; its effect may reach the store without the caller hearing of it. */
  datatype Answer = Acknowledged | Unheard | Refused

  /** Everything outside this code that decides one target's fate. */
  datatype Attempt = Attempt(target: RefreshTarget, hasProfile: bool, resolves: bool, planned: Option<CollectionScope>,
                             collected: Option<Collection>, metadataOk: bool, begins: bool, reconciles: bool,
                                 completion: Answer)

  /** Everything outside this code that decides one refresh; the last two answer the calls of the failure path. */
  datatype Setting = Setting(policy: ScopePolicy, specOk: bool, begins: bool, timeOk: bool, describes: bool,
                             attempts: seq<Attempt>, completion: Answer, closesImport: Answer, closesRefresh: Answer)

  /** A stored run: its terminal outcome, if any, and every terminal outcome it was ever sent. */
  datatype RunRow = RunRow(stored: Option<RunOutcome>, sent: seq<RunOutcome>)

  datatype RunRecords = RunRecords(refreshes: seq<RunRow>, imports: seq<RunRow>)

  datatype TargetOutcome = TargetOutcome(target: RefreshTarget, effectiveScope: CollectionScope, outcome: RunOutcome)

  datatype ExecutionResult = ExecutionResult(outcome: RunOutcome, usageChanged: bool, upload: CommittedDailyUpload,
      targetOutcomes: seq<TargetOutcome>)

  datatype ExecutionFailure =
    ExecutionFailure(importRun: Option<nat>, usageChanged: bool, upload: CommittedDailyUpload,
        targetOutcomes: seq<TargetOutcome>)

  const NOTHING_COMMITTED := CommittedDailyUpload([], false)
  const PLAIN_FAILURE := ExecutionFailure(None, false, NOTHING_COMMITTED, [])

  function FromCollection(outcome: CollectionOutcome): RunOutcome
  {
    if outcome == PartialCollection then Partial else Succeeded
  }

  /** The row after a completion call. */
  function Sent(row: RunRow, outcome: RunOutcome, answer: Answer): RunRow
  {
    RunRow(if answer.Refused? then row.stored else Some(outcome), row.sent + [outcome])
  }

  function CommittedTargetOf(source: string, scope: CollectionScope): CommittedDailyTarget
  {
    match scope
    case FullScope => CommittedDailyTarget(source, 0, 47481, true)
    case Range(first, last) => CommittedDailyTarget(source, first, last, false)
  }

  // ---- the specification: a fold over the targets -----------------------------------------

  datatype Tally = Tally(succeeded: nat, partial: nat, failed: nat)

  function Recorded(t: Tally, outcome: RunOutcome): Tally
  {
    match outcome
    case Succeeded => t.(succeeded := t.succeeded + 1)
    case Partial => t.(partial := t.partial + 1)
    case Failed => t.(failed := t.failed + 1)
  }

  function Aggregate(t: Tally): RunOutcome
  {
    if t.failed == 0 && t.partial == 0 then Succeeded
    else if t.succeeded == 0 && t.partial == 0 then Failed
    else Partial
  }

  datatype Progress = Progress(records: RunRecords, tally: Tally, usageChanged: bool, upload: CommittedDailyUpload,
      outcomes: seq<TargetOutcome>)

  datatype Stage = Going(progress: Progress) | Aborted(records: RunRecords, failure: ExecutionFailure)

  function Persisted(r: RunRecords, a: Attempt, c: Collection): (RunRecords, Result<RunOutcome, ExecutionFailure>)
  {
    if !a.metadataOk || !a.begins then (r, Failure(PLAIN_FAILURE))
    else
      var id := |r.imports|;
      if !a.reconciles then (r.(imports := r.imports + [RunRow(None, [])]),
          Failure(PLAIN_FAILURE.(importRun := Some(id))))
      else
        var outcome := FromCollection(c.outcome);
        var closed := r.(imports := r.imports + [Sent(RunRow(None, []), outcome, a.completion)]);
        if a.completion.Acknowledged? then (closed, Success(outcome))
        else (closed, Failure(PLAIN_FAILURE.(importRun := Some(id), usageChanged := true)))
  }

  function Attempted(p: Progress, a: Attempt): Stage
  {
    if !a.hasProfile || !a.resolves || a.planned.None? then Aborted(p.records, PLAIN_FAILURE)
    else
      match a.collected
      case None =>
        Going(p.(tally := Recorded(p.tally, Failed), upload := p.upload.(fullRefreshComplete := false),
                 outcomes := p.outcomes + [TargetOutcome(a.target, a.planned.value, Failed)]))
      case Some(c) =>
        var (records, persisted) := Persisted(p.records, a, c);
        match persisted
        case Failure(failure) =>
          Aborted(records, failure.(targetOutcomes := p.outcomes + [TargetOutcome(a.target, c.effectiveScope, Failed)]))
        case Success(outcome) =>
          Going(Progress(records, Recorded(p.tally, outcome), true,
                         CommittedDailyUpload(if c.projection.Daily?
                             then p.upload.targets + [CommittedTargetOf(a.target.source, c.effectiveScope)]
                                              else p.upload.targets,
                                              p.upload.fullRefreshComplete && outcome.Succeeded?),
                         p.outcomes + [TargetOutcome(a.target, c.effectiveScope, outcome)]))
  }

  function StartOf(s: Setting, r: RunRecords): Progress
  {
    Progress(r, Tally(0, 0, 0), false, CommittedDailyUpload([], s.policy.FullPolicy?), [])
  }

  function After(s: Setting, r: RunRecords, n: nat): Stage
    requires n <= |s.attempts|
  {
    if n == 0 then Going(StartOf(s, r))
    else
      match After(s, r, n - 1)
      case Going(p) => Attempted(p, s.attempts[n - 1])
      case Aborted(_, _) => After(s, r, n - 1)
  }

  /** The open part of the refresh: the records it leaves and either its result or why it broke off. */
  function Opened(s: Setting, r: RunRecords, id: nat): (RunRecords, Result<ExecutionResult, ExecutionFailure>)
    requires id < |r.refreshes|
  {
    if !s.timeOk || !s.describes then (r, Failure(PLAIN_FAILURE))
    else
      match After(s, r, |s.attempts|)
      case Aborted(records, failure) => (records, Failure(failure))
      case Going(p) =>
        AttemptsKeepRefreshes(s, r, |s.attempts|);
        var outcome := Aggregate(p.tally);
        var closed :=
          p.records.(refreshes := p.records.refreshes[id := Sent(p.records.refreshes[id], outcome, s.completion)]);
        if s.completion.Acknowledged?
            then (closed, Success(ExecutionResult(outcome, p.usageChanged, p.upload, p.outcomes)))
        else (closed, Failure(ExecutionFailure(None, p.usageChanged, p.upload, p.outcomes)))
  }

  /** The failure path: the import run that was left open is failed first, then the refresh run. */
  function Closed(s: Setting, r: RunRecords, id: nat, failure: ExecutionFailure): RunRecords
    requires id < |r.refreshes| && (failure.importRun.Some? ==> failure.importRun.value < |r.imports|)
  {
    RunRecords(r.refreshes[id := Sent(r.refreshes[id], Failed, s.closesRefresh)],
               if failure.importRun.None? then r.imports
               else r.imports[failure.importRun.value :=
                   Sent(r.imports[failure.importRun.value], Failed, s.closesImport)])
  }

  function Execute(s: Setting, r: RunRecords): (RunRecords, ExecutionResult)
  {
    if !s.specOk || !s.begins then (r, ExecutionResult(Failed, false, NOTHING_COMMITTED, []))
    else
      var id := |r.refreshes|;
      var (records, ending) := Opened(s, r.(refreshes := r.refreshes + [RunRow(None, [])]), id);
      OpenedKeepsRuns(s, r.(refreshes := r.refreshes + [RunRow(None, [])]), id);
      match ending
      case Success(result) => (records, result)
      case Failure(failure) =>
        (Closed(s, records, id, failure),
            ExecutionResult(Failed, failure.usageChanged, failure.upload, failure.targetOutcomes))
  }

  function RecordsOf(stage: Stage): RunRecords { if stage.Going? then stage.progress.records else stage.records }

  lemma {:induction false} AttemptsKeepRefreshes(s: Setting, r: RunRecords, n: nat)
    requires n <= |s.attempts|
    ensures RecordsOf(After(s, r, n)).refreshes == r.refreshes
    ensures r.imports <= RecordsOf(After(s, r, n)).imports
    ensures var stage := After(s, r, n);
            stage.Aborted? && stage.failure.importRun.Some? ==> stage.failure.importRun.value < |stage.records.imports|
  {
    if n > 0 {
      AttemptsKeepRefreshes(s, r, n - 1);
    }
  }

  lemma OpenedKeepsRuns(s: Setting, r: RunRecords, id: nat)
    requires id < |r.refreshes|
    ensures var (records, ending) := Opened(s, r, id);
            && |records.refreshes| == |r.refreshes|
            && (ending.Failure? && ending.error.importRun.Some? ==> ending.error.importRun.value < |records.imports|)
  {
    AttemptsKeepRefreshes(s, r, |s.attempts|);
  }

  // ---- what one target amounts to, read off its answers -----------------------------------

  predicate Stored(a: Attempt)
  {
    a.collected.Some? && a.metadataOk && a.begins && a.reconciles && a.completion.Acknowledged?
  }

  /** The target does not break the refresh off. */
  predicate Passes(a: Attempt)
  {
    a.hasProfile && a.resolves && a.planned.Some? && (a.collected.Some? ==> Stored(a))
  }

  predicate AllPass(s: Setting) { forall i :: 0 <= i < |s.attempts| ==> Passes(s.attempts[i]) }

  function OutcomeOf(a: Attempt): RunOutcome
  {
    if a.collected.None? then Failed else FromCollection(a.collected.value.outcome)
  }

  function ReportOf(a: Attempt): TargetOutcome
    requires Passes(a)
  {
    TargetOutcome(a.target, if a.collected.None? then a.planned.value
        else a.collected.value.effectiveScope, OutcomeOf(a))
  }

  predicate IsDaily(a: Attempt) { a.collected.Some? && a.collected.value.projection.Daily? }

  /** How many of the first `n` targets opened an import run, when all of them pass. */
  function ImportsBegun(attempts: seq<Attempt>, n: nat): nat
    requires n <= |attempts|
  {
    if n == 0 then 0 else ImportsBegun(attempts, n - 1) + if attempts[n - 1].collected.Some? then 1 else 0
  }

  lemma {:induction false} GoingExactlyWhen(s: Setting, r: RunRecords, n: nat)
    requires n <= |s.attempts|
    ensures After(s, r, n).Going? <==> forall i :: 0 <= i < n ==> Passes(s.attempts[i])
  {
    if n > 0 {
      GoingExactlyWhen(s, r, n - 1);
    }
  }

  predicate Settled(row: RunRow, outcome: RunOutcome) { row == RunRow(Some(outcome), [outcome]) }

  predicate EndedOnce(row: RunRow) { |row.sent| == 1 && row.stored == Some(row.sent[0]) }

  /** While the refresh is going there is one report per target, in order. */
  lemma {:induction false} ReportsSoFar(s: Setting, r: RunRecords, n: nat)
    requires n <= |s.attempts| && forall i :: 0 <= i < n ==> Passes(s.attempts[i])
    ensures After(s, r, n).Going?
    ensures After(s, r, n).progress.outcomes == seq(n, i requires 0 <= i < n => ReportOf(s.attempts[i]))
  {
    if n > 0 {
      ReportsSoFar(s, r, n - 1);
      assert Passes(s.attempts[n - 1]);
    }
  }

  /** What one passing target adds to the import runs. */
  function RowsOf(a: Attempt): seq<RunRow>
  {
    if a.collected.Some? then [RunRow(Some(OutcomeOf(a)), [OutcomeOf(a)])] else []
  }

  lemma PassingRows(p: Progress, a: Attempt)
    requires Passes(a)
    ensures Attempted(p, a).Going? && Attempted(p, a).progress.records.imports == p.records.imports + RowsOf(a)
  {
    assert p.records.imports + [] == p.records.imports;
    assert Sent(RunRow(None, []), OutcomeOf(a), Acknowledged) == RunRow(Some(OutcomeOf(a)), [OutcomeOf(a)]);
  }

  /** While the refresh is going there is one settled import run per stored target. */
  lemma {:induction false} GoingSoFar(s: Setting, r: RunRecords, n: nat)
    requires n <= |s.attempts| && forall i :: 0 <= i < n ==> Passes(s.attempts[i])
    ensures After(s, r, n).Going?
    ensures var rows := After(s, r, n).progress.records.imports;
            && r.imports <= rows && |rows| == |r.imports| + ImportsBegun(s.attempts, n)
            && (forall k :: 0 <= k < n && s.attempts[k].collected.Some? ==>
                  && ImportsBegun(s.attempts, k) < ImportsBegun(s.attempts, n)
                  && Settled(rows[|r.imports| + ImportsBegun(s.attempts, k)], OutcomeOf(s.attempts[k])))
            && (forall j :: |r.imports| <= j < |rows| ==> EndedOnce(rows[j]))
  {
    if n > 0 {
      GoingSoFar(s, r, n - 1);
      PassingRows(After(s, r, n - 1).progress, s.attempts[n - 1]);
    }
  }

  // ---- terminalisation --------------------------------------------------------------------

  predicate LastSent(row: RunRow, outcome: RunOutcome)
  {
    row.sent != [] && row.sent[|row.sent| - 1] == outcome
  }

  lemma {:induction false} BreakPoint(s: Setting, r: RunRecords, n: nat) returns (m: nat)
    requires n <= |s.attempts| && After(s, r, n).Aborted?
    ensures m < n && After(s, r, m).Going? && After(s, r, m + 1) == After(s, r, n)
  {
    if After(s, r, n - 1).Aborted? {
      m := BreakPoint(s, r, n - 1);
    } else {
      m := n - 1;
    }
  }

  /** What a target that breaks the refresh off leaves behind. */
  lemma AbortShape(p: Progress, a: Attempt)
    requires Attempted(p, a).Aborted?
    ensures var stage := Attempted(p, a); var rows, before := stage.records.imports, p.records.imports;
            && stage.failure.upload == NOTHING_COMMITTED
            && (rows == before <==> stage.failure.importRun.None?)
            && (stage.failure.importRun.Some? ==>
                  && stage.failure.importRun.value == |before|
                  && rows[..|rows| - 1] == before && |rows| == |before| + 1 && |rows[|before|].sent| <= 1
                  && (a.completion.Acknowledged? ==> rows[|before|] == RunRow(None, [])))
            && (stage.failure.targetOutcomes != [] ==>
                  && a.collected.Some?
                  && stage.failure.targetOutcomes
                       == p.outcomes + [TargetOutcome(a.target, a.collected.value.effectiveScope, Failed)])
            && (OpensImport(a) && stage.failure.targetOutcomes != [] ==> stage.failure.importRun.Some?)
  {
  }

  /** An aborted loop leaves at most one import run that still owes the failure path a completion: the last one. */
  lemma AbortedSoFar(s: Setting, r: RunRecords, n: nat)
    requires n <= |s.attempts| && After(s, r, n).Aborted?
    ensures var stage := After(s, r, n); var rows := stage.records.imports;
            && r.imports <= rows
            && (forall j :: |r.imports| <= j < |rows| && stage.failure.importRun != Some(j) ==> EndedOnce(rows[j]))
            && (stage.failure.importRun.Some? ==>
                && stage.failure.importRun.value == |rows| - 1 >= |r.imports|
                && |rows[|rows| - 1].sent| <= 1)
            && stage.failure.upload == NOTHING_COMMITTED
  {
    var m := BreakPoint(s, r, n);
    GoingExactlyWhen(s, r, m);
    GoingSoFar(s, r, m);
    AbortShape(After(s, r, m).progress, s.attempts[m]);
  }

  /**
   * For every pattern of failures: earlier runs are untouched, every import run the refresh opened was sent one
   * or two terminal outcomes, and so was its refresh run, the last of them being the outcome the caller gets.
   */
  lemma EveryRunIsTerminalised(s: Setting, r: RunRecords)
    ensures var (v, result) := Execute(s, r);
            && r.imports <= v.imports && r.refreshes <= v.refreshes
            && (forall j :: |r.imports| <= j < |v.imports| ==> 1 <= |v.imports[j].sent| <= 2)
            && (s.specOk && s.begins <==> |v.refreshes| == |r.refreshes| + 1)
            && (s.specOk && s.begins ==>
                 LastSent(v.refreshes[|r.refreshes|], result.outcome) && |v.refreshes[|r.refreshes|].sent| <= 2)
            && (!(s.specOk && s.begins) ==> v == r && result.outcome == Failed)
  {
    if s.specOk && s.begins {
      var open := r.(refreshes := r.refreshes + [RunRow(None, [])]);
      var n := |s.attempts|;
      AttemptsKeepRefreshes(s, open, n);
      GoingExactlyWhen(s, open, n);
      if After(s, open, n).Aborted? {
        AbortedSoFar(s, open, n);
      } else {
        GoingSoFar(s, open, n);
      }
    }
  }

  predicate OpensImport(a: Attempt) { a.collected.Some? && a.metadataOk && a.begins }

  /** The reports of a target that has passed, while the refresh is going. */
  lemma PassedReport(s: Setting, r: RunRecords, n: nat, k: nat)
    requires k < n <= |s.attempts| && After(s, r, n).Going? && s.attempts[k].collected.Some?
    ensures var p := After(s, r, n).progress; var row := |r.imports| + ImportsBegun(s.attempts, k);
            && |p.outcomes| == n && p.outcomes[k].target == s.attempts[k].target
            && row < |p.records.imports| && LastSent(p.records.imports[row], p.outcomes[k].outcome)
  {
    GoingExactlyWhen(s, r, n);
    ReportsSoFar(s, r, n);
    GoingSoFar(s, r, n);
    assert Passes(s.attempts[k]);
  }

  /** The reports of a refresh that broke off, if it kept any: all targets before the break, then the failed one. */
  lemma BrokenReport(s: Setting, r: RunRecords, n: nat, k: nat)
    requires n <= |s.attempts| && k < |s.attempts| && After(s, r, n).Aborted? && OpensImport(s.attempts[k])
    ensures var stage := After(s, r, n); var row := |r.imports| + ImportsBegun(s.attempts, k);
            && |stage.failure.targetOutcomes| <= n
            && (k < |stage.failure.targetOutcomes| ==>
                  && stage.failure.targetOutcomes[k].target == s.attempts[k].target
                  && row < |stage.records.imports|
                  && (if stage.failure.importRun == Some(row) then stage.failure.targetOutcomes[k].outcome.Failed?
                      else LastSent(stage.records.imports[row], stage.failure.targetOutcomes[k].outcome)))
  {
    hide Attempted;
    var m := BreakPoint(s, r, n);
    GoingExactlyWhen(s, r, m);
    ReportsSoFar(s, r, m);
    GoingSoFar(s, r, m);
    AbortShape(After(s, r, m).progress, s.attempts[m]);
    if k < m {
      PassedReport(s, r, m, k);
    }
  }

  /** Whatever fails, a target's import run is last told the very outcome the caller reads for that target. */
  lemma ReportsMatchRuns(s: Setting, r: RunRecords, k: nat)
    requires s.specOk && s.begins && k < |s.attempts| && OpensImport(s.attempts[k])
    ensures var (v, result) := Execute(s, r); var row := |r.imports| + ImportsBegun(s.attempts, k);
            && |result.targetOutcomes| <= |s.attempts|
            && (k < |result.targetOutcomes| ==>
                  && result.targetOutcomes[k].target == s.attempts[k].target
                  && row < |v.imports| && LastSent(v.imports[row], result.targetOutcomes[k].outcome))
  {
    hide Attempted, After, ImportsBegun;
    var open := r.(refreshes := r.refreshes + [RunRow(None, [])]);
    var n := |s.attempts|;
    AttemptsKeepRefreshes(s, open, n);
    if After(s, open, n).Going? {
      PassedReport(s, open, n, k);
    } else {
      BrokenReport(s, open, n, k);
    }
  }

  /** With every completion acknowledged, each run becomes terminal exactly once, with the outcome reported for it. */
  lemma AcknowledgedRunsEndOnce(s: Setting, r: RunRecords)
    requires s.specOk && s.begins && s.closesImport.Acknowledged? && s.closesRefresh.Acknowledged?
    requires s.completion.Acknowledged?
    requires forall i :: 0 <= i < |s.attempts| ==> s.attempts[i].completion.Acknowledged?
    ensures var (v, result) := Execute(s, r);
            && |v.refreshes| == |r.refreshes| + 1 && Settled(v.refreshes[|r.refreshes|], result.outcome)
            && forall j :: |r.imports| <= j < |v.imports| ==> EndedOnce(v.imports[j])
  {
    var open := r.(refreshes := r.refreshes + [RunRow(None, [])]);
    var n := |s.attempts|;
    AttemptsKeepRefreshes(s, open, n);
    AcknowledgedSoFar(s, open, n);
  }

  lemma {:induction false} AcknowledgedSoFar(s: Setting, r: RunRecords, n: nat)
    requires n <= |s.attempts| && forall i :: 0 <= i < n ==> s.attempts[i].completion.Acknowledged?
    ensures var stage := After(s, r, n); var rows := RecordsOf(stage).imports;
            forall j :: |r.imports| <= j < |rows| ==>
              if stage.Aborted? && stage.failure.importRun == Some(j) then rows[j] == RunRow(None, [])
                  else EndedOnce(rows[j])
  {
    if n > 0 {
      AcknowledgedSoFar(s, r, n - 1);
      AttemptsKeepRefreshes(s, r, n - 1);
    }
  }

  /**
   * The store keeps the outcome the caller got exactly when the last completion got through, or repeats one that did.
   */
  lemma StoredOutcomeIsReturnedExactlyWhen(s: Setting, r: RunRecords)
    requires s.specOk && s.begins
    ensures var (v, result) := Execute(s, r);
            var completes := s.timeOk && s.describes && AllPass(s);
            && |v.refreshes| == |r.refreshes| + 1
            && (v.refreshes[|r.refreshes|].stored == Some(result.outcome) <==>
              || (completes && s.completion.Acknowledged?)
              || !s.closesRefresh.Refused?
              || (completes && s.completion.Unheard? && s.attempts != [] && forall i :: 0 <= i < |s.attempts| ==>
                   OutcomeOf(s.attempts[i]).Failed?))
  {
    var open := r.(refreshes := r.refreshes + [RunRow(None, [])]);
    AttemptsKeepRefreshes(s, open, |s.attempts|);
    GoingExactlyWhen(s, open, |s.attempts|);
    if AllPass(s) {
      TallySoFar(s, open, |s.attempts|);
      AggregateMeaning(s.attempts);
    }
  }

  // ---- the result -------------------------------------------------------------------------

  /** The outcomes of the first `n` targets, counted. */
  function Tallied(attempts: seq<Attempt>, n: nat): Tally
    requires n <= |attempts|
  {
    if n == 0 then Tally(0, 0, 0) else Recorded(Tallied(attempts, n - 1), OutcomeOf(attempts[n - 1]))
  }

  predicate NoneIs(attempts: seq<Attempt>, n: nat, outcome: RunOutcome)
    requires n <= |attempts|
  {
    forall i :: 0 <= i < n ==> OutcomeOf(attempts[i]) != outcome
  }

  lemma {:induction false} TallyMeaning(attempts: seq<Attempt>, n: nat)
    requires n <= |attempts|
    ensures var t := Tallied(attempts, n);
            && t.succeeded + t.partial + t.failed == n
            && (t.failed == 0 <==> NoneIs(attempts, n, Failed))
            && (t.partial == 0 <==> NoneIs(attempts, n, Partial))
            && (t.succeeded == 0 <==> NoneIs(attempts, n, Succeeded))
  {
    if n > 0 {
      TallyMeaning(attempts, n - 1);
    }
  }

  lemma {:induction false} TallySoFar(s: Setting, r: RunRecords, n: nat)
    requires n <= |s.attempts| && forall i :: 0 <= i < n ==> Passes(s.attempts[i])
    ensures After(s, r, n).Going? && After(s, r, n).progress.tally == Tallied(s.attempts, n)
  {
    if n > 0 {
      TallySoFar(s, r, n - 1);
      assert Passes(s.attempts[n - 1]);
    }
  }

  lemma AggregateMeaning(attempts: seq<Attempt>)
    ensures var outcome := Aggregate(Tallied(attempts, |attempts|));
            && (outcome.Succeeded? <==> forall i :: 0 <= i < |attempts| ==> OutcomeOf(attempts[i]).Succeeded?)
            && (outcome.Failed? <==> attempts != [] && forall i :: 0 <= i < |attempts| ==>
                 OutcomeOf(attempts[i]).Failed?)
  {
    TallyMeaning(attempts, |attempts|);
    if attempts != [] && forall i :: 0 <= i < |attempts| ==> OutcomeOf(attempts[i]).Failed? {
      assert OutcomeOf(attempts[0]).Failed?;
    }
  }

  predicate GoesThrough(s: Setting)
  {
    s.specOk && s.begins && s.timeOk && s.describes && AllPass(s)
  }

  predicate ReturnsNormally(s: Setting) { GoesThrough(s) && s.completion.Acknowledged? }

  /** What the caller reads about a target that did not break the refresh off. */
  predicate Reports(report: TargetOutcome, a: Attempt)
  {
    && report.target == a.target
    && match a.collected
       case None => report.outcome == Failed && Some(report.effectiveScope) == a.planned
       case Some(c) =>
         report.effectiveScope == c.effectiveScope && report.outcome == if c.outcome.PartialCollection? then Partial
                                                                        else Succeeded
  }

  /**
   * On normal return there is one report per target in order: failed if nothing was collected, partial if part of
   * it was, succeeded otherwise; and the aggregate says what the reports say.
   */
  lemma NormalReturn(s: Setting, r: RunRecords)
    requires ReturnsNormally(s)
    ensures var result := Execute(s, r).1; var n := |s.attempts|;
            && |result.targetOutcomes| == n
            && (forall i :: 0 <= i < n ==> Reports(result.targetOutcomes[i], s.attempts[i]))
            && (result.outcome.Succeeded? <==> forall i :: 0 <= i < n ==> result.targetOutcomes[i].outcome.Succeeded?)
            && (result.outcome.Failed? <==>
                  n > 0 && forall i :: 0 <= i < n ==> result.targetOutcomes[i].outcome.Failed?)
  {
    var open := r.(refreshes := r.refreshes + [RunRow(None, [])]);
    var n := |s.attempts|;
    AttemptsKeepRefreshes(s, open, n);
    ReportsSoFar(s, open, n);
    TallySoFar(s, open, n);
    AggregateMeaning(s.attempts);
    var outcomes := Execute(s, r).1.targetOutcomes;
    forall i | 0 <= i < n
      ensures outcomes[i].outcome == OutcomeOf(s.attempts[i]) && Reports(outcomes[i], s.attempts[i])
    {
      assert Passes(s.attempts[i]);
    }
  }

  /** The target breaks the refresh off after its usage reached the store. */
  predicate BreaksOffStored(a: Attempt)
  {
    && a.hasProfile && a.resolves && a.planned.Some? && a.collected.Some? && a.metadataOk && a.begins && a.reconciles
    && !a.completion.Acknowledged?
  }

  /**
   * The caller hears that usage changed exactly when the targets all passed and something was collected, or when
   * the target that broke the refresh off had stored its usage; what earlier targets stored is then not told.
   */
  lemma UsageChangedExactlyWhen(s: Setting, r: RunRecords)
    ensures Execute(s, r).1.usageChanged <==>
            && s.specOk && s.begins && s.timeOk && s.describes
            && if AllPass(s) then exists i :: 0 <= i < |s.attempts| && s.attempts[i].collected.Some?
               else exists m :: 0 <= m < |s.attempts| && BreaksOffStored(s.attempts[m])
                                && forall k :: 0 <= k < m ==> Passes(s.attempts[k])
  {
    var open, n := r.(refreshes := r.refreshes + [RunRow(None, [])]), |s.attempts|;
    AttemptsKeepRefreshes(s, open, n);
    GoingExactlyWhen(s, open, n);
    if AllPass(s) {
      UploadSoFar(s, open, n);
    } else {
      var m := BreakPoint(s, open, n);
      GoingExactlyWhen(s, open, m);
      GoingExactlyWhen(s, open, m + 1);
      assert !Passes(s.attempts[m]);
      assert After(s, open, n).failure.usageChanged <==> BreaksOffStored(s.attempts[m]);
    }
  }

  /** The daily targets stored so far, in order. */
  function DailyTargets(attempts: seq<Attempt>, n: nat): seq<CommittedDailyTarget>
    requires n <= |attempts|
  {
    if n == 0 then []
    else
      var a := attempts[n - 1];
      DailyTargets(attempts, n - 1)
        + if IsDaily(a) then [CommittedTargetOf(a.target.source, a.collected.value.effectiveScope)] else []
  }

  lemma {:induction false} UploadSoFar(s: Setting, r: RunRecords, n: nat)
    requires n <= |s.attempts| && forall i :: 0 <= i < n ==> Passes(s.attempts[i])
    ensures After(s, r, n).Going?
    ensures var p := After(s, r, n).progress;
            && p.upload.targets == DailyTargets(s.attempts, n)
            && (p.upload.fullRefreshComplete <==>
                  s.policy.FullPolicy? && forall i :: 0 <= i < n ==> OutcomeOf(s.attempts[i]).Succeeded?)
            && (p.usageChanged <==> exists i :: 0 <= i < n && s.attempts[i].collected.Some?)
  {
    if n > 0 {
      UploadSoFar(s, r, n - 1);
      assert Passes(s.attempts[n - 1]);
    }
  }

  /** `target` is what the stored daily target number `i` committed. */
  predicate CommittedBy(attempts: seq<Attempt>, i: nat, target: CommittedDailyTarget)
  {
    i < |attempts| && IsDaily(attempts[i])
        && target == CommittedTargetOf(attempts[i].target.source, attempts[i].collected.value.effectiveScope)
  }

  lemma {:induction false} TargetOfDaily(attempts: seq<Attempt>, n: nat, i: nat) returns (j: nat)
    requires i < n <= |attempts| && IsDaily(attempts[i])
    ensures j < |DailyTargets(attempts, n)| && CommittedBy(attempts, i, DailyTargets(attempts, n)[j])
  {
    if i < n - 1 {
      j := TargetOfDaily(attempts, n - 1, i);
    } else {
      j := |DailyTargets(attempts, n - 1)|;
    }
  }

  lemma {:induction false} DailyOfTarget(attempts: seq<Attempt>, n: nat, j: nat) returns (i: nat)
    requires n <= |attempts| && j < |DailyTargets(attempts, n)|
    ensures i < n && CommittedBy(attempts, i, DailyTargets(attempts, n)[j])
  {
    if j < |DailyTargets(attempts, n - 1)| {
      i := DailyOfTarget(attempts, n - 1, j);
    } else {
      i := n - 1;
    }
  }

  /** The days a collection scope commits; for full history those from 1970-01-01 to 2099-12-31. */
  predicate CommitsDay(scope: CollectionScope, day: int)
  {
    match scope
    case FullScope => 0 <= day <= 47481
    case Range(first, last) => first <= day <= last
  }

  predicate ReasonableTarget(a: Attempt)
  {
    Scopes.IsSourceKey(a.target.source)
    && (IsDaily(a) && a.collected.value.effectiveScope.Range? ==>
          a.collected.value.effectiveScope.startDate <= a.collected.value.effectiveScope.endDate)
  }

  ghost predicate HandsOverEveryDay(s: Setting, upload: CommittedDailyUpload)
  {
    forall i, day | 0 <= i < |s.attempts| && IsDaily(s.attempts[i])
                    && CommitsDay(s.attempts[i].collected.value.effectiveScope, day) ::
      HandsOver(upload, s.attempts[i].target.source, day)
  }

  predicate SomeDaily(s: Setting) { exists i :: 0 <= i < |s.attempts| && IsDaily(s.attempts[i]) }

  predicate DailySource(s: Setting, key: string)
  {
    exists i :: 0 <= i < |s.attempts| && IsDaily(s.attempts[i]) && s.attempts[i].target.source == key
  }

  predicate SomeDailyCommits(s: Setting, day: int)
  {
    exists i :: 0 <= i < |s.attempts| && IsDaily(s.attempts[i])
                && CommitsDay(s.attempts[i].collected.value.effectiveScope, day)
  }

  predicate EveryDailyInFull(s: Setting)
  {
    forall i :: 0 <= i < |s.attempts| && IsDaily(s.attempts[i]) ==>
        s.attempts[i].collected.value.effectiveScope.FullScope?
  }

  predicate AllSucceeded(s: Setting) { forall i :: 0 <= i < |s.attempts| ==> OutcomeOf(s.attempts[i]).Succeeded? }

  /**
   * What a refresh that goes through hands over: its daily targets, and whether the policy was full and all succeeded.
   */
  function UploadOf(s: Setting): CommittedDailyUpload
  {
    CommittedDailyUpload(DailyTargets(s.attempts, |s.attempts|), s.policy.FullPolicy? && AllSucceeded(s))
  }

  /**
   * The scope handed to the outbox names exactly the sources of the stored daily targets, covers all their days
   * exactly when no history before 1970 is cut, begins and ends on such days, and is the full one exactly when the
   * policy was full, every
   * target (sessions too) succeeded, and every stored daily target was collected in full. It is there exactly
   * when some daily target was stored.
   */
  lemma HandedOverScope(s: Setting, r: RunRecords)
    requires GoesThrough(s)
    requires forall i :: 0 <= i < |s.attempts| ==> ReasonableTarget(s.attempts[i])
    ensures var upload := Execute(s, r).1.upload; var scope := UploadScopeOf(upload);
            && (scope.Some? <==> SomeDaily(s))
            && upload == UploadOf(s)
            && (HandsOverEveryDay(s, upload) <==> KeepsEarlyHistory(UploadOf(s)))
            && (scope.Some? && scope.value.Incremental? ==>
                  && (forall key :: key in scope.value.sourceKeys <==> DailySource(s, key))
                  && SomeDailyCommits(s, scope.value.startDate) && SomeDailyCommits(s, scope.value.endDate))
            && (scope.Some? ==> (scope.value.Full? <==> s.policy.FullPolicy? && AllSucceeded(s) && EveryDailyInFull(s)))
  {
    var open := r.(refreshes := r.refreshes + [RunRow(None, [])]);
    var n := |s.attempts|;
    AttemptsKeepRefreshes(s, open, n);
    UploadSoFar(s, open, n);
    var upload := Execute(s, r).1.upload;
    var targets := upload.targets;
    assert targets == DailyTargets(s.attempts, n);
    if targets != [] {
      TargetsAreReasonable(s, targets);
      CommittedTargetsAreCovered(upload);
      UploadScopeExists(upload);
      DaysAreHandedOver(s, upload);
      SourcesAreExact(s, upload);
      FullMeansEveryDaily(s, targets);
      if UploadScopeOf(upload).value.Incremental? { BoundsAreStored(s, upload); }
      var i := DailyOfTarget(s.attempts, n, 0);
    } else if SomeDaily(s) {
      var i :| 0 <= i < n && IsDaily(s.attempts[i]);
      var j := TargetOfDaily(s.attempts, n, i);
    }
  }

  lemma TargetsAreReasonable(s: Setting, targets: seq<CommittedDailyTarget>)
    requires targets == DailyTargets(s.attempts, |s.attempts|)
    requires forall i :: 0 <= i < |s.attempts| ==> ReasonableTarget(s.attempts[i])
    ensures forall j :: 0 <= j < |targets| ==>
            WellFormed(targets[j]) && (targets[j].fullHistory ==> 0 <= targets[j].endDate)
  {
    forall j | 0 <= j < |targets|
      ensures WellFormed(targets[j]) && (targets[j].fullHistory ==> 0 <= targets[j].endDate)
    {
      var i := DailyOfTarget(s.attempts, |s.attempts|, j);
      assert ReasonableTarget(s.attempts[i]);
    }
  }

  lemma DaysAreHandedOver(s: Setting, upload: CommittedDailyUpload)
    requires upload.targets == DailyTargets(s.attempts, |s.attempts|)
    ensures HandsOverEveryDay(s, upload) <==> CoversEveryTarget(upload)
  {
    var targets := upload.targets;
    if CoversEveryTarget(upload) {
      forall i, day | 0 <= i < |s.attempts| && IsDaily(s.attempts[i])
                      && CommitsDay(s.attempts[i].collected.value.effectiveScope, day)
        ensures HandsOver(upload, s.attempts[i].target.source, day)
      {
        var j := TargetOfDaily(s.attempts, |s.attempts|, i);
      }
    }
    if HandsOverEveryDay(s, upload) {
      forall j, day | 0 <= j < |targets| && targets[j].startDate <= day <= targets[j].endDate
        ensures HandsOver(upload, targets[j].sourceKey, day)
      {
        var i := DailyOfTarget(s.attempts, |s.attempts|, j);
        assert CommitsDay(s.attempts[i].collected.value.effectiveScope, day);
      }
    }
  }

  lemma SourcesAreExact(s: Setting, upload: CommittedDailyUpload)
    requires upload.targets == DailyTargets(s.attempts, |s.attempts|) && UploadScopeOf(upload).Some?
    requires forall j :: 0 <= j < |upload.targets| ==> WellFormed(upload.targets[j])
    ensures var scope := UploadScopeOf(upload);
            && (scope.value.Full? <==> upload.fullRefreshComplete && AllFullHistory(upload.targets))
            && (scope.value.Incremental? ==> forall key :: key in scope.value.sourceKeys <==> DailySource(s, key))
  {
    var targets := upload.targets;
    forall key
      ensures UploadScopeOf(upload).value.Full? <==> upload.fullRefreshComplete && AllFullHistory(targets)
      ensures UploadScopeOf(upload).value.Incremental? ==>
              (key in UploadScopeOf(upload).value.sourceKeys <==> DailySource(s, key))
    {
      UploadScopeSources(upload, key);
      SourceOfDaily(s, key);
    }
  }

  lemma BoundsAreStored(s: Setting, upload: CommittedDailyUpload)
    requires upload.targets == DailyTargets(s.attempts, |s.attempts|)
    requires UploadScopeOf(upload).Some? && UploadScopeOf(upload).value.Incremental?
    requires forall i :: 0 <= i < |s.attempts| ==> ReasonableTarget(s.attempts[i])
    ensures var scope := UploadScopeOf(upload).value;
            SomeDailyCommits(s, scope.startDate) && SomeDailyCommits(s, scope.endDate)
  {
    var targets, scope := upload.targets, UploadScopeOf(upload).value;
    UploadScopeBounds(upload);
    var k :| 0 <= k < |targets| && targets[k].endDate == scope.endDate;
    var l :| 0 <= l < |targets| && BeginsAt(targets[l], scope.startDate);
    var i := DailyOfTarget(s.attempts, |s.attempts|, k);
    var j := DailyOfTarget(s.attempts, |s.attempts|, l);
    assert ReasonableTarget(s.attempts[i]) && ReasonableTarget(s.attempts[j]);
    assert CommitsDay(s.attempts[i].collected.value.effectiveScope, scope.endDate);
    assert CommitsDay(s.attempts[j].collected.value.effectiveScope, scope.startDate);
  }

  /**
   * A source collected in full has every day from 1970-01-01 to 2099-12-31 handed over, whatever the policy, the
   * order of the targets and the ranges of the others.
   */
  lemma FullCollectionIsHandedOver(s: Setting, r: RunRecords, i: nat, day: int)
    requires GoesThrough(s)
    requires forall k :: 0 <= k < |s.attempts| ==> ReasonableTarget(s.attempts[k])
    requires i < |s.attempts| && IsDaily(s.attempts[i]) && s.attempts[i].collected.value.effectiveScope.FullScope?
    requires 0 <= day <= 47481
    ensures HandsOver(Execute(s, r).1.upload, s.attempts[i].target.source, day)
  {
    HandedOverScope(s, r);
    var upload := Execute(s, r).1.upload;
    var targets := upload.targets;
    var j := TargetOfDaily(s.attempts, |s.attempts|, i);
    assert targets[j].fullHistory && targets[j].endDate == 47481;
    EndBoundIsMaximum(targets, |targets|);
    StartBoundAfterFullHistory(targets, |targets|, j);
    SourceOfDaily(s, s.attempts[i].target.source);
  }

  lemma SourceOfDaily(s: Setting, key: string)
    ensures NamesSource(DailyTargets(s.attempts, |s.attempts|), key) <==> DailySource(s, key)
  {
    var targets := DailyTargets(s.attempts, |s.attempts|);
    if NamesSource(targets, key) {
      var j :| 0 <= j < |targets| && targets[j].sourceKey == key;
      var i := DailyOfTarget(s.attempts, |s.attempts|, j);
      assert s.attempts[i].target.source == key;
    }
    if DailySource(s, key) {
      var i :| 0 <= i < |s.attempts| && IsDaily(s.attempts[i]) && s.attempts[i].target.source == key;
      var j := TargetOfDaily(s.attempts, |s.attempts|, i);
      assert targets[j].sourceKey == key;
    }
  }

  lemma FullMeansEveryDaily(s: Setting, targets: seq<CommittedDailyTarget>)
    requires targets == DailyTargets(s.attempts, |s.attempts|)
    ensures AllFullHistory(targets) <==> EveryDailyInFull(s)
  {
    if AllFullHistory(targets) {
      forall i | 0 <= i < |s.attempts| && IsDaily(s.attempts[i])
        ensures s.attempts[i].collected.value.effectiveScope.FullScope?
      {
        var j := TargetOfDaily(s.attempts, |s.attempts|, i);
      }
    }
    if EveryDailyInFull(s) {
      forall j | 0 <= j < |targets| ensures targets[j].fullHistory {
        var i := DailyOfTarget(s.attempts, |s.attempts|, j);
      }
    }
  }

  lemma BrokenOffHandsOverNothing(s: Setting, r: RunRecords)
    requires s.specOk && s.begins && !GoesThrough(s)
    ensures Execute(s, r).1.upload == NOTHING_COMMITTED && Execute(s, r).1.outcome == Failed
  {
    var open := r.(refreshes := r.refreshes + [RunRow(None, [])]);
    AttemptsKeepRefreshes(s, open, |s.attempts|);
    GoingExactlyWhen(s, open, |s.attempts|);
    if s.timeOk && s.describes {
      AbortedSoFar(s, open, |s.attempts|);
    }
  }

  /** Target `i` was reached, and its daily usage is in the store. */
  predicate StoredDaily(s: Setting, i: nat)
  {
    && s.specOk && s.begins && s.timeOk && s.describes
    && i < |s.attempts| && IsDaily(s.attempts[i]) && forall k :: 0 <= k <= i ==> Passes(s.attempts[k])
  }

  ghost predicate AnnouncesStoredUsage(s: Setting, upload: CommittedDailyUpload)
  {
    forall i: nat, day :: StoredDaily(s, i) && CommitsDay(s.attempts[i].collected.value.effectiveScope, day) ==>
      HandsOver(upload, s.attempts[i].target.source, day)
  }

  /**
   * Daily usage that was stored goes unannounced exactly when a later target broke the refresh off, or history
   * before 1970 was cut.
   */
  lemma StoredUsageIsAnnouncedExactlyWhen(s: Setting, r: RunRecords)
    requires forall i :: 0 <= i < |s.attempts| ==> ReasonableTarget(s.attempts[i])
    ensures var upload := Execute(s, r).1.upload;
            AnnouncesStoredUsage(s, upload) <==>
            (GoesThrough(s) && KeepsEarlyHistory(UploadOf(s))) || forall i: nat :: !StoredDaily(s, i)
  {
    var upload := Execute(s, r).1.upload;
    if GoesThrough(s) {
      HandedOverScope(s, r);
    } else if s.specOk && s.begins {
      BrokenOffHandsOverNothing(s, r);
      if i: nat :| StoredDaily(s, i) {
        var scope := s.attempts[i].collected.value.effectiveScope;
        assert ReasonableTarget(s.attempts[i]);
        var day := if scope.FullScope? then 0 else scope.startDate;
        assert CommitsDay(scope, day) && !HandsOver(upload, s.attempts[i].target.source, day);
      }
    }
  }

  // ---- the imperative refresh -------------------------------------------------------------

  class RunStore {
    var refreshes: seq<RunRow>
    var imports: seq<RunRow>

    ghost function View(): RunRecords reads this { RunRecords(refreshes, imports) }

    constructor ()
      ensures View() == RunRecords([], [])
    {
      refreshes, imports := [], [];
    }

    method BeginRefreshRun(answers: bool) returns (id: Option<nat>)
      modifies this
      ensures answers ==>
              id == Some(|old(refreshes)|) && View() == old(View()).(refreshes := old(refreshes) + [RunRow(None, [])])
      ensures !answers ==> id.None? && View() == old(View())
    {
      if !answers { return None; }
      id := Some(|refreshes|);
      refreshes := refreshes + [RunRow(None, [])];
    }

    method BeginImportRun(answers: bool) returns (id: Option<nat>)
      modifies this
      ensures answers ==>
              id == Some(|old(imports)|) && View() == old(View()).(imports := old(imports) + [RunRow(None, [])])
      ensures !answers ==> id.None? && View() == old(View())
    {
      if !answers { return None; }
      id := Some(|imports|);
      imports := imports + [RunRow(None, [])];
    }

    method CompleteRefreshRun(id: nat, outcome: RunOutcome, answer: Answer) returns (ok: bool)
      requires id < |refreshes|
      modifies this
      ensures ok <==> answer.Acknowledged?
      ensures View() == old(View()).(refreshes := old(refreshes)[id := Sent(old(refreshes)[id], outcome, answer)])
    {
      refreshes := refreshes[id := Sent(refreshes[id], outcome, answer)];
      return answer.Acknowledged?;
    }

    method CompleteImportRun(id: nat, outcome: RunOutcome, answer: Answer) returns (ok: bool)
      requires id < |imports|
      modifies this
      ensures ok <==> answer.Acknowledged?
      ensures View() == old(View()).(imports := old(imports)[id := Sent(old(imports)[id], outcome, answer)])
    {
      imports := imports[id := Sent(imports[id], outcome, answer)];
      return answer.Acknowledged?;
    }
  }

  class TargetRunAccumulator {
    var succeeded: nat
    var partial: nat
    var failed: nat

    ghost function View(): Tally reads this { Tally(succeeded, partial, failed) }

    constructor ()
      ensures View() == Tally(0, 0, 0)
    {
      succeeded, partial, failed := 0, 0, 0;
    }

    method Record(outcome: RunOutcome)
      modifies this
      ensures View() == Recorded(old(View()), outcome)
    {
      match outcome
      case Succeeded => succeeded := succeeded + 1;
      case Partial => partial := partial + 1;
      case Failed => failed := failed + 1;
    }

    method Outcome() returns (outcome: RunOutcome)
      ensures outcome == Aggregate(View())
    {
      if failed == 0 && partial == 0 {
        return Succeeded;
      }
      if succeeded == 0 && partial == 0 {
        return Failed;
      }
      return Partial;
    }
  }

  method Persist(store: RunStore, a: Attempt, c: Collection) returns (r: Result<RunOutcome, ExecutionFailure>)
    modifies store
    ensures (store.View(), r) == Persisted(old(store.View()), a, c)
  {
    if !a.metadataOk {
      return Failure(PLAIN_FAILURE);
    }
    var id := store.BeginImportRun(a.begins);
    if id.None? {
      return Failure(PLAIN_FAILURE);
    }
    if !a.reconciles {
      return Failure(ExecutionFailure(id, false, NOTHING_COMMITTED, []));
    }
    var outcome := FromCollection(c.outcome);
    var ok := store.CompleteImportRun(id.value, outcome, a.completion);
    assert store.imports == old(store.imports) + [Sent(RunRow(None, []), outcome, a.completion)];
    if !ok {
      return Failure(ExecutionFailure(id, true, NOTHING_COMMITTED, []));
    }
    return Success(outcome);
  }

  method ExecuteOpenRefresh(store: RunStore, s: Setting, id: nat) returns (r: Result<ExecutionResult, ExecutionFailure>)
    requires id < |store.refreshes|
    modifies store
    ensures (store.View(), r) == Opened(s, old(store.View()), id)
  {
    if !s.timeOk {
      return Failure(PLAIN_FAILURE);
    }
    var aggregate := new TargetRunAccumulator();
    var usageChanged := false;
    var targetOutcomes: seq<TargetOutcome> := [];
    var upload := CommittedDailyUpload([], s.policy.FullPolicy?);
    if !s.describes {
      return Failure(PLAIN_FAILURE);
    }
    for i := 0 to |s.attempts|
      invariant fresh(aggregate)
      invariant After(s, old(store.View()), i)
          == Going(Progress(store.View(), aggregate.View(), usageChanged, upload, targetOutcomes))
    {
      var a := s.attempts[i];
      AbortIsFinal(s, old(store.View()), i + 1, |s.attempts|);
      if !a.hasProfile || !a.resolves || a.planned.None? {
        return Failure(PLAIN_FAILURE);
      }
      if a.collected.None? {
        targetOutcomes := targetOutcomes + [TargetOutcome(a.target, a.planned.value, Failed)];
        upload := upload.(fullRefreshComplete := false);
        aggregate.Record(Failed);
        continue;
      }
      var collection := a.collected.value;
      var persisted := Persist(store, a, collection);
      if persisted.Failure? {
        return Failure(persisted.error.(targetOutcomes :=
            targetOutcomes + [TargetOutcome(a.target, collection.effectiveScope, Failed)]));
      }
      var outcome := persisted.value;
      targetOutcomes := targetOutcomes + [TargetOutcome(a.target, collection.effectiveScope, outcome)];
      aggregate.Record(outcome);
      if !outcome.Succeeded? {
        upload := upload.(fullRefreshComplete := false);
      }
      usageChanged := true;
      if (outcome.Succeeded? || outcome.Partial?) && collection.projection.Daily? {
        upload := upload.(targets := upload.targets + [CommittedTargetOf(a.target.source, collection.effectiveScope)]);
      }
    }
    AttemptsKeepRefreshes(s, old(store.View()), |s.attempts|);
    var outcome := aggregate.Outcome();
    var ok := store.CompleteRefreshRun(id, outcome, s.completion);
    if !ok {
      return Failure(ExecutionFailure(None, usageChanged, upload, targetOutcomes));
    }
    return Success(ExecutionResult(outcome, usageChanged, upload, targetOutcomes));
  }

  lemma {:induction false} AbortIsFinal(s: Setting, r: RunRecords, m: nat, n: nat)
    requires m <= n <= |s.attempts|
    ensures After(s, r, m).Aborted? ==> After(s, r, n) == After(s, r, m)
  {
    if m < n {
      AbortIsFinal(s, r, m, n - 1);
    }
  }

  /** `execute_refresh`. */
  method ExecuteRefresh(store: RunStore, s: Setting) returns (result: ExecutionResult)
    modifies store
    ensures (store.View(), result) == Execute(s, old(store.View()))
  {
    if !s.specOk {
      return ExecutionResult(Failed, false, NOTHING_COMMITTED, []);
    }
    var id := store.BeginRefreshRun(s.begins);
    if id.None? {
      return ExecutionResult(Failed, false, NOTHING_COMMITTED, []);
    }
    ghost var open := store.View();
    var ending := ExecuteOpenRefresh(store, s, id.value);
    OpenedKeepsRuns(s, open, id.value);
    match ending
    case Success(done) => return done;
    case Failure(failure) =>
      if failure.importRun.Some? {
        var _ := store.CompleteImportRun(failure.importRun.value, Failed, s.closesImport);
      }
      var _ := store.CompleteRefreshRun(id.value, Failed, s.closesRefresh);
      return ExecutionResult(Failed, failure.usageChanged, failure.upload, failure.targetOutcomes);
  }
}
