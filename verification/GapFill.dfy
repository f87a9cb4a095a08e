/** Filling zero costs from the pricing snapshot. Rates and prices are exact rationals here, `f64` in the program. */
module GapFill {
  import opened Basics

  /** A `u64` amount of millionths of a dollar. */
  type Micros = n: int | 0 <= n <= U64_MAX

  datatype TokenUsage = TokenUsage(input: Option<nat>, output: Option<nat>, cacheCreation: Option<nat>,
      cacheRead: Option<nat>, total: nat)

  datatype PricingEntry = PricingEntry(input: real, output: real, cacheRead: Option<real>, cacheWrite: Option<real>)

  type Snapshot = map<string, PricingEntry>

  datatype CostKind = SourceReported | CollectorCalculated | CollectorMixed | BurnlyCalculated | Unknown

  datatype CostStatus = Available | Estimated

  datatype UsageCost =
    | Valued(micros: Micros, currency: string, kind: CostKind, status: CostStatus)
    | NotApplicable(kind: CostKind)
    | Unavailable(kind: CostKind)

  datatype ModelUsage = ModelUsage(rawModelId: string, tokens: TokenUsage, cost: UsageCost)

  /** What gap filling reads and writes of a daily or a session candidate. */
  datatype Candidate = Candidate(tokens: TokenUsage, cost: UsageCost, breakdowns: seq<ModelUsage>)

  function Or<T>(value: Option<T>, otherwise: T): T { if value.Some? then value.value else otherwise }

  // ---- snapshot lookup --------------------------------------------------------------------

  function Normalized(model: string): string
  {
    seq(|model|, i requires 0 <= i < |model| => if model[i] in {'.', '@', '/'} then '-' else model[i])
  }

  /** The entry of the longest known prefix of `model` with at most `n` characters. */
  function LongestPrefix(snapshot: Snapshot, model: string, n: nat): Option<PricingEntry>
    requires n <= |model|
  {
    if model[..n] in snapshot then Some(snapshot[model[..n]])
    else if n == 0 then None
    else LongestPrefix(snapshot, model, n - 1)
  }

  function Find(snapshot: Snapshot, model: string): Option<PricingEntry>
  {
    if model in snapshot then Some(snapshot[model])
    else if Normalized(model) in snapshot then Some(snapshot[Normalized(model)])
    else if model == "" then None
    else LongestPrefix(snapshot, model, |model| - 1)
  }

  predicate ProperPrefix(candidate: string, model: string)
  {
    |candidate| < |model| && model[..|candidate|] == candidate
  }

  lemma {:induction false} LongestPrefixIsMaximal(snapshot: Snapshot, model: string, n: nat, best: string)
    requires |best| <= n <= |model| && best == model[..|best|] && best in snapshot
    requires forall other :: other in snapshot && |other| <= n && other == model[..|other|] ==> |other| <= |best|
    ensures LongestPrefix(snapshot, model, n) == Some(snapshot[best])
  {
    if |best| < n {
      LongestPrefixIsMaximal(snapshot, model, n - 1, best);
    }
  }

  lemma {:induction false} NoPrefixNoEntry(snapshot: Snapshot, model: string, n: nat)
    requires n <= |model| && forall other :: other in snapshot && |other| <= n ==> other != model[..|other|]
    ensures LongestPrefix(snapshot, model, n).None?
  {
    if n > 0 {
      NoPrefixNoEntry(snapshot, model, n - 1);
    }
  }

  /** The prefix fallback picks the longest known proper prefix, whatever order the table is walked in. */
  lemma FindFallsBackToLongestPrefix(snapshot: Snapshot, model: string)
    requires model !in snapshot && Normalized(model) !in snapshot
    ensures forall best :: best in snapshot && ProperPrefix(best, model)
              && (forall other :: other in snapshot && ProperPrefix(other, model) ==> |other| <= |best|)
              ==> Find(snapshot, model) == Some(snapshot[best])
    ensures (forall other :: other in snapshot ==> !ProperPrefix(other, model)) <==> Find(snapshot, model).None?
  {
    forall best | best in snapshot && ProperPrefix(best, model)
                  && forall other :: other in snapshot && ProperPrefix(other, model) ==> |other| <= |best|
      ensures Find(snapshot, model) == Some(snapshot[best])
    {
      forall other | other in snapshot && |other| <= |model| - 1 && other == model[..|other|]
        ensures |other| <= |best|
      {
        assert ProperPrefix(other, model);
      }
      LongestPrefixIsMaximal(snapshot, model, |model| - 1, best);
    }
    if forall other :: other in snapshot ==> !ProperPrefix(other, model) {
      if model != "" {
        forall other | other in snapshot && |other| <= |model| - 1 ensures other != model[..|other|] {
          assert !ProperPrefix(other, model);
        }
        NoPrefixNoEntry(snapshot, model, |model| - 1);
      }
    } else {
      var other :| other in snapshot && ProperPrefix(other, model);
      SomePrefixSomeEntry(snapshot, model, |model| - 1, other);
    }
  }

  /** An exact entry wins; next comes the entry of the id with its dots, at signs and slashes read as dashes. */
  lemma FindPrefersExactThenDashed(snapshot: Snapshot, model: string, dashed: string)
    requires |dashed| == |model|
    requires forall i :: 0 <= i < |model| ==>
               dashed[i] == if model[i] == '.' || model[i] == '@' || model[i] == '/' then '-' else model[i]
    ensures model in snapshot ==> Find(snapshot, model) == Some(snapshot[model])
    ensures model !in snapshot && dashed in snapshot ==> Find(snapshot, model) == Some(snapshot[dashed])
    ensures dashed == Normalized(model)
  {
    assert dashed == Normalized(model);
  }

  lemma {:induction false} SomePrefixSomeEntry(snapshot: Snapshot, model: string, n: nat, other: string)
    requires |other| <= n <= |model| && other == model[..|other|] && other in snapshot
    ensures LongestPrefix(snapshot, model, n).Some?
  {
    if |other| < n {
      SomePrefixSomeEntry(snapshot, model, n - 1, other);
    }
  }

  // ---- pricing ----------------------------------------------------------------------------

  const TWO_TO_THE_64 := 0x1_0000_0000_0000_0000

  /** Round half up; 2^64 itself passes the range check and saturates in the cast. */
  function UsdToMicros(usd: real): Option<Micros>
  {
    if usd < 0.0 then None
    else
      var micros := (usd * 1000000.0 + 0.5).Floor;
      if micros > TWO_TO_THE_64 then None else Some(Min(micros, U64_MAX))
  }

  function PriceUsd(tokens: TokenUsage, entry: PricingEntry): real
  {
    Or(tokens.input, 0) as real * entry.input + Or(tokens.output, 0) as real * entry.output
    + Or(tokens.cacheRead, 0) as real * Or(entry.cacheRead, 0.0)
    + Or(tokens.cacheCreation, 0) as real * Or(entry.cacheWrite, entry.input)
  }

  function PriceTokens(tokens: TokenUsage, entry: PricingEntry): Option<Micros> { UsdToMicros(PriceUsd(tokens, entry)) }

  /** The conversion is the nearest whole number of micros, half up, wherever it neither fails nor saturates. */
  lemma MicrosAreNearest(usd: real)
    ensures UsdToMicros(usd).None? <==> usd < 0.0 || usd * 1000000.0 + 0.5 >= (TWO_TO_THE_64 + 1) as real
    ensures UsdToMicros(usd).Some? && UsdToMicros(usd).value < U64_MAX ==>
              var exact := usd * 1000000.0; exact - 0.5 < UsdToMicros(usd).value as real <= exact + 0.5
  {
  }

  /** What a number of tokens costs at a rate; a number not reported counts as none. */
  function Charge(count: Option<nat>, rate: real): real
  {
    match count case None => 0.0 case Some(n) => n as real * rate
  }

  /** The exact price: every kind of token at its own rate, reads of a cache free and writes as input if unlisted. */
  function ExactCharge(tokens: TokenUsage, entry: PricingEntry): real
  {
    Charge(tokens.input, entry.input) + Charge(tokens.output, entry.output)
    + Charge(tokens.cacheRead, if entry.cacheRead.Some? then entry.cacheRead.value else 0.0)
    + Charge(tokens.cacheCreation, if entry.cacheWrite.Some? then entry.cacheWrite.value else entry.input)
  }

  lemma ChargeIs(count: Option<nat>, rate: real)
    ensures Or(count, 0) as real * rate == Charge(count, rate)
  {
  }

  lemma PriceIsExactCharge(tokens: TokenUsage, entry: PricingEntry)
    ensures PriceUsd(tokens, entry) == ExactCharge(tokens, entry)
  {
    hide Charge;
    var readRate := if entry.cacheRead.Some? then entry.cacheRead.value else 0.0;
    var writeRate := if entry.cacheWrite.Some? then entry.cacheWrite.value else entry.input;
    ChargeIs(tokens.input, entry.input);
    ChargeIs(tokens.output, entry.output);
    ChargeIs(tokens.cacheRead, readRate);
    ChargeIs(tokens.cacheCreation, writeRate);
    assert Or(entry.cacheRead, 0.0) == readRate && Or(entry.cacheWrite, entry.input) == writeRate;
  }

  /**
   * A calculated cost is the nearest whole number of micros to the exact charge; it is not applicable for no tokens
   * or a charge that rounds to nothing, and unavailable for an unlisted model or an amount out of range.
   */
  lemma CalculatedCostIsNearest(model: string, tokens: TokenUsage, snapshot: Snapshot)
    ensures var cost := CalculateCost(model, tokens, snapshot);
            match Find(snapshot, model)
            case None => cost == if tokens.total == 0 then NotApplicable(BurnlyCalculated)
                else Unavailable(BurnlyCalculated)
            case Some(entry) =>
              var exact := 1000000.0 * ExactCharge(tokens, entry);
              && (cost == NotApplicable(BurnlyCalculated) <==> tokens.total == 0 || 0.0 <= exact < 0.5)
              && (cost == Unavailable(BurnlyCalculated) <==>
                   tokens.total > 0 && (exact < 0.0 || exact + 0.5 >= (TWO_TO_THE_64 + 1) as real))
              && (cost.Valued? ==>
                    && cost == Valued(cost.micros, "USD", BurnlyCalculated, Estimated)
                    && (cost.micros < U64_MAX ==> exact - 0.5 < cost.micros as real <= exact + 0.5))
  {
    if Find(snapshot, model).Some? {
      var entry := Find(snapshot, model).value;
      PriceIsExactCharge(tokens, entry);
      MicrosAreNearest(ExactCharge(tokens, entry));
    }
  }

  function Priced(micros: Micros): UsageCost { Valued(micros, "USD", BurnlyCalculated, Estimated) }

  function CalculateCost(model: string, tokens: TokenUsage, snapshot: Snapshot): UsageCost
  {
    if tokens.total == 0 then NotApplicable(BurnlyCalculated)
    else
      match Find(snapshot, model)
      case None => Unavailable(BurnlyCalculated)
      case Some(entry) =>
        match PriceTokens(tokens, entry)
        case None => Unavailable(BurnlyCalculated)
        case Some(micros) => if micros == 0 then NotApplicable(BurnlyCalculated) else Priced(micros)
  }

  function GapFillCost(model: Option<string>, tokens: TokenUsage, snapshot: Snapshot, current: UsageCost): UsageCost
  {
    if !current.Valued? then current
    else if current.micros != 0 || tokens.total == 0 then current
    else
      match model
      case None => current
      case Some(id) =>
        match Find(snapshot, id)
        case None => current
        case Some(entry) =>
          match PriceTokens(tokens, entry)
          case None => current
          case Some(micros) => if micros == 0 then current else Priced(micros)
  }

  predicate IsZero(cost: UsageCost) { cost.Valued? && cost.micros == 0 }

  /** A gap is filled with just what the calculator says the tokens cost, and nothing else ever changes. */
  lemma FillAgreesWithCalculator(model: string, tokens: TokenUsage, snapshot: Snapshot, current: UsageCost)
    ensures var filled := GapFillCost(Some(model), tokens, snapshot, current);
            var calculated := CalculateCost(model, tokens, snapshot);
            && (filled != current <==> IsZero(current) && calculated.Valued?)
            && (filled != current ==> filled == calculated && filled.micros > 0)
    ensures GapFillCost(None, tokens, snapshot, current) == current
  {
  }

  // ---- filling a candidate ----------------------------------------------------------------

  function FilledModel(m: ModelUsage, snapshot: Snapshot): ModelUsage
  {
    m.(cost := GapFillCost(Some(m.rawModelId), m.tokens, snapshot, m.cost))
  }

  function FilledModels(ms: seq<ModelUsage>, snapshot: Snapshot): (r: seq<ModelUsage>)
    ensures |r| == |ms|
  {
    seq(|ms|, i requires 0 <= i < |ms| => FilledModel(ms[i], snapshot))
  }

  function ValuedMicros(m: ModelUsage): Micros { if m.cost.Valued? then m.cost.micros else 0 }

  /** The running total of the first `n`, saturating at every addition. */
  function SaturatingTotal(ms: seq<ModelUsage>, n: nat): Micros
    requires n <= |ms|
  {
    if n == 0 then 0 else Min(SaturatingTotal(ms, n - 1) + ValuedMicros(ms[n - 1]), U64_MAX)
  }

  function ExactTotal(ms: seq<ModelUsage>, n: nat): nat
    requires n <= |ms|
  {
    if n == 0 then 0 else ExactTotal(ms, n - 1) + ValuedMicros(ms[n - 1])
  }

  predicate AnyFilled(ms: seq<ModelUsage>, snapshot: Snapshot)
  {
    exists i :: 0 <= i < |ms| && FilledModel(ms[i], snapshot) != ms[i]
  }

  function AggregateOf(ms: seq<ModelUsage>, snapshot: Snapshot): Option<UsageCost>
  {
    if AnyFilled(ms, snapshot) then Some(Priced(SaturatingTotal(FilledModels(ms, snapshot), |ms|))) else None
  }

  function Filled(c: Candidate, snapshot: Snapshot): Candidate
  {
    if c.tokens.total == 0 || !IsZero(c.cost) then c
    else Candidate(c.tokens, Or(AggregateOf(c.breakdowns, snapshot), c.cost), FilledModels(c.breakdowns, snapshot))
  }

  lemma {:induction false} SaturatingIsCappedTotal(ms: seq<ModelUsage>, n: nat)
    requires n <= |ms|
    ensures SaturatingTotal(ms, n) == Min(ExactTotal(ms, n), U64_MAX)
    ensures forall i :: 0 <= i < n ==> ValuedMicros(ms[i]) <= SaturatingTotal(ms, n)
  {
    if n > 0 {
      SaturatingIsCappedTotal(ms, n - 1);
    }
  }

  lemma FillingModelsTwice(ms: seq<ModelUsage>, snapshot: Snapshot)
    ensures FilledModels(FilledModels(ms, snapshot), snapshot) == FilledModels(ms, snapshot)
    ensures !AnyFilled(FilledModels(ms, snapshot), snapshot)
    ensures !AnyFilled(ms, snapshot) ==> FilledModels(ms, snapshot) == ms
  {
    var once := FilledModels(ms, snapshot);
    forall i | 0 <= i < |ms| ensures FilledModel(once[i], snapshot) == once[i] {
      FillAgreesWithCalculator(ms[i].rawModelId, ms[i].tokens, snapshot, ms[i].cost);
      FillAgreesWithCalculator(ms[i].rawModelId, ms[i].tokens, snapshot, once[i].cost);
    }
  }

  /** Filling twice is filling once. */
  lemma FillIsIdempotent(c: Candidate, snapshot: Snapshot)
    ensures Filled(Filled(c, snapshot), snapshot) == Filled(c, snapshot)
  {
    FillingModelsTwice(c.breakdowns, snapshot);
  }

  /**
   * What a fill may touch: nothing unless the aggregate is a valued zero with tokens behind it, never a breakdown
   * that was not itself such a zero, and the aggregate exactly when some breakdown changed. The new aggregate is
   * the capped sum of all valued breakdowns, and it is positive.
   */
  lemma FillTouchesOnlyGaps(c: Candidate, snapshot: Snapshot)
    ensures var v := Filled(c, snapshot);
            && v.tokens == c.tokens && |v.breakdowns| == |c.breakdowns|
            && (v != c ==> IsZero(c.cost) && c.tokens.total > 0)
            && (v.cost != c.cost <==> v != c)
            && (forall i :: 0 <= i < |c.breakdowns| && v.breakdowns[i] != c.breakdowns[i] ==>
                  IsZero(c.breakdowns[i].cost)
                      && v.breakdowns[i].cost
                           == CalculateCost(c.breakdowns[i].rawModelId, c.breakdowns[i].tokens, snapshot)
                  && v.breakdowns[i] == c.breakdowns[i].(cost := v.breakdowns[i].cost))
            && (v != c ==>
                  && v.cost == Priced(Min(ExactTotal(v.breakdowns, |v.breakdowns|), U64_MAX))
                  && v.cost.micros > 0)
  {
    var v := Filled(c, snapshot);
    FillingModelsTwice(c.breakdowns, snapshot);
    SaturatingIsCappedTotal(FilledModels(c.breakdowns, snapshot), |c.breakdowns|);
    forall i | 0 <= i < |c.breakdowns| && v.breakdowns[i] != c.breakdowns[i]
      ensures IsZero(c.breakdowns[i].cost)
      ensures v.breakdowns[i].cost == CalculateCost(c.breakdowns[i].rawModelId, c.breakdowns[i].tokens, snapshot)
      ensures v.breakdowns[i] == c.breakdowns[i].(cost := v.breakdowns[i].cost)
    {
      FillAgreesWithCalculator(c.breakdowns[i].rawModelId, c.breakdowns[i].tokens, snapshot, c.breakdowns[i].cost);
    }
    if AnyFilled(c.breakdowns, snapshot) {
      var i :| 0 <= i < |c.breakdowns| && FilledModel(c.breakdowns[i], snapshot) != c.breakdowns[i];
      FillAgreesWithCalculator(c.breakdowns[i].rawModelId, c.breakdowns[i].tokens, snapshot, c.breakdowns[i].cost);
      assert ValuedMicros(FilledModels(c.breakdowns, snapshot)[i]) > 0;
    }
  }

  // ---- the rounding bound -----------------------------------------------------------------

  predicate Changed(m: ModelUsage, snapshot: Snapshot) { FilledModel(m, snapshot) != m }

  /** What a breakdown should contribute: its exact price in micros if it was filled, its own amount otherwise. */
  ghost function ExactMicros(m: ModelUsage, snapshot: Snapshot): real
  {
    if Changed(m, snapshot)
    then (match Find(snapshot, m.rawModelId)
          case Some(entry) => 1000000.0 * ExactCharge(m.tokens, entry)
          case None => 0.0)
    else ValuedMicros(m) as real
  }

  ghost function ExactSum(ms: seq<ModelUsage>, snapshot: Snapshot, n: nat): real
    requires n <= |ms|
  {
    if n == 0 then 0.0 else ExactSum(ms, snapshot, n - 1) + ExactMicros(ms[n - 1], snapshot)
  }

  function CountFilled(ms: seq<ModelUsage>, snapshot: Snapshot, n: nat): nat
    requires n <= |ms|
  {
    if n == 0 then 0 else CountFilled(ms, snapshot, n - 1) + if Changed(ms[n - 1], snapshot) then 1 else 0
  }

  lemma OneRounding(m: ModelUsage, snapshot: Snapshot)
    requires ValuedMicros(FilledModel(m, snapshot)) < U64_MAX
    ensures var exact := ExactMicros(m, snapshot); var micros := ValuedMicros(FilledModel(m, snapshot)) as real;
            if Changed(m, snapshot) then exact - 0.5 < micros <= exact + 0.5 else micros == exact
  {
    FillAgreesWithCalculator(m.rawModelId, m.tokens, snapshot, m.cost);
    if Changed(m, snapshot) {
      PriceIsExactCharge(m.tokens, Find(snapshot, m.rawModelId).value);
      MicrosAreNearest(ExactCharge(m.tokens, Find(snapshot, m.rawModelId).value));
    }
  }

  lemma {:induction false} RoundingsAddUp(ms: seq<ModelUsage>, snapshot: Snapshot, n: nat)
    requires n <= |ms| && SaturatingTotal(FilledModels(ms, snapshot), n) < U64_MAX
    ensures var exact := ExactSum(ms, snapshot, n); var total := SaturatingTotal(FilledModels(ms, snapshot), n) as real;
            var slack := CountFilled(ms, snapshot, n) as real / 2.0;
            exact - slack <= total <= exact + slack
  {
    if n > 0 {
      SaturatingIsCappedTotal(FilledModels(ms, snapshot), n);
      RoundingsAddUp(ms, snapshot, n - 1);
      OneRounding(ms[n - 1], snapshot);
    }
  }

  /** Short of saturation, a filled aggregate is within half a micro per filled breakdown of the exact amount. */
  lemma AggregateIsNearlyExact(c: Candidate, snapshot: Snapshot)
    ensures var n, v := |c.breakdowns|, Filled(c, snapshot);
            var count, exact := CountFilled(c.breakdowns, snapshot, n), ExactSum(c.breakdowns, snapshot, n);
            v != c && v.cost.Valued? && v.cost.micros < U64_MAX ==>
              && 0 < count <= n
              && exact - count as real / 2.0 <= v.cost.micros as real <= exact + count as real / 2.0
  {
    var v := Filled(c, snapshot);
    if v != c && v.cost.Valued? && v.cost.micros < U64_MAX {
      FillTouchesOnlyGaps(c, snapshot);
      FillingModelsTwice(c.breakdowns, snapshot);
      RoundingsAddUp(c.breakdowns, snapshot, |c.breakdowns|);
      FilledAreCounted(c.breakdowns, snapshot, |c.breakdowns|);
    }
  }

  lemma {:induction false} FilledAreCounted(ms: seq<ModelUsage>, snapshot: Snapshot, n: nat)
    requires n <= |ms|
    ensures CountFilled(ms, snapshot, n) <= n
    ensures CountFilled(ms, snapshot, n) == 0 <==> forall i :: 0 <= i < n ==> !Changed(ms[i], snapshot)
  {
    if n > 0 {
      FilledAreCounted(ms, snapshot, n - 1);
    }
  }

  // ---- in place ---------------------------------------------------------------------------

  method GapFillModelBreakdowns(breakdowns: array<ModelUsage>, snapshot: Snapshot) returns (r: Option<UsageCost>)
    modifies breakdowns
    ensures breakdowns[..] == FilledModels(old(breakdowns[..]), snapshot)
    ensures r == AggregateOf(old(breakdowns[..]), snapshot)
  {
    ghost var before := breakdowns[..];
    var totalMicros: Micros := 0;
    var anyFilled := false;
    for i := 0 to breakdowns.Length
      invariant forall k :: 0 <= k < i ==> breakdowns[k] == FilledModel(before[k], snapshot)
      invariant forall k :: i <= k < breakdowns.Length ==> breakdowns[k] == before[k]
      invariant anyFilled <==> exists k :: 0 <= k < i && FilledModel(before[k], snapshot) != before[k]
      invariant totalMicros == SaturatingTotal(FilledModels(before, snapshot), i)
    {
      var model := breakdowns[i];
      var filled := GapFillCost(Some(model.rawModelId), model.tokens, snapshot, model.cost);
      FillAgreesWithCalculator(model.rawModelId, model.tokens, snapshot, model.cost);
      var becameValued := filled.Valued? && filled.micros > 0 && !(model.cost.Valued? && model.cost.micros > 0);
      if becameValued {
        anyFilled := true;
      }
      breakdowns[i] := model.(cost := filled);
      if filled.Valued? {
        totalMicros := Min(totalMicros + filled.micros, U64_MAX);
      }
    }
    return if anyFilled then Some(Priced(totalMicros)) else None;
  }

  /** A daily or session candidate; the two are filled by the same rule. */
  class UsageCandidate {
    const tokens: TokenUsage
    var cost: UsageCost
    const modelBreakdowns: array<ModelUsage>

    constructor (tokens: TokenUsage, cost: UsageCost, modelBreakdowns: array<ModelUsage>)
      ensures this.tokens == tokens && this.cost == cost && this.modelBreakdowns == modelBreakdowns
    {
      this.tokens, this.cost, this.modelBreakdowns := tokens, cost, modelBreakdowns;
    }

    ghost function View(): Candidate
      reads this, modelBreakdowns
    {
      Candidate(tokens, cost, modelBreakdowns[..])
    }

    /** `gap_fill_daily` and `gap_fill_session`. */
    method GapFill(snapshot: Snapshot)
      modifies this, modelBreakdowns
      ensures View() == Filled(old(View()), snapshot)
    {
      if tokens.total == 0 || !(cost.Valued? && cost.micros == 0) {
        return;
      }
      var aggregate := GapFillModelBreakdowns(modelBreakdowns, snapshot);
      if aggregate.Some? {
        cost := aggregate.value;
      }
    }
  }
}
