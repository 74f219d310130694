/**
 The validator's composite score (carbonscope/scoring.py) with the sanity checks and the
 benchmark comparison it is made of (carbonscope/validation).
 */
module Scoring {
  import opened Compliance
  import opened Dictionaries
  import opened EmissionFactors
  import opened Estimator
  import opened Outcomes
  import opened Protocol
  import opened Rounding

  /** Known-correct emissions per scope; a scope that is missing counts as zero. */
  datatype Truth = Truth(scope1: real, scope2: real, scope3: real)

  /** An industry's typical shares of the three scopes. */
  datatype Split = Split(scope1: real, scope2: real, scope3: real)

  // ---------------------------------------------------------------- accuracy

  /** Relative error against the truth, at most 1. */
  function RelativeError(estimate: real, truth: real): (ape: real)
    ensures 0.0 <= ape <= 1.0
    ensures ape == 0.0 <==> estimate == Max(truth, 0.0)
  {
    if truth > 0.0 then
      assert Abs(estimate - truth) / truth >= 0.0;
      assert Abs(estimate - truth) / truth == 0.0 <==> estimate == truth;
      Min(Abs(estimate - truth) / truth, 1.0)
    else if estimate == 0.0 then 0.0
    else 1.0
  }

  function Accuracy(e: Emissions, truth: Truth): real {
    var error := 0.3 * RelativeError(e.scope1.OrZero(), truth.scope1)
                 + 0.2 * RelativeError(e.scope2.OrZero(), truth.scope2)
                 + 0.5 * RelativeError(e.scope3.OrZero(), truth.scope3);
    Round4(Max(1.0 - error, 0.0))
  }

  method CalcAccuracyScore(e: Emissions, truth: Truth) returns (score: real)
    requires Numeric(e)
    ensures score == Accuracy(e, truth)
  {
    hide Round4;
    var scopes := [(0.3, e.scope1.OrZero(), truth.scope1), (0.2, e.scope2.OrZero(), truth.scope2),
                   (0.5, e.scope3.OrZero(), truth.scope3)];
    var weightedError, totalWeight := 0.0, 0.0;
    for i := 0 to |scopes|
      invariant weightedError == WeightedError(scopes[..i])
      invariant totalWeight == if i == 0 then 0.0 else if i == 1 then 0.3 else if i == 2 then 0.5 else 1.0
    {
      var (weight, estimate, gt) := scopes[i];
      var ape := if gt > 0.0 then Abs(estimate - gt) / gt else if estimate == 0.0 then 0.0 else 1.0;
      assert Min(ape, 1.0) == RelativeError(estimate, gt);
      assert scopes[..i + 1][..i] == scopes[..i];
      weightedError := weightedError + weight * Min(ape, 1.0);
      totalWeight := totalWeight + weight;
    }
    assert scopes[..3] == scopes;
    WeightedErrorOfThree(scopes);
    score := Round4(Max(1.0 - weightedError / totalWeight, 0.0));
  }

  function WeightedError(scopes: seq<(real, real, real)>): real {
    if scopes == [] then 0.0 else
      var (weight, estimate, truth) := scopes[|scopes| - 1];
      WeightedError(scopes[..|scopes| - 1]) + weight * RelativeError(estimate, truth)
  }

  lemma WeightedErrorOfThree(scopes: seq<(real, real, real)>)
    requires |scopes| == 3
    ensures WeightedError(scopes)
         == scopes[0].0 * RelativeError(scopes[0].1, scopes[0].2)
            + scopes[1].0 * RelativeError(scopes[1].1, scopes[1].2)
            + scopes[2].0 * RelativeError(scopes[2].1, scopes[2].2)
  {
    hide RelativeError;
    assert scopes[..2][..1] == scopes[..1];
    assert scopes[..1][..0] == [];
    assert WeightedError(scopes[..1]) == scopes[0].0 * RelativeError(scopes[0].1, scopes[0].2);
  }

  /** Accuracy is between 0 and 1, and no less than full marks when every scope is as in the truth. */
  lemma AccuracyBounds(e: Emissions, truth: Truth)
    ensures 0.0 <= Accuracy(e, truth) <= 1.0
    ensures (&& e.scope1.OrZero() == Max(truth.scope1, 0.0)
             && e.scope2.OrZero() == Max(truth.scope2, 0.0)
             && e.scope3.OrZero() == Max(truth.scope3, 0.0)) ==> Accuracy(e, truth) == 1.0
  {
    var error := 0.3 * RelativeError(e.scope1.OrZero(), truth.scope1)
                 + 0.2 * RelativeError(e.scope2.OrZero(), truth.scope2)
                 + 0.5 * RelativeError(e.scope3.OrZero(), truth.scope3);
    Round4Between(Max(1.0 - error, 0.0), 0, 1);
    Round4Between(1.0, 1, 1);
    hide RelativeError, Round4;
  }

  // ---------------------------------------------------------------- required fields

  predicate HasTotals(e: Option<Emissions>) {
    && e.Some?
    && !e.value.scope1.Missing? && !e.value.scope2.Missing? && !e.value.scope3.Missing? && !e.value.total.Missing?
  }

  predicate HasBreakdown(b: Option<Breakdown>) {
    b.Some? && (b.value.scope1.Some? || b.value.scope2.Some? || b.value.scope3.Some?)
  }

  predicate HasConfidence(c: Option<real>) {
    c.Some? && 0.0 <= c.value <= 1.0
  }

  function FieldsPresent(r: Response): nat {
    One(HasTotals(r.emissions)) + One(HasBreakdown(r.breakdown)) + One(HasConfidence(r.confidence))
    + One(NonEmpty(r.sources)) + One(NonEmpty(r.assumptions))
  }

  function CompletenessScore(r: Response): real {
    Round4(FieldsPresent(r) as real / 5.0)
  }

  method CalcCompletenessScore(r: Response) returns (score: real)
    ensures score == CompletenessScore(r)
  {
    hide Round4;
    var found := 0.0;
    if HasTotals(r.emissions) {
      found := found + 1.0;
    }
    if HasBreakdown(r.breakdown) {
      found := found + 1.0;
    }
    if HasConfidence(r.confidence) {
      found := found + 1.0;
    }
    if NonEmpty(r.sources) {
      found := found + 1.0;
    }
    if NonEmpty(r.assumptions) {
      found := found + 1.0;
    }
    score := Round4(found / 5.0);
  }

  lemma FifthsAreExact(n: nat)
    requires n <= 5
    ensures Round4(n as real / 5.0) == n as real / 5.0
  {
    HalfEvenOfWhole(n * 2000);
  }

  lemma MinerAnswerHasConfidence(t: Tables, w: FieldWeights, q: Questionnaire, factor: Option<real>, r: Response)
    requires Valid(t) && ValidWeights(w) && MinerAnswer(t, w, q, factor, r)
    ensures HasConfidence(r.confidence)
  {
    var weights := Fallback(w.byIndustry, SettingOf(q).industry, w.default);
    CompletenessBounds(weights, q.data);
    MinerConfidenceBounds(Completeness(weights, q.data), q.data);
    hide Scope1Kg, Scope2Kg, Scope3Detail, MinerScope1, Valid, Totals, Completeness, MinerConfidence, Scope2Methods;
  }

  /** The miner's own answer has every field; the error answer has two of the five. */
  lemma MinerAnswerIsComplete(t: Tables, w: FieldWeights, q: Questionnaire, supplierFactor: Option<real>, r: Response)
    requires Valid(t) && ValidWeights(w) && MinerAnswer(t, w, q, supplierFactor, r)
    ensures CompletenessScore(r) == 1.0
    ensures CompletenessScore(ERROR_ANSWER) == 0.4
  {
    ErrorIsIncomplete();
    MinerAnswerHasConfidence(t, w, q, supplierFactor, r);
    MinerAnswerHasFields(t, w, q, supplierFactor, r);
    hide MinerAnswer, HasConfidence, Valid, ValidWeights, Round4;
    FifthsAreExact(5);
  }

  lemma ErrorIsIncomplete()
    ensures CompletenessScore(ERROR_ANSWER) == 0.4
  {
    FifthsAreExact(2);
    ErrorHasNoConfidence();
    hide Round4, HasConfidence;
    assert FieldsPresent(ERROR_ANSWER) == 2;
  }

  lemma ErrorHasNoConfidence()
    ensures !HasConfidence(ERROR_ANSWER.confidence)
  {
  }

  lemma MinerAnswerHasFields(t: Tables, w: FieldWeights, q: Questionnaire, supplierFactor: Option<real>, r: Response)
    requires Valid(t) && MinerAnswer(t, w, q, supplierFactor, r)
    ensures HasTotals(r.emissions) && HasBreakdown(r.breakdown) && NonEmpty(r.sources) && NonEmpty(r.assumptions)
  {
    hide Scope1Kg, Scope2Kg, Scope3Detail, MinerScope1, Valid, Round2;
    hide Completeness, MinerConfidence, Sum, Scope2Methods;
  }

  // ---------------------------------------------------------------- overconfidence

  function AllFieldCount(d: ProvidedData): nat {
    FieldCount(d) + One(Given(FuelType, d)) + One(d.vehicleType.Some? && d.vehicleType.value != "")
  }

  /** Deducted for high confidence on sparse data. */
  function OverconfidencePenalty(confidence: Option<real>, d: ProvidedData): (p: real)
    ensures 0.0 <= p <= 0.25
    ensures p > 0.0 <==> confidence.Some? && confidence.value >= 0.7
                         && (AllFieldCount(d) <= 5 || (AllFieldCount(d) <= 8 && confidence.value >= 0.8))
  {
    if confidence.None? || confidence.value < 0.7 then 0.0
    else if AllFieldCount(d) <= 3 && confidence.value > 0.85 then 0.25
    else if AllFieldCount(d) <= 5 && confidence.value >= 0.7 then 0.15
    else if AllFieldCount(d) <= 8 && confidence.value >= 0.8 then 0.08
    else 0.0
  }

  // ---------------------------------------------------------------- sanity

  /** Kilograms per employee beyond which a total is implausible. */
  const UPPER_PER_EMPLOYEE := map[
    "technology" := 50000.0, "financial_services" := 30000.0, "manufacturing" := 250000.0,
    "transportation" := 400000.0, "energy" := 2000000.0, "retail" := 80000.0,
    "construction" := 200000.0, "food_beverage" := 180000.0, "healthcare" := 100000.0]

  predicate AnyNegative(e: Emissions) {
    e.scope1.OrZero() < 0.0 || e.scope2.OrZero() < 0.0 || e.scope3.OrZero() < 0.0 || e.total.OrZero() < 0.0
  }

  predicate Scope2Implausible(e: Emissions, kwh: real) {
    kwh > 0.0 && e.scope2.OrZero() > 0.0
    && (e.scope2.OrZero() < kwh * 0.01 * 0.5 || e.scope2.OrZero() > kwh * 0.9 * 1.5)
  }

  predicate Extreme(e: Emissions, employees: int, industry: string) {
    employees > 0 && e.total.OrZero() > employees as real * Fallback(UPPER_PER_EMPLOYEE, industry, 250000.0)
  }

  /** The eight main amounts, those that are positive. */
  function MainAmounts(a: Amounts): nat {
    One(a.fuelLiters > 0.0) + One(a.gasM3 > 0.0) + One(a.kwh > 0.0) + One(a.vehicleKm > 0.0)
    + One(a.employees > 0) + One(a.revenue > 0.0) + One(a.supplierSpend > 0.0) + One(a.tonKm > 0.0)
  }

  predicate Overconfident(confidence: Option<real>, a: Amounts) {
    confidence.Some? && MainAmounts(a) <= 2 && confidence.value > 0.9
  }

  predicate ZeroDespiteActivity(e: Emissions, a: Amounts) {
    (a.fuelLiters > 0.0 || a.gasM3 > 0.0 || a.kwh > 0.0 || a.vehicleKm > 0.0) && e.total.OrZero() == 0.0
  }

  function SanityScore(e: Emissions, confidence: Option<real>, q: Questionnaire): real {
    Max(1.0 - If(AnyNegative(e), 0.3) - If(Scope2Implausible(e, q.data.amounts.kwh), 0.2)
        - If(Extreme(e, q.data.amounts.employees, q.industry.UnwrapOr("manufacturing")), 0.2)
        - If(Overconfident(confidence, q.data.amounts), 0.15) - If(ZeroDespiteActivity(e, q.data.amounts), 0.25), 0.0)
  }

  method RunSanityChecks(e: Emissions, confidence: Option<real>, q: Questionnaire) returns (score: real)
    ensures score == SanityScore(e, confidence, q)
  {
    hide MainAmounts, Extreme, Scope2Implausible;
    score := 1.0;
    var values := [e.scope1.OrZero(), e.scope2.OrZero(), e.scope3.OrZero(), e.total.OrZero()];
    var i := 0;
    while i < |values|
      invariant 0 <= i <= |values|
      invariant score == 1.0 && forall j :: 0 <= j < i ==> values[j] >= 0.0
    {
      if values[i] < 0.0 {
        score := score - 0.3;
        assert i == 0 || i == 1 || i == 2 || i == 3;
        assert AnyNegative(e);
        break;
      }
      i := i + 1;
    }
    assert i == 4 ==> values[0] >= 0.0 && values[1] >= 0.0 && values[2] >= 0.0 && values[3] >= 0.0;
    assert score == 1.0 - If(AnyNegative(e), 0.3);
    var a := q.data.amounts;
    if Scope2Implausible(e, a.kwh) {
      score := score - 0.2;
    }
    if Extreme(e, a.employees, q.industry.UnwrapOr("manufacturing")) {
      score := score - 0.2;
    }
    if confidence.Some? {
      var filled := MainAmounts(a);
      if filled <= 2 && confidence.value > 0.9 {
        score := score - 0.15;
      }
    }
    var hasAnyData := a.fuelLiters > 0.0 || a.gasM3 > 0.0 || a.kwh > 0.0 || a.vehicleKm > 0.0;
    if hasAnyData && e.total.OrZero() == 0.0 {
      score := score - 0.25;
    }
    score := Max(score, 0.0);
  }

  lemma SanityScoreBounds(e: Emissions, confidence: Option<real>, q: Questionnaire)
    ensures 0.0 <= SanityScore(e, confidence, q) <= 1.0
  {
    hide AnyNegative, Scope2Implausible, Extreme, Overconfident, ZeroDespiteActivity;
  }

  // ---------------------------------------------------------------- benchmark

  /** Penalty for a share more than fifteen points off: a third at most. */
  function Deviation(actual: real, typical: real): (p: real)
    ensures 0.0 <= p <= 0.33
    ensures p == 0.0 <==> Abs(actual - typical) <= 0.15
  {
    if Abs(actual - typical) > 0.15 then Min((Abs(actual - typical) - 0.15) / 0.4, 1.0) * 0.33 else 0.0
  }

  function BenchmarkScore(e: Emissions, split: Option<Split>): real {
    var total := e.scope1.OrZero() + e.scope2.OrZero() + e.scope3.OrZero();
    if total <= 0.0 || split.None? then 0.5
    else
      Max(1.0 - Deviation(e.scope1.OrZero() / total, split.value.scope1)
          - Deviation(e.scope2.OrZero() / total, split.value.scope2)
          - Deviation(e.scope3.OrZero() / total, split.value.scope3), 0.0)
  }

  method CheckBenchmarkAlignment(e: Emissions, split: Option<Split>) returns (score: real)
    ensures score == BenchmarkScore(e, split)
  {
    hide Deviation;
    var total := e.scope1.OrZero() + e.scope2.OrZero() + e.scope3.OrZero();
    if total <= 0.0 || split.None? {
      return 0.5;
    }
    var actual := [e.scope1.OrZero() / total, e.scope2.OrZero() / total, e.scope3.OrZero() / total];
    var typical := [split.value.scope1, split.value.scope2, split.value.scope3];
    score := 1.0;
    for i := 0 to 3
      invariant score == 1.0 - (if i > 0 then Deviation(actual[0], typical[0]) else 0.0)
                         - (if i > 1 then Deviation(actual[1], typical[1]) else 0.0)
                         - if i > 2 then Deviation(actual[2], typical[2]) else 0.0
    {
      score := score - Deviation(actual[i], typical[i]);
    }
    score := Max(score, 0.0);
  }

  lemma BenchmarkScoreBounds(e: Emissions, split: Option<Split>)
    ensures 0.0 < BenchmarkScore(e, split) <= 1.0
  {
    hide Deviation;
  }

  // ---------------------------------------------------------------- the composite

  datatype Weights = Weights(accuracy: real, compliance: real, completeness: real, sanity: real, benchmark: real)

  const WITH_TRUTH := Weights(0.4, 0.25, 0.15, 0.15, 0.05)
  const WITHOUT_TRUTH := Weights(0.1, 0.35, 0.2, 0.25, 0.1)

  datatype Parts = Parts(accuracy: real, compliance: real, completeness: real, sanity: real, benchmark: real)

  /** The five axes for a response that has totals; without a truth accuracy is neutral. */
  function PartsOf(r: Response, q: Questionnaire, truth: Option<Truth>, split: Option<Split>): Parts
    requires r.emissions.Some?
  {
    var e := r.emissions.value;
    Parts(
      if truth.Some? then Accuracy(e, truth.value) else 0.5,
      ComplianceScore(e, r.breakdown, q.data),
      CompletenessScore(r),
      SanityScore(e, r.confidence, q),
      BenchmarkScore(e, split))
  }

  function Weighted(p: Parts, w: Weights): real {
    w.accuracy * p.accuracy + w.compliance * p.compliance + w.completeness * p.completeness + w.sanity * p.sanity
    + w.benchmark * p.benchmark
  }

  function FinalScore(r: Response, q: Questionnaire, truth: Option<Truth>, split: Option<Split>): real
    requires r.emissions.Some?
  {
    Round4(Max(0.0, Weighted(PartsOf(r, q, truth, split), if truth.Some? then WITH_TRUTH else WITHOUT_TRUTH)
                    - OverconfidencePenalty(r.confidence, q.data)))
  }

  /** Scoring raises on a null, at the latest where the compliance check compares the totals with zero. */
  function Score(r: Response, q: Questionnaire, truth: Option<Truth>, split: Option<Split>): Result<real>
    requires r.emissions.Some?
  {
    if Numeric(r.emissions.value) then Ok(FinalScore(r, q, truth, split)) else Err
  }

  method ScoreResponse(r: Response, q: Questionnaire, truth: Option<Truth>, split: Option<Split>)
    returns (score: Result<real>)
    requires r.emissions.Some?
    ensures score == Score(r, q, truth, split)
  {
    hide Accuracy, ComplianceScore, CompletenessScore, SanityScore, BenchmarkScore, OverconfidencePenalty, Round4;
    var e := r.emissions.value;
    if !Numeric(e) {
      return Err;
    }
    var accuracy := 0.5;
    if truth.Some? {
      accuracy := CalcAccuracyScore(e, truth.value);
    }
    var compliance := CheckGhgCompliance(e, r.breakdown, q.data);
    var completeness := CalcCompletenessScore(r);
    var sanity := RunSanityChecks(e, r.confidence, q);
    var benchmark := CheckBenchmarkAlignment(e, split);
    var w := if truth.Some? then WITH_TRUTH else WITHOUT_TRUTH;
    var final := Weighted(Parts(accuracy, compliance.value, completeness, sanity, benchmark), w);
    final := Max(0.0, final - OverconfidencePenalty(r.confidence, q.data));
    score := Ok(Round4(final));
  }

  predicate InUnit(x: real) { 0.0 <= x <= 1.0 }

  predicate PartsInUnit(p: Parts) {
    InUnit(p.accuracy) && InUnit(p.compliance) && InUnit(p.completeness) && InUnit(p.sanity) && InUnit(p.benchmark)
  }

  lemma PartsBounds(r: Response, q: Questionnaire, truth: Option<Truth>, split: Option<Split>)
    requires r.emissions.Some?
    ensures PartsInUnit(PartsOf(r, q, truth, split))
  {
    hide Accuracy, ComplianceScore, FieldsPresent, SanityScore, BenchmarkScore, Round4;
    var e := r.emissions.value;
    if truth.Some? {
      AccuracyBounds(e, truth.value);
    }
    ComplianceScoreBounds(e, r.breakdown, q.data);
    SanityScoreBounds(e, r.confidence, q);
    BenchmarkScoreBounds(e, split);
    FieldsBounds(r);
    Round4Between(FieldsPresent(r) as real / 5.0, 0, 1);
  }

  lemma FieldsBounds(r: Response)
    ensures FieldsPresent(r) <= 5
  {
  }

  /** What the estimator's own answers have: nothing missing, and few points lost by either check. */
  predicate OwnStanding(p: Parts) {
    p.completeness == 1.0
    && ((p.compliance >= 0.7 && p.sanity >= 0.6) || (p.compliance >= 0.85 && p.sanity >= 0.45))
  }

  lemma WeightedInUnit(p: Parts)
    requires PartsInUnit(p)
    ensures InUnit(Weighted(p, WITH_TRUTH)) && InUnit(Weighted(p, WITHOUT_TRUTH))
    ensures OwnStanding(p) ==>
              Weighted(p, WITH_TRUTH) >= 0.415 && (p.accuracy == 0.5 ==> Weighted(p, WITHOUT_TRUTH) >= 0.645)
  {
  }

  /** For every response, questionnaire, truth and industry split the final score is between 0 and 1. */
  lemma FinalScoreInUnit(r: Response, q: Questionnaire, truth: Option<Truth>, split: Option<Split>)
    requires r.emissions.Some?
    ensures InUnit(FinalScore(r, q, truth, split))
  {
    hide PartsOf, OverconfidencePenalty, Round4, PartsInUnit, Weighted;
    PartsBounds(r, q, truth, split);
    WeightedInUnit(PartsOf(r, q, truth, split));
    var weighted := Weighted(PartsOf(r, q, truth, split), if truth.Some? then WITH_TRUTH else WITHOUT_TRUTH);
    Round4Between(Max(0.0, weighted - OverconfidencePenalty(r.confidence, q.data)), 0, 1);
  }

  // ---------------------------------------------------------------- the miner's own score

  lemma UpperIsPositive(industry: string)
    ensures Fallback(UPPER_PER_EMPLOYEE, industry, 250000.0) > 0.0
  {
  }

  /** A total of zero is not extreme, and without Scope 2 there is nothing implausible about it. */
  lemma OwnSanity(e: Emissions, confidence: Option<real>, q: Questionnaire)
    requires !AnyNegative(e) && (e.total.OrZero() == 0.0 ==> e.scope2.OrZero() == 0.0)
    ensures SanityScore(e, confidence, q) >= 0.45
    ensures e.scope2.OrZero() == 0.0 ==> SanityScore(e, confidence, q) >= 0.6
  {
    NotBothExtremeAndZero(e, q.data.amounts, q.industry.UnwrapOr("manufacturing"));
    hide AnyNegative, Extreme, Overconfident;
  }

  lemma NotBothExtremeAndZero(e: Emissions, a: Amounts, industry: string)
    ensures !(Extreme(e, a.employees, industry) && ZeroDespiteActivity(e, a))
  {
    UpperIsPositive(industry);
    var upper := Fallback(UPPER_PER_EMPLOYEE, industry, 250000.0);
    hide Fallback;
    if a.employees > 0 {
      assert a.employees as real * upper > 0.0;
    }
  }

  lemma OwnParts(t: Tables, w: FieldWeights, q: Questionnaire, raw: Questionnaire, factor: Option<real>, r: Response,
                 truth: Option<Truth>, split: Option<Split>)
    requires Valid(t) && ValidWeights(w) && ValidQuestionnaire(raw) && q == WithDefaults(raw)
    requires MinerAnswer(t, w, q, factor, r)
    ensures OwnStanding(PartsOf(r, raw, truth, split))
    ensures truth.None? ==> PartsOf(r, raw, truth, split).accuracy == 0.5
  {
    OwnTotals(t, w, q, factor, r);
    hide Scope1Kg, Scope2Kg, Scope3Detail, MinerAnswer, Valid, FuelVanishes, ElectricityVanishes;
    hide ComplianceScore, CompletenessScore, SanityScore, BenchmarkScore, Accuracy;
    MinerAnswerScore(t, w, q, factor, r);
    SameAmountsSameScore(r.emissions.value, r.breakdown, q.data, raw.data);
    MinerAnswerIsComplete(t, w, q, factor, r);
    OwnSanity(r.emissions.value, r.confidence, raw);
  }

  lemma OwnTotals(t: Tables, w: FieldWeights, q: Questionnaire, factor: Option<real>, r: Response)
    requires Valid(t) && AmountsInRange(q.data.amounts) && MinerAnswer(t, w, q, factor, r)
    ensures r.emissions.Some? && !AnyNegative(r.emissions.value)
    ensures r.emissions.value.total.OrZero() == 0.0 ==> r.emissions.value.scope2.OrZero() == 0.0
    ensures ElectricityVanishes(t, q.data, SettingOf(q).region) ==> r.emissions.value.scope2.OrZero() == 0.0
  {
    hide Scope1Kg, Scope2Kg, Scope3Detail, MinerScope1, Valid, Totals, Completeness, MinerConfidence, Scope2Methods;
    hide ElectricityNegligible;
    AnswersAreConsistent(t, q.data, SettingOf(q));
    Scope2IsZero(t, q.data, SettingOf(q).region);
  }

  /** The checker reads nothing but the amounts. */
  lemma SameAmountsSameScore(e: Emissions, b: Option<Breakdown>, d: ProvidedData, other: ProvidedData)
    requires d.amounts == other.amounts
    ensures ComplianceScore(e, b, d) == ComplianceScore(e, b, other)
  {
    hide TotalMismatch, Negatives, BreakdownMissing, BreakdownPenalty;
  }

  /**
   A miner that answers with this estimator is never scored zero on a valid questionnaire,
   whatever the truth and the benchmark: it gets at least 0.165, and 0.395 when there is no truth.
   */
  lemma OwnAnswerNeverScoresZero(
    t: Tables, w: FieldWeights, raw: Questionnaire, factor: Option<real>, r: Response,
    truth: Option<Truth>, split: Option<Split>)
    requires Valid(t) && ValidWeights(w) && ValidQuestionnaire(raw)
    requires MinerAnswer(t, w, WithDefaults(raw), factor, r)
    ensures FinalScore(r, raw, truth, split) >= if truth.Some? then 0.165 else 0.395
  {
    assert r.emissions.Some?;
    hide *;
    PartsBounds(r, raw, truth, split);
    OwnParts(t, w, WithDefaults(raw), raw, factor, r, truth, split);
    FinalAtLeast(r, raw, truth, split);
  }

  lemma FinalAtLeast(r: Response, q: Questionnaire, truth: Option<Truth>, split: Option<Split>)
    requires r.emissions.Some?
    requires var p := PartsOf(r, q, truth, split);
             PartsInUnit(p) && OwnStanding(p) && (truth.None? ==> p.accuracy == 0.5)
    ensures FinalScore(r, q, truth, split) >= if truth.Some? then 0.165 else 0.395
  {
    hide PartsOf, PartsInUnit, OwnStanding, Weighted, OverconfidencePenalty, Round4;
    WeightedInUnit(PartsOf(r, q, truth, split));
    var weights := if truth.Some? then WITH_TRUTH else WITHOUT_TRUTH;
    var score := Weighted(PartsOf(r, q, truth, split), weights) - OverconfidencePenalty(r.confidence, q.data);
    Round4Monotone(if truth.Some? then 0.165 else 0.395, Max(0.0, score));
    LeastIsExact();
  }

  lemma LeastIsExact()
    ensures Round4(0.165) == 0.165 && Round4(0.395) == 0.395
  {
    HalfEvenOfWhole(1650);
    HalfEvenOfWhole(3950);
  }
}
