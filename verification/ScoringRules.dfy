/**
 The rule book of the validator's checks, in points out of a hundred and without division:
 what each broken rule costs, and what the five axes weigh (carbonscope/scoring.py and
 carbonscope/validation).
 */
module ScoringRules {
  import opened Compliance
  import opened Dictionaries
  import opened EmissionFactors
  import opened Estimator
  import opened Outcomes
  import opened Protocol
  import opened Rounding
  import opened Scoring

  function Points(broken: bool, points: nat): nat {
    if broken then points else 0
  }

  /** What is left of a hundred points. */
  predicate Leaves(score: real, lost: nat) {
    100.0 * score == if lost >= 100 then 0.0 else (100 - lost) as real
  }

  // ---------------------------------------------------------------- compliance

  /** The total reported is more than one per cent above or below the sum of the scopes. */
  predicate TotalIsOff(e: Emissions) {
    var sum, total := e.scope1.OrZero() + e.scope2.OrZero() + e.scope3.OrZero(), e.total.OrZero();
    sum > 0.0 && (100.0 * total > 101.0 * sum || 100.0 * total < 99.0 * sum)
  }

  /** Two positive amounts of which one is less than 98 per cent of the other. */
  predicate Disagree(x: real, y: real) {
    x > 0.0 && y > 0.0 && (100.0 * x < 98.0 * y || 100.0 * y < 98.0 * x)
  }

  function NegativePoints(e: Emissions): nat {
    Points(e.scope1.OrZero() < 0.0, 20) + Points(e.scope2.OrZero() < 0.0, 20) + Points(e.scope3.OrZero() < 0.0, 20)
    + Points(e.total.OrZero() < 0.0, 20)
  }

  function BreakdownPoints(e: Emissions, b: Breakdown): nat {
    Points(b.scope1.Some? && Disagree(Sum(b.scope1.value), e.scope1.OrZero()), 10)
    + Points(b.scope2.Some? && Disagree(Get(b.scope2.value, ByLocation), e.scope2.OrZero()), 5)
    + Points(b.scope3.Some? && Disagree(Sum(b.scope3.value), e.scope3.OrZero()), 10)
  }

  /** What the compliance check takes off: a total that is off, negative figures, scopes left out, and the breakdown. */
  function CompliancePoints(e: Emissions, b: Option<Breakdown>, d: ProvidedData): nat {
    Points(TotalIsOff(e), 25) + NegativePoints(e)
    + Points(e.scope1.OrZero() == 0.0 && (d.amounts.fuelLiters > 0.0 || d.amounts.gasM3 > 0.0), 15)
    + Points(e.scope2.OrZero() == 0.0 && d.amounts.kwh > 0.0, 15)
    + if e.total.OrZero() <= 0.0 then 0 else if b.None? then 10 else BreakdownPoints(e, b.value)
  }

  lemma TotalIsOffIff(e: Emissions)
    ensures TotalMismatch(e) <==> TotalIsOff(e)
  {
    var sum := Expected(e);
    if sum > 0.0 {
      QuotientAbove(Abs(e.total.OrZero() - sum), sum, 0.01);
    }
  }

  lemma QuotientAbove(x: real, y: real, limit: real)
    requires y > 0.0
    ensures x / y > limit <==> x > limit * y
  {
    var q := x / y;
    assert q * y == x;
    if q > limit {
      assert (q - limit) * y > 0.0;
    } else {
      assert (limit - q) * y >= 0.0;
    }
  }

  lemma DisagreeIff(x: real, y: real)
    ensures FarApart(x, y) <==> Disagree(x, y)
  {
    if x > 0.0 && y > 0.0 {
      QuotientAbove(Abs(x - y), Max(y, x), 0.02);
    }
  }

  lemma BreakdownPointsIff(e: Emissions, b: Breakdown)
    requires e.total.OrZero() > 0.0
    ensures 100.0 * BreakdownPenalty(e, Some(b)) == BreakdownPoints(e, b) as real
  {
    hide FarApart, Disagree, Sum, Get;
    if b.scope1.Some? {
      DisagreeIff(Sum(b.scope1.value), e.scope1.OrZero());
    }
    if b.scope2.Some? {
      DisagreeIff(Get(b.scope2.value, ByLocation), e.scope2.OrZero());
    }
    if b.scope3.Some? {
      DisagreeIff(Sum(b.scope3.value), e.scope3.OrZero());
    }
  }

  /** The compliance score of every response and questionnaire, rule by rule. */
  lemma ComplianceIsRuleBook(e: Emissions, b: Option<Breakdown>, d: ProvidedData)
    ensures Leaves(ComplianceScore(e, b, d), CompliancePoints(e, b, d))
  {
    hide TotalMismatch, TotalIsOff, BreakdownPoints;
    TotalIsOffIff(e);
    if b.Some? && e.total.OrZero() > 0.0 {
      BreakdownPointsIff(e, b.value);
      hide DetailMismatch, LocationMismatch;
    }
  }

  // ---------------------------------------------------------------- sanity

  /** Kilograms per employee beyond which a total is out of range for the industry. */
  predicate LimitPerEmployee(industry: string, kg: real) {
    match industry
    case "technology" => kg == 50000.0
    case "financial_services" => kg == 30000.0
    case "manufacturing" => kg == 250000.0
    case "transportation" => kg == 400000.0
    case "energy" => kg == 2000000.0
    case "retail" => kg == 80000.0
    case "construction" => kg == 200000.0
    case "food_beverage" => kg == 180000.0
    case "healthcare" => kg == 100000.0
    case _ => kg == 250000.0
  }

  /** What the sanity checks take off, for this limit per employee and this number of main amounts given. */
  function SanityPoints(e: Emissions, confidence: Option<real>, a: Amounts, limit: real, given: nat): nat {
    Points(e.scope1.OrZero() < 0.0 || e.scope2.OrZero() < 0.0 || e.scope3.OrZero() < 0.0 || e.total.OrZero() < 0.0, 30)
    + Points(a.kwh > 0.0 && e.scope2.OrZero() > 0.0
             && (200.0 * e.scope2.OrZero() < a.kwh || 100.0 * e.scope2.OrZero() > 135.0 * a.kwh), 20)
    + Points(a.employees > 0 && e.total.OrZero() > limit * a.employees as real, 20)
    + Points(confidence.Some? && 10.0 * confidence.value > 9.0 && given < 3, 15)
    + Points(e.total.OrZero() == 0.0 && (a.fuelLiters > 0.0 || a.gasM3 > 0.0 || a.kwh > 0.0 || a.vehicleKm > 0.0), 25)
  }

  /** How many are positive. */
  function Positive(values: seq<real>): nat {
    if values == [] then 0 else Points(values[0] > 0.0, 1) + Positive(values[1..])
  }

  function MainValues(a: Amounts): seq<real> {
    [a.fuelLiters, a.gasM3, a.kwh, a.vehicleKm] + [a.employees as real, a.revenue, a.supplierSpend, a.tonKm]
  }

  lemma {:induction false} PositiveConcat(x: seq<real>, y: seq<real>)
    ensures Positive(x + y) == Positive(x) + Positive(y)
  {
    if x == [] {
      assert x + y == y;
    } else {
      PositiveConcat(x[1..], y);
      assert (x + y)[1..] == x[1..] + y;
    }
  }

  lemma MainAmountsCounted(a: Amounts)
    ensures MainAmounts(a) == Positive(MainValues(a))
  {
    var x, y := [a.fuelLiters, a.gasM3, a.kwh, a.vehicleKm], [a.employees as real, a.revenue, a.supplierSpend, a.tonKm];
    PositiveConcat(x, y);
    FourPositive(a.fuelLiters, a.gasM3, a.kwh, a.vehicleKm);
    FourPositive(a.employees as real, a.revenue, a.supplierSpend, a.tonKm);
  }

  lemma FourPositive(a: real, b: real, c: real, d: real)
    ensures Positive([a, b, c, d]) == Points(a > 0.0, 1) + Points(b > 0.0, 1) + Points(c > 0.0, 1) + Points(d > 0.0, 1)
  {
    assert [a, b, c, d][1..] == [b, c, d] && [b, c, d][1..] == [c, d] && [c, d][1..] == [d] && [d][1..] == [];
    assert Positive([d]) == Points(d > 0.0, 1);
    assert Positive([c, d]) == Points(c > 0.0, 1) + Positive([d]);
    assert Positive([b, c, d]) == Points(b > 0.0, 1) + Positive([c, d]);
  }

  lemma LimitFound(industry: string, limit: real)
    requires LimitPerEmployee(industry, limit)
    ensures Fallback(UPPER_PER_EMPLOYEE, industry, 250000.0) == limit
  {
  }

  /** The sanity score of every response and questionnaire, check by check. */
  lemma SanityIsRuleBook(e: Emissions, confidence: Option<real>, q: Questionnaire, limit: real)
    requires LimitPerEmployee(if q.industry.Some? then q.industry.value else "manufacturing", limit)
    ensures Leaves(SanityScore(e, confidence, q),
                   SanityPoints(e, confidence, q.data.amounts, limit, Positive(MainValues(q.data.amounts))))
  {
    LimitFound(q.industry.UnwrapOr("manufacturing"), limit);
    MainAmountsCounted(q.data.amounts);
    hide MainAmounts, Positive, LimitPerEmployee, Fallback, MainValues;
  }

  // ---------------------------------------------------------------- benchmark

  /**
   Points for a share: none within fifteen points of the typical one, then rising evenly up
   to 33 at fifty-five points.
   */
  predicate DeviationPoints(share: real, typical: real, points: real) {
    var off := if share > typical then share - typical else typical - share;
    if off <= 0.15 then points == 0.0
    else if off >= 0.55 then points == 33.0
    else 0.4 * points == 33.0 * (off - 0.15)
  }

  lemma DeviationIs(share: real, typical: real, points: real)
    requires DeviationPoints(share, typical, points)
    ensures 100.0 * Deviation(share, typical) == points
  {
  }

  /** Against the industry's typical shares; neutral without them or without emissions. */
  lemma BenchmarkIsRuleBook(e: Emissions, split: Option<Split>, shares: Split, points: Split)
    requires var total := e.scope1.OrZero() + e.scope2.OrZero() + e.scope3.OrZero();
             && shares.scope1 * total == e.scope1.OrZero()
             && shares.scope2 * total == e.scope2.OrZero()
             && shares.scope3 * total == e.scope3.OrZero()
    requires split.Some? ==>
               && DeviationPoints(shares.scope1, split.value.scope1, points.scope1)
               && DeviationPoints(shares.scope2, split.value.scope2, points.scope2)
               && DeviationPoints(shares.scope3, split.value.scope3, points.scope3)
    ensures 100.0 * BenchmarkScore(e, split) ==
            if split.None? || e.scope1.OrZero() + e.scope2.OrZero() + e.scope3.OrZero() <= 0.0 then 50.0
            else 100.0 - points.scope1 - points.scope2 - points.scope3
  {
    var total := e.scope1.OrZero() + e.scope2.OrZero() + e.scope3.OrZero();
    if split.Some? && total > 0.0 {
      SharesAre(e.scope1.OrZero(), total, shares.scope1);
      SharesAre(e.scope2.OrZero(), total, shares.scope2);
      SharesAre(e.scope3.OrZero(), total, shares.scope3);
      DeviationIs(shares.scope1, split.value.scope1, points.scope1);
      DeviationIs(shares.scope2, split.value.scope2, points.scope2);
      DeviationIs(shares.scope3, split.value.scope3, points.scope3);
      hide Deviation, DeviationPoints;
    }
  }

  lemma SharesAre(x: real, total: real, share: real)
    requires total > 0.0 && share * total == x
    ensures x / total == share
  {
  }

  // ---------------------------------------------------------------- accuracy

  /** The error of one scope in hundredths: relative to a positive truth and at most 100, else 0 or 100. */
  predicate ErrorPoints(estimate: real, truth: real, points: real) {
    if truth <= 0.0 then points == if estimate == 0.0 then 0.0 else 100.0
    else
      var off := if estimate > truth then estimate - truth else truth - estimate;
      if off >= truth then points == 100.0 else points * truth == 100.0 * off
  }

  lemma ErrorIs(estimate: real, truth: real, points: real)
    requires ErrorPoints(estimate, truth, points)
    ensures 100.0 * RelativeError(estimate, truth) == points
  {
    if truth > 0.0 {
      var off := Abs(estimate - truth);
      QuotientAbove(off, truth, 1.0);
      if off < truth {
        SharesAre(off, truth, points / 100.0);
      }
    }
  }

  /** Scope 1 weighs 30, Scope 2 weighs 20 and Scope 3 weighs 50 of a hundred. */
  lemma AccuracyIsRuleBook(e: Emissions, truth: Truth, points: Truth)
    requires ErrorPoints(e.scope1.OrZero(), truth.scope1, points.scope1)
    requires ErrorPoints(e.scope2.OrZero(), truth.scope2, points.scope2)
    requires ErrorPoints(e.scope3.OrZero(), truth.scope3, points.scope3)
    ensures var exact := 10000.0 - 30.0 * points.scope1 - 20.0 * points.scope2 - 50.0 * points.scope3;
            exact - 0.5 <= 10000.0 * Accuracy(e, truth) <= exact + 0.5
  {
    ErrorIs(e.scope1.OrZero(), truth.scope1, points.scope1);
    ErrorIs(e.scope2.OrZero(), truth.scope2, points.scope2);
    ErrorIs(e.scope3.OrZero(), truth.scope3, points.scope3);
    hide RelativeError, ErrorPoints;
  }

  // ---------------------------------------------------------------- the composite

  /** Deducted for confidence that the number of fields given does not bear out, in points. */
  function OverconfidencePoints(confidence: Option<real>, fields: nat): nat {
    if confidence.None? then 0 else
      var percent := 100.0 * confidence.value;
      if fields > 8 || percent < 70.0 then 0
      else if fields > 5 then Points(percent >= 80.0, 8)
      else if fields > 3 || percent <= 85.0 then 15
      else 25
  }

  lemma OverconfidenceIsRuleBook(confidence: Option<real>, d: ProvidedData)
    ensures 100.0 * OverconfidencePenalty(confidence, d) == OverconfidencePoints(confidence, AllFieldCount(d)) as real
  {
    hide AllFieldCount;
  }

  /** More confidence never costs less, and neither do fewer fields. */
  lemma OverconfidenceMonotone(less: real, more: real, few: nat, many: nat)
    requires less <= more && few <= many
    ensures OverconfidencePoints(Some(less), many) <= OverconfidencePoints(Some(more), few)
  {
  }

  /** A fifth for each of totals, breakdown, confidence, sources and assumptions. */
  lemma CompletenessIsFifths(r: Response)
    ensures CompletenessScore(r) * 5.0 ==
            (Points(r.emissions.Some? && r.emissions.value.scope1 != Missing && r.emissions.value.scope2 != Missing
                    && r.emissions.value.scope3 != Missing && r.emissions.value.total != Missing, 1)
             + Points(r.breakdown.Some? && r.breakdown.value != Breakdown(None, None, None), 1)
             + Points(r.confidence.Some? && 0.0 <= r.confidence.value <= 1.0, 1)
             + Points(r.sources.Some? && r.sources.value != [], 1)
             + Points(r.assumptions.Some? && r.assumptions.value != [], 1)) as real
  {
    FieldsBounds(r);
    FifthsAreExact(FieldsPresent(r));
    hide Round4;
  }

  /** The weights of accuracy, compliance, completeness, sanity and benchmark, in hundredths. */
  function Composite(p: Parts, truth: bool): real {
    if truth then 40.0 * p.accuracy + 25.0 * p.compliance + 15.0 * p.completeness + 15.0 * p.sanity + 5.0 * p.benchmark
    else 5.0 + 35.0 * p.compliance + 20.0 * p.completeness + 25.0 * p.sanity + 10.0 * p.benchmark
  }

  /** The final score of every response: the weighted axes less the deduction, not below zero, to four places. */
  lemma FinalIsComposite(r: Response, q: Questionnaire, truth: Option<Truth>, split: Option<Split>)
    requires r.emissions.Some?
    ensures var e := r.emissions.value;
            var axes := Parts(if truth.Some? then Accuracy(e, truth.value) else 0.5,
                              ComplianceScore(e, r.breakdown, q.data), CompletenessScore(r),
                              SanityScore(e, r.confidence, q), BenchmarkScore(e, split));
            var exact := Composite(axes, truth.Some?)
                         - OverconfidencePoints(r.confidence, AllFieldCount(q.data)) as real;
            var score := 100.0 * FinalScore(r, q, truth, split);
            if exact <= 0.0 then score == 0.0 else exact - 0.005 <= score <= exact + 0.005
  {
    OverconfidenceIsRuleBook(r.confidence, q.data);
    HalfEvenOfWhole(0);
    hide Accuracy, ComplianceScore, CompletenessScore, SanityScore;
    hide BenchmarkScore, OverconfidencePenalty, AllFieldCount;
    hide OverconfidencePoints, HalfEven;
  }
}
