/**
 The validator's GHG Protocol checker (carbonscope/validation/ghg_protocol.py), and what
 it says about the estimator's own answers.
 */
module Compliance {
  import opened Dictionaries
  import opened EmissionFactors
  import opened Estimator
  import opened GapFilling
  import opened Outcomes
  import opened Protocol
  import opened Rounding

  function Expected(e: Emissions): real {
    e.scope1.OrZero() + e.scope2.OrZero() + e.scope3.OrZero()
  }

  predicate TotalMismatch(e: Emissions) {
    Expected(e) > 0.0 && Abs(e.total.OrZero() - Expected(e)) / Expected(e) > 0.01
  }

  function Negative(v: Figure): real {
    if v.OrZero() < 0.0 then 0.2 else 0.0
  }

  function Negatives(e: Emissions): real {
    Negative(e.scope1) + Negative(e.scope2) + Negative(e.scope3) + Negative(e.total)
  }

  predicate FuelWithoutScope1(e: Emissions, d: ProvidedData) {
    (d.amounts.fuelLiters > 0.0 || d.amounts.gasM3 > 0.0) && e.scope1.OrZero() == 0.0
  }

  predicate ElectricityWithoutScope2(e: Emissions, d: ProvidedData) {
    d.amounts.kwh > 0.0 && e.scope2.OrZero() == 0.0
  }

  predicate BreakdownMissing(e: Emissions, b: Option<Breakdown>) {
    b.None? && e.total.OrZero() > 0.0
  }

  /** Two positive amounts further apart than two per cent of the larger. */
  predicate FarApart(detail: real, scope: real) {
    scope > 0.0 && detail > 0.0 && Abs(detail - scope) / Max(scope, detail) > 0.02
  }

  predicate DetailMismatch<K(==)>(detail: Option<Dict<K>>, scope: Figure) {
    detail.Some? && FarApart(Sum(detail.value), scope.OrZero())
  }

  predicate LocationMismatch(detail: Option<Dict<Method>>, scope: Figure) {
    detail.Some? && FarApart(Get(detail.value, ByLocation), scope.OrZero())
  }

  function If(broken: bool, penalty: real): real {
    if broken then penalty else 0.0
  }

  function BreakdownPenalty(e: Emissions, b: Option<Breakdown>): real {
    if b.None? || e.total.OrZero() <= 0.0 then 0.0
    else
      If(DetailMismatch(b.value.scope1, e.scope1), 0.1) + If(LocationMismatch(b.value.scope2, e.scope2), 0.05)
      + If(DetailMismatch(b.value.scope3, e.scope3), 0.1)
  }

  /** One minus the penalties of the broken rules, but never below zero, when the totals are numbers. */
  function ComplianceScore(e: Emissions, b: Option<Breakdown>, d: ProvidedData): real {
    Max(1.0 - If(TotalMismatch(e), 0.25) - Negatives(e) - If(FuelWithoutScope1(e, d), 0.15)
        - If(ElectricityWithoutScope2(e, d), 0.15) - If(BreakdownMissing(e, b), 0.1) - BreakdownPenalty(e, b), 0.0)
  }

  method CheckGhgCompliance(e: Emissions, b: Option<Breakdown>, d: ProvidedData) returns (result: Result<real>)
    ensures result == if Numeric(e) then Ok(ComplianceScore(e, b, d)) else Err
  {
    hide FarApart, Sum, Get;
    if !Numeric(e) {
      return Err;
    }
    var score := 1.0;
    var s1, s2, s3, total :=
      e.scope1.OrZero(), e.scope2.OrZero(), e.scope3.OrZero(), e.total.OrZero();
    var expected := s1 + s2 + s3;
    if expected > 0.0 {
      var diff := Abs(total - expected) / expected;
      if diff > 0.01 {
        score := score - 0.25;
      }
    }
    ghost var before := score;
    var values := [e.scope1, e.scope2, e.scope3, e.total];
    for i := 0 to |values|
      invariant score == before - Charged(values, i)
    {
      if values[i].OrZero() < 0.0 {
        score := score - 0.2;
      }
    }
    assert Charged(values, 4) == Negatives(e) by {
      ChargedFour(values);
    }
    var hasFuel := d.amounts.fuelLiters > 0.0 || d.amounts.gasM3 > 0.0;
    if hasFuel && s1 == 0.0 {
      score := score - 0.15;
    }
    if d.amounts.kwh > 0.0 && s2 == 0.0 {
      score := score - 0.15;
    }
    if b.None? && total > 0.0 {
      score := score - 0.1;
    }
    if b.Some? && total > 0.0 {
      if DetailMismatch(b.value.scope1, e.scope1) {
        score := score - 0.1;
      }
      if LocationMismatch(b.value.scope2, e.scope2) {
        score := score - 0.05;
      }
      if DetailMismatch(b.value.scope3, e.scope3) {
        score := score - 0.1;
      }
    }
    result := Ok(Max(score, 0.0));
  }

  /** What the first values have been charged. */
  function Charged(values: seq<Figure>, n: nat): real
    requires n <= |values|
  {
    if n == 0 then 0.0 else Charged(values, n - 1) + Negative(values[n - 1])
  }

  lemma ChargedFour(values: seq<Figure>)
    requires |values| == 4
    ensures Charged(values, 4) == Negative(values[0]) + Negative(values[1]) + Negative(values[2]) + Negative(values[3])
  {
    assert Charged(values, 1) == Negative(values[0]);
    assert Charged(values, 2) == Negative(values[0]) + Negative(values[1]);
  }

  predicate NoRuleBroken(e: Emissions, b: Option<Breakdown>, d: ProvidedData) {
    && !TotalMismatch(e) && Negatives(e) == 0.0 && !FuelWithoutScope1(e, d) && !ElectricityWithoutScope2(e, d)
    && !BreakdownMissing(e, b) && BreakdownPenalty(e, b) == 0.0
  }

  /** For every response: the score is between 0 and 1, and 1 exactly when no rule is broken. */
  lemma ComplianceScoreBounds(e: Emissions, b: Option<Breakdown>, d: ProvidedData)
    ensures 0.0 <= ComplianceScore(e, b, d) <= 1.0
    ensures ComplianceScore(e, b, d) == 1.0 <==> NoRuleBroken(e, b, d)
  {
    hide TotalMismatch, FuelWithoutScope1, ElectricityWithoutScope2, DetailMismatch, LocationMismatch;
  }

  // ---------------------------------------------------------------- the estimator's own answers

  /** Totals that add up and breakdowns that account for them break none of the arithmetic rules. */
  lemma ConsistentScore(e: Emissions, b: Breakdown, d: ProvidedData)
    requires b.scope1.Some? && b.scope3.Some? && Consistent(e, b.scope1.value, b.scope3.value)
    requires b.scope2.Some? && Get(b.scope2.value, ByLocation) == e.scope2.value
    ensures ComplianceScore(e, Some(b), d)
         == 1.0 - If(FuelWithoutScope1(e, d), 0.15) - If(ElectricityWithoutScope2(e, d), 0.15)
  {
    hide FuelWithoutScope1, ElectricityWithoutScope2, Hundredths, AllHundredths, NonNegative, Sum, Get;
    SameAmount(e.scope1.value);
    SameAmount(e.scope2.value);
    SameAmount(e.scope3.value);
    SameTotal(Expected(e));
  }

  lemma SameAmount(x: real)
    ensures !FarApart(x, x)
  {
  }

  lemma SameTotal(x: real)
    ensures x > 0.0 ==> Abs(x - x) / x == 0.0
  {
  }

  /** A source that comes to at most half a hundredth of a kilogram. */
  predicate FuelNegligible(t: Tables, d: ProvidedData)
    requires Valid(t)
  {
    d.amounts.fuelLiters * Fallback(t.fuels, d.fuelType.UnwrapOr("diesel"), t.fuels[DIESEL]) <= 0.005
  }

  predicate GasNegligible(t: Tables, d: ProvidedData)
    requires Valid(t)
  {
    d.amounts.gasM3 * Fallback(t.fuels, NATURAL_GAS, t.fuels[DIESEL]) <= 0.005
  }

  predicate VehiclesNegligible(t: Tables, d: ProvidedData)
    requires Valid(t)
  {
    var vehicle := Fallback(t.vehicles, d.vehicleType.UnwrapOr("heavy_truck_diesel"), t.vehicles[HEAVY_TRUCK]);
    d.amounts.vehicleKm * vehicle.kgPerKm <= 0.005
  }

  predicate LeakNegligible(t: Tables, d: ProvidedData)
    requires Valid(t)
  {
    Leaks(d) ==>
      var kind := d.refrigerant.value;
      d.amounts.leakedKg * Fallback(t.refrigerants, kind, Fallback(t.gwp, kind, DEFAULT_GWP)) <= 0.005
  }

  predicate DirectNegligible(t: Tables, d: ProvidedData)
    requires Valid(t)
  {
    FuelNegligible(t, d) && GasNegligible(t, d) && VehiclesNegligible(t, d) && LeakNegligible(t, d)
  }

  predicate ElectricityNegligible(t: Tables, d: ProvidedData, region: string)
    requires Valid(t)
  {
    d.amounts.kwh * (GridFactor(t, region) / 1000.0) <= 0.005
  }

  lemma EmittedIsZero(amount: real, factor: real)
    requires amount >= 0.0 && factor >= 0.0
    ensures Emitted(amount, factor) == 0.0 <==> amount * factor <= 0.005
  {
    if amount == 0.0 {
      assert amount * factor == 0.0;
    }
  }

  lemma FuelIsZero(t: Tables, d: ProvidedData)
    requires Valid(t) && d.amounts.fuelLiters >= 0.0
    ensures FuelKg(t, d) == 0.0 <==> FuelNegligible(t, d)
  {
    var factor := Fallback(t.fuels, d.fuelType.UnwrapOr("diesel"), t.fuels[DIESEL]);
    EmittedIsZero(d.amounts.fuelLiters, factor);
    assert FuelKg(t, d) == Emitted(d.amounts.fuelLiters, factor) by {
      hide Fallback, Hundredths;
    }
    hide Emitted, Fallback;
  }

  lemma GasIsZero(t: Tables, d: ProvidedData)
    requires Valid(t) && d.amounts.gasM3 >= 0.0
    ensures GasKg(t, d) == 0.0 <==> GasNegligible(t, d)
  {
    var factor := Fallback(t.fuels, NATURAL_GAS, t.fuels[DIESEL]);
    EmittedIsZero(d.amounts.gasM3, factor);
    hide Emitted, Fallback;
  }

  lemma VehiclesAreZero(t: Tables, d: ProvidedData)
    requires Valid(t) && d.amounts.vehicleKm >= 0.0
    ensures VehicleKg(t, d) == 0.0 <==> VehiclesNegligible(t, d)
  {
    var vehicle := Fallback(t.vehicles, d.vehicleType.UnwrapOr("heavy_truck_diesel"), t.vehicles[HEAVY_TRUCK]);
    EmittedIsZero(d.amounts.vehicleKm, vehicle.kgPerKm);
    hide Emitted, Fallback;
  }

  lemma LeakIsZero(t: Tables, d: ProvidedData)
    requires Valid(t)
    ensures LeakKg(t, d) == 0.0 <==> LeakNegligible(t, d)
  {
    hide Hundredths;
  }

  lemma Scope1IsZero(t: Tables, d: ProvidedData)
    requires Valid(t) && AmountsInRange(d.amounts)
    ensures Scope1Kg(t, d) == 0.0 <==> DirectNegligible(t, d)
  {
    FuelIsZero(t, d);
    GasIsZero(t, d);
    VehiclesAreZero(t, d);
    LeakIsZero(t, d);
    Scope1PartsAreKilograms(t, d);
    hide FuelKg, GasKg, VehicleKg, LeakKg, FuelNegligible, GasNegligible, VehiclesNegligible, LeakNegligible;
    hide Valid, Hundredths;
  }

  lemma Scope2IsZero(t: Tables, d: ProvidedData, region: string)
    requires Valid(t) && AmountsInRange(d.amounts)
    ensures Scope2Kg(t, d, region) == 0.0 <==> ElectricityNegligible(t, d, region)
  {
    EmittedIsZero(d.amounts.kwh, GridFactor(t, region) / 1000.0);
    hide GridFactor, Emitted;
  }

  /** Fuel was given, but every direct source rounds to zero. */
  predicate FuelVanishes(t: Tables, d: ProvidedData)
    requires Valid(t)
  {
    (d.amounts.fuelLiters > 0.0 || d.amounts.gasM3 > 0.0) && DirectNegligible(t, d)
  }

  predicate ElectricityVanishes(t: Tables, d: ProvidedData, region: string)
    requires Valid(t)
  {
    d.amounts.kwh > 0.0 && ElectricityNegligible(t, d, region)
  }

  /** What the checker gives either implementation's answer. */
  function OwnScore(t: Tables, q: Questionnaire): real
    requires Valid(t)
  {
    1.0 - If(FuelVanishes(t, q.data), 0.15) - If(ElectricityVanishes(t, q.data, SettingOf(q).region), 0.15)
  }

  lemma OwnScoreFromTotals(t: Tables, q: Questionnaire)
    requires Valid(t) && AmountsInRange(q.data.amounts)
    ensures var d, s := q.data, SettingOf(q);
            var e := Totals(Scope1Kg(t, d), Scope2Kg(t, d, s.region), Sum(Scope3Detail(t, d, s)));
            && (FuelWithoutScope1(e, d) <==> FuelVanishes(t, d))
            && (ElectricityWithoutScope2(e, d) <==> ElectricityVanishes(t, d, s.region))
  {
    var d, s := q.data, SettingOf(q);
    Scope1IsZero(t, d);
    Scope2IsZero(t, d, s.region);
    AnswersAreConsistent(t, d, s);
    hide Scope1Kg, Scope2Kg, Scope3Detail, DirectNegligible, ElectricityNegligible, Valid, Totals, Consistent, Sum;
  }

  lemma MethodsShowScope2(t: Tables, d: ProvidedData, s: Setting, supplierFactor: Option<real>)
    requires Valid(t)
    ensures var methods := Scope2Methods(t, d, s.region, supplierFactor);
            Get(if d.amounts.kwh > 0.0 then methods else Empty, ByLocation) == Scope2Kg(t, d, s.region)
  {
    NoElectricityNoEmission(t, d, s.region, supplierFactor);
    hide Scope2Kg, MarketKg;
  }

  /**
   The miner's own answer is marked down only where the checker sees activity that the
   calculators round to zero: fuel whose direct emissions, or electricity whose
   location-based emissions, all come to at most half a hundredth of a kilogram.
   */
  lemma MinerAnswerScore(t: Tables, w: FieldWeights, q: Questionnaire, supplierFactor: Option<real>, r: Response)
    requires Valid(t) && AmountsInRange(q.data.amounts) && MinerAnswer(t, w, q, supplierFactor, r)
    ensures ComplianceScore(r.emissions.value, r.breakdown, q.data) == OwnScore(t, q)
    ensures ComplianceScore(r.emissions.value, r.breakdown, q.data) == 1.0 <==>
            !FuelVanishes(t, q.data) && !ElectricityVanishes(t, q.data, SettingOf(q).region)
  {
    hide Scope1Kg, Scope2Kg, Scope3Detail, MinerScope1, Valid, Totals, Consistent, ComplianceScore;
    hide FuelVanishes, ElectricityVanishes, FuelWithoutScope1, ElectricityWithoutScope2, Completeness, MinerConfidence;
    hide NonEmpty, Sum, Fallback, AmountsInRange, Scope2Methods, Get;
    MethodsShowScope2(t, q.data, SettingOf(q), supplierFactor);
    AnswersAreConsistent(t, q.data, SettingOf(q));
    OwnScoreFromTotals(t, q);
    ConsistentScore(r.emissions.value, r.breakdown.value, q.data);
  }

  /** The platform's copy of the estimate is judged exactly alike. */
  lemma LocalAnswerScore(t: Tables, w: FieldWeights, q: Questionnaire, supplierFactor: Option<real>, r: Response)
    requires Valid(t) && AmountsInRange(q.data.amounts) && LocalAnswer(t, w, q, supplierFactor, r)
    ensures ComplianceScore(r.emissions.value, r.breakdown, q.data) == OwnScore(t, q)
  {
    hide Scope1Kg, Scope2Kg, MarketKg, Scope3Detail, LocalScope1, Valid, Totals, Consistent, ComplianceScore;
    hide FuelVanishes, ElectricityVanishes, FuelWithoutScope1, ElectricityWithoutScope2, Completeness;
    AnswersAreConsistent(t, q.data, SettingOf(q));
    OwnScoreFromTotals(t, q);
    ConsistentScore(r.emissions.value, r.breakdown.value, q.data);
  }

  /** A thimble of fuel: a valid questionnaire whose answer loses 0.15. */
  lemma OwnAnswerCanBeMarkedDown() returns (t: Tables, q: Questionnaire)
    ensures Valid(t) && ValidQuestionnaire(q)
    ensures OwnScore(t, WithDefaults(q)) == 0.85
  {
    var industry := Industry(Profile(Empty, None, None, 0.0), None);
    t := Tables(map[DIESEL := 2.0], map[HEAVY_TRUCK := Vehicle(1.0, None)], map[], map[], map[], map[], map[], map[],
                0.0, map[ROAD := 1.0], map[MANUFACTURING := industry], map[], None, map[], None);
    var a := Amounts(0.001, 0.0, 0.0, 0.0, 0, 0.0, 0.0, 0.0, 0.0, 0.0, 0.0, 0.0, 0.0);
    q := Questionnaire(None, None, None, ProvidedData(a, None, None, None, 0));
    assert Valid(t);
    hide Valid, GridFactor;
    ThimbleVanishes(t, WithDefaults(q).data);
  }

  lemma ThimbleVanishes(t: Tables, d: ProvidedData)
    requires Valid(t) && t.fuels == map[DIESEL := 2.0]
    requires d.amounts.fuelLiters == 0.001 && d.amounts.gasM3 == d.amounts.vehicleKm == 0.0 && d.refrigerant == None
    ensures FuelVanishes(t, d)
  {
    assert Fallback(t.fuels, d.fuelType.UnwrapOr("diesel"), t.fuels[DIESEL]) == 2.0;
  }
}
