/**
 What each field of a questionnaire adds to the two confidences and to the field counts
 (carbonscope/utils.py, neurons/miner.py and carbonscope/scoring.py).
 */
module ConfidenceFields {
  import opened Dictionaries
  import opened Estimator
  import opened Outcomes
  import opened Protocol
  import opened Rounding
  import opened Scoring

  /** A value for a field: an amount, a head count or a name, none of them empty. */
  datatype Entered = Entered(amount: real, heads: int, name: string)

  predicate Meaningful(v: Entered) {
    v.amount != 0.0 && v.heads != 0 && v.name != ""
  }

  /** The data with this field entered. */
  function With(d: ProvidedData, f: Field, v: Entered): ProvidedData {
    match f
    case FuelLiters => d.(amounts := d.amounts.(fuelLiters := v.amount))
    case FuelType => d.(fuelType := Some(v.name))
    case GasM3 => d.(amounts := d.amounts.(gasM3 := v.amount))
    case Kwh => d.(amounts := d.amounts.(kwh := v.amount))
    case VehicleDistance => d.(amounts := d.amounts.(vehicleKm := v.amount))
    case Employees => d.(amounts := d.amounts.(employees := v.heads))
    case Revenue => d.(amounts := d.amounts.(revenue := v.amount))
    case SupplierSpend => d.(amounts := d.amounts.(supplierSpend := v.amount))
    case TonKm => d.(amounts := d.amounts.(tonKm := v.amount))
    case OfficeSqm => d.(amounts := d.amounts.(officeSqm := v.amount))
    case TravelSpend => d.(amounts := d.amounts.(travelSpend := v.amount))
    case WasteAmount => d.(amounts := d.amounts.(wasteKg := v.amount))
  }

  /** A field counts as given once it is entered, and not before; no other field is affected. */
  lemma GivenOnceEntered(d: ProvidedData, f: Field, v: Entered, other: Field)
    requires Meaningful(v)
    ensures Given(other, With(d, f, v)) <==> other == f || Given(other, d)
    ensures !Given(other, EMPTY_QUESTIONNAIRE.data)
  {
  }

  lemma {:induction false} EarnedElsewhere(weights: Dict<Field>, d: ProvidedData, f: Field, v: Entered)
    requires Meaningful(v) && !Has(weights, f)
    ensures Earned(weights, With(d, f, v)) == Earned(weights, d)
  {
    if weights.Entry? {
      hide Given, With;
      GivenOnceEntered(d, f, v, weights.key);
      EarnedElsewhere(weights.rest, d, f, v);
    }
  }

  /** Entering a field that was missing earns exactly its weight. */
  lemma {:induction false} FieldEarnsItsWeight(weights: Dict<Field>, d: ProvidedData, f: Field, v: Entered)
    requires Distinct(weights) && Meaningful(v) && !Given(f, d)
    ensures Earned(weights, With(d, f, v)) == Earned(weights, d) + Get(weights, f)
  {
    if weights.Entry? {
      hide Given, With;
      GivenOnceEntered(d, f, v, weights.key);
      if weights.key == f {
        EarnedElsewhere(weights.rest, d, f, v);
      } else {
        FieldEarnsItsWeight(weights.rest, d, f, v);
      }
    }
  }

  lemma {:induction false} NothingEarnsNothing(weights: Dict<Field>)
    ensures Earned(weights, EMPTY_QUESTIONNAIRE.data) == 0.0
  {
    if weights.Entry? {
      hide Given;
      GivenOnceEntered(EMPTY_QUESTIONNAIRE.data, FuelType, Entered(1.0, 1, "-"), weights.key);
      NothingEarnsNothing(weights.rest);
    }
  }

  /** One amount over another, to within half a ten-thousandth. */
  predicate IsShare(x: real, part: real, whole: real) {
    part - 0.00005 * whole <= x * whole <= part + 0.00005 * whole
  }

  /** Completeness is the weight earned over all the weight there is. */
  lemma CompletenessIsShare(weights: Dict<Field>, d: ProvidedData)
    requires NonNegative(weights) && Sum(weights) > 0.0
    ensures IsShare(Completeness(weights, d), Earned(weights, d), Sum(weights))
  {
    EarnedBounds(weights, d);
    CompletenessRounds(weights, d);
    hide *;
    RoundedShare(Completeness(weights, d), Earned(weights, d), Sum(weights));
  }

  lemma CompletenessRounds(weights: Dict<Field>, d: ProvidedData)
    requires Sum(weights) > 0.0 && 0.0 <= Earned(weights, d) <= Sum(weights)
    ensures var share := Earned(weights, d) / Sum(weights);
            share - 0.00005 <= Completeness(weights, d) <= share + 0.00005
  {
    hide Earned, Sum;
    RatioBounds(Earned(weights, d), Sum(weights));
  }

  lemma ProductNonNegative(x: real, y: real)
    requires x >= 0.0 && y >= 0.0
    ensures x * y >= 0.0
  {
  }

  lemma RoundedShare(x: real, part: real, whole: real)
    requires whole > 0.0 && part / whole - 0.00005 <= x <= part / whole + 0.00005
    ensures IsShare(x, part, whole)
  {
    var share := part / whole;
    assert share * whole == part;
    ProductNonNegative(x - share + 0.00005, whole);
    ProductNonNegative(share + 0.00005 - x, whole);
    assert (x - share + 0.00005) * whole == x * whole - share * whole + 0.00005 * whole;
    assert (share + 0.00005 - x) * whole == share * whole + 0.00005 * whole - x * whole;
  }

  // ---------------------------------------------------------------- how many fields are given

  lemma OthersUnchanged(d: ProvidedData, f: Field, v: Entered)
    ensures var e := With(d, f, v);
            && e.refrigerant == d.refrigerant && e.extras == d.extras && e.vehicleType == d.vehicleType
            && e.amounts.leakedKg == d.amounts.leakedKg && e.amounts.certificatesKwh == d.amounts.certificatesKwh
  {
  }

  lemma {:induction false} CountedAmong(fields: seq<Field>, d: ProvidedData, f: Field, v: Entered)
    requires Meaningful(v) && !Given(f, d)
    ensures GivenAmong(fields, With(d, f, v)) == GivenAmong(fields, d) + multiset(fields)[f]
  {
    if fields != [] {
      hide Given, With;
      GivenOnceEntered(d, f, v, fields[0]);
      CountedAmong(fields[1..], d, f, v);
      assert fields == [fields[0]] + fields[1..];
    }
  }

  lemma EachFieldOnce(f: Field)
    ensures multiset(COUNTED_FIELDS)[f] == if f == FuelType then 0 else 1
  {
  }

  lemma FieldIsCountedOnce(d: ProvidedData, f: Field, v: Entered)
    requires Meaningful(v) && !Given(f, d)
    ensures FieldCount(With(d, f, v)) == FieldCount(d) + if f == FuelType then 0 else 1
  {
    OthersUnchanged(d, f, v);
    CountedAmong(COUNTED_FIELDS, d, f, v);
    EachFieldOnce(f);
    hide Given, With, GivenAmong, One;
  }

  /** Entering a field that was missing raises the miner's count by one, except for the fuel type. */
  lemma FieldIsCounted(d: ProvidedData, f: Field, v: Entered)
    requires Meaningful(v) && !Given(f, d)
    ensures FieldCount(With(d, f, v)) == FieldCount(d) + if f == FuelType then 0 else 1
    ensures AllFieldCount(With(d, f, v)) == AllFieldCount(d) + 1
  {
    FieldIsCountedOnce(d, f, v);
    OthersUnchanged(d, f, v);
    GivenOnceEntered(d, f, v, FuelType);
    hide Given, With, FieldCount;
  }

  lemma {:induction false} SameAmong(fields: seq<Field>, d: ProvidedData, e: ProvidedData)
    requires forall f :: Given(f, e) <==> Given(f, d)
    ensures GivenAmong(fields, e) == GivenAmong(fields, d)
  {
    hide Given;
    if fields != [] {
      SameAmong(fields[1..], d, e);
    }
  }

  lemma SameFields(d: ProvidedData, leaked: real, certificates: real, refrigerant: Option<string>, extras: nat)
    ensures var a := d.amounts.(leakedKg := leaked, certificatesKwh := certificates);
            GivenAmong(COUNTED_FIELDS, ProvidedData(a, d.fuelType, d.vehicleType, refrigerant, extras))
            == GivenAmong(COUNTED_FIELDS, d)
  {
    var a := d.amounts.(leakedKg := leaked, certificatesKwh := certificates);
    SameAmong(COUNTED_FIELDS, d, ProvidedData(a, d.fuelType, d.vehicleType, refrigerant, extras));
  }

  /** A leaked amount, certificates, a refrigerant and each further field count as well. */
  lemma OtherFieldsAreCounted(
    d: ProvidedData, leaked: real, certificates: real, refrigerant: Option<string>, extras: nat)
    requires d.amounts.leakedKg == d.amounts.certificatesKwh == 0.0 && d.refrigerant == None && d.extras == 0
    ensures var a := d.amounts.(leakedKg := leaked, certificatesKwh := certificates);
            FieldCount(ProvidedData(a, d.fuelType, d.vehicleType, refrigerant, extras))
            == FieldCount(d) + extras + (if leaked != 0.0 then 1 else 0) + (if certificates != 0.0 then 1 else 0)
               + if refrigerant == None || refrigerant == Some("") then 0 else 1
  {
    SameFields(d, leaked, certificates, refrigerant, extras);
    hide GivenAmong;
  }

  /** A vehicle type counts for the validator's deduction only. */
  lemma VehicleTypeIsCounted(d: ProvidedData, name: string)
    requires d.vehicleType == None && name != ""
    ensures var e := d.(vehicleType := Some(name));
            FieldCount(e) == FieldCount(d) && AllFieldCount(e) == AllFieldCount(d) + 1
  {
    SameAmong(COUNTED_FIELDS, d, d.(vehicleType := Some(name)));
    hide GivenAmong;
  }

  /** Data without any field count nothing. */
  lemma NothingIsCounted(d: ProvidedData)
    requires AllOrNothing(d, false) && d.fuelType == d.vehicleType == d.refrigerant == None && d.extras == 0
    ensures FieldCount(d) == 0 && AllFieldCount(d) == 0
  {
    GivenAllOrNothing(d, false);
    CountedAllOrNothing(COUNTED_FIELDS, d, false);
    assert !Given(FuelType, d);
    hide GivenAmong, Given;
    assert FieldCount(d) == 0;
    hide FieldCount;
  }

  /** The input ratio is a thirteenth for each field counted, and at most one. */
  lemma RatioIsThirteenths(d: ProvidedData)
    ensures 13.0 * InputRatio(d) == if FieldCount(d) >= 13 then 13.0 else FieldCount(d) as real
  {
    hide FieldCount;
  }

  /** The miner's confidence is three parts completeness and two parts input ratio, to four places. */
  lemma ConfidenceIsBlend(completeness: real, d: ProvidedData)
    ensures var exact := 3.0 * completeness + 2.0 * InputRatio(d);
            exact - 0.00025 <= 5.0 * MinerConfidence(completeness, d) <= exact + 0.00025
  {
    hide InputRatio;
  }
}
