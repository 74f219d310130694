/**
 What is accepted as a questionnaire, what an answer's notes say, and what the validators of
 a response correct (neurons/miner.py, api/services/subnet_bridge.py, carbonscope/protocol.py).
 */
module AnswerRules {
  import opened ConfidenceFields
  import opened Dictionaries
  import opened EmissionFactors
  import opened Estimator
  import opened GapFilling
  import opened Outcomes
  import opened Protocol

  // ---------------------------------------------------------------- questionnaires

  /** The most that a field's amount may be; head counts are an amount too, and the fuel type is none. */
  predicate Limit(f: Field, most: real) {
    match f
    case FuelLiters => most == 10000000.0
    case FuelType => false
    case GasM3 => most == 100000000.0
    case Kwh => most == 1000000000.0
    case VehicleDistance => most == 100000000.0
    case Employees => most == 1000000.0
    case Revenue => most == 1000000000000.0
    case SupplierSpend => most == 1000000000000.0
    case TonKm => most == 10000000000.0
    case OfficeSqm => most == 100000000.0
    case TravelSpend => most == 1000000000.0
    case WasteAmount => most == 1000000000.0
  }

  /** An amount in an otherwise valid questionnaire is accepted exactly from zero up to its limit. */
  lemma AmountIsLimited(q: Questionnaire, f: Field, v: Entered, most: real)
    requires ValidQuestionnaire(q) && Limit(f, most)
    ensures ValidQuestionnaire(q.(data := With(q.data, f, v)))
            <==> 0.0 <= (if f == Employees then v.heads as real else v.amount) <= most
  {
  }

  /** So are a leaked amount and certificates, and years and names are from what is on record. */
  lemma RestIsLimited(q: Questionnaire, leaked: real, certificates: real, year: int, fuel: string, industry: string)
    requires ValidQuestionnaire(q)
    ensures ValidQuestionnaire(q.(data := q.data.(amounts := q.data.amounts.(leakedKg := leaked))))
            <==> 0.0 <= leaked <= 1000000.0
    ensures ValidQuestionnaire(q.(data := q.data.(amounts := q.data.amounts.(certificatesKwh := certificates))))
            <==> 0.0 <= certificates <= 1000000000.0
    ensures ValidQuestionnaire(q.(year := Some(year))) <==> 1990 <= year <= 2100
    ensures ValidQuestionnaire(q.(data := q.data.(fuelType := Some(fuel)))) <==> fuel in VALID_FUEL_TYPES
    ensures ValidQuestionnaire(q.(industry := Some(industry))) <==> industry in VALID_INDUSTRIES
  {
  }

  // ---------------------------------------------------------------- what a breakdown lists

  lemma HasSetIf<K>(given: bool, d: Dict<K>, k: K, v: real, other: K)
    ensures Has(SetIf(given, d, k, v), other) <==> (given && other == k) || Has(d, other)
  {
    GetSet(d, k, v, other);
  }

  /** What there is of a source in the data. */
  function SourceAmount(d: ProvidedData, k: Source): real {
    match k
    case Stationary => d.amounts.fuelLiters
    case NaturalGas => d.amounts.gasM3
    case Mobile => d.amounts.vehicleKm
    case Fugitive => if d.refrigerant.Some? && d.refrigerant.value != "" then d.amounts.leakedKg else 0.0
    case OtherSource(_) => 0.0
  }

  /** The platform lists exactly the sources there is something of. */
  lemma LocalSourcesListed(t: Tables, d: ProvidedData, k: Source)
    requires Valid(t)
    ensures Has(LocalScope1(t, d), k) <==> SourceAmount(d, k) > 0.0
  {
    hide FuelKg, GasKg, VehicleKg, LeakKg, SetIf, Valid;
    var fuel := SetIf(d.amounts.fuelLiters > 0.0, Empty, Stationary, FuelKg(t, d));
    var gas := SetIf(d.amounts.gasM3 > 0.0, fuel, NaturalGas, GasKg(t, d));
    var vehicles := SetIf(d.amounts.vehicleKm > 0.0, gas, Mobile, VehicleKg(t, d));
    HasSetIf(d.amounts.fuelLiters > 0.0, Empty, Stationary, FuelKg(t, d), k);
    HasSetIf(d.amounts.gasM3 > 0.0, fuel, NaturalGas, GasKg(t, d), k);
    HasSetIf(d.amounts.vehicleKm > 0.0, gas, Mobile, VehicleKg(t, d), k);
    HasSetIf(Leaks(d), vehicles, Fugitive, LeakKg(t, d), k);
  }

  /** So does the miner, with natural gas as part of stationary combustion. */
  lemma MinerSourcesListed(t: Tables, d: ProvidedData, k: Source)
    requires Valid(t)
    ensures Has(MinerScope1(t, d), k) <==>
            if k == NaturalGas then false
            else SourceAmount(d, k) > 0.0 || (k == Stationary && SourceAmount(d, NaturalGas) > 0.0)
  {
    hide FuelKg, GasKg, VehicleKg, LeakKg, SetIf, Valid, Get;
    var fuel := SetIf(d.amounts.fuelLiters > 0.0, Empty, Stationary, FuelKg(t, d));
    var gas := SetIf(d.amounts.gasM3 > 0.0, fuel, Stationary, Get(fuel, Stationary) + GasKg(t, d));
    var vehicles := SetIf(d.amounts.vehicleKm > 0.0, gas, Mobile, VehicleKg(t, d));
    HasSetIf(d.amounts.fuelLiters > 0.0, Empty, Stationary, FuelKg(t, d), k);
    HasSetIf(d.amounts.gasM3 > 0.0, fuel, Stationary, Get(fuel, Stationary) + GasKg(t, d), k);
    HasSetIf(d.amounts.vehicleKm > 0.0, gas, Mobile, VehicleKg(t, d), k);
    HasSetIf(Leaks(d), vehicles, Fugitive, LeakKg(t, d), k);
  }

  /** What there is of a category in the data. */
  predicate CategoryGiven(d: ProvidedData, k: Category) {
    match k
    case PurchasedGoods => d.amounts.supplierSpend > 0.0
    case UpstreamTransport => d.amounts.tonKm > 0.0
    case Waste => d.amounts.wasteKg > 0.0
    case BusinessTravel => d.amounts.travelSpend > 0.0 || d.amounts.employees > 0
    case Commuting => d.amounts.employees > 0
    case Other(_) => false
  }

  lemma ActivityListed(t: Tables, d: ProvidedData, s: Setting, k: Category)
    requires Valid(t)
    ensures Has(ActivityScope3(t, d, s), k) <==> CategoryGiven(d, k)
  {
    hide SetIf, Valid, PurchasedGoodsKg, TransportKg, WasteKg, BusinessTravelKg, CommutingKg;
    var a := d.amounts;
    var goods := SetIf(a.supplierSpend > 0.0, Empty, PurchasedGoods, PurchasedGoodsKg(t, a.supplierSpend, s.industry));
    var transport := SetIf(a.tonKm > 0.0, goods, UpstreamTransport, TransportKg(t, a.tonKm, ROAD));
    var waste := SetIf(a.wasteKg > 0.0, transport, Waste, WasteKg(a.wasteKg));
    var travel := SetIf(Travels(d), waste, BusinessTravel, BusinessTravelKg(t, a.employees, s.industry, a.travelSpend));
    HasSetIf(a.supplierSpend > 0.0, Empty, PurchasedGoods, PurchasedGoodsKg(t, a.supplierSpend, s.industry), k);
    HasSetIf(a.tonKm > 0.0, goods, UpstreamTransport, TransportKg(t, a.tonKm, ROAD), k);
    HasSetIf(a.wasteKg > 0.0, transport, Waste, WasteKg(a.wasteKg), k);
    HasSetIf(Travels(d), waste, BusinessTravel, BusinessTravelKg(t, a.employees, s.industry, a.travelSpend), k);
    HasSetIf(a.employees > 0, travel, Commuting, CommutingKg(t, a.employees, s.region), k);
  }

  /**
   Without revenue and employees there is nothing to estimate gaps from: Scope 3 lists
   exactly what there is data for.
   */
  lemma CategoriesListed(t: Tables, d: ProvidedData, s: Setting, k: Category)
    requires Valid(t) && d.amounts.revenue <= 0.0 && d.amounts.employees <= 0
    ensures Has(Scope3Detail(t, d, s), k) <==> CategoryGiven(d, k)
  {
    ActivityListed(t, d, s, k);
    hide ActivityScope3, CategoryGiven, Fill, Normalised;
  }

  // ---------------------------------------------------------------- notes

  lemma {:induction false} FilledInIff(detail: Dict<Category>)
    ensures FilledIn(detail) <==> exists name :: Has(detail, Other(name))
  {
    if detail.Entry? {
      FilledInIff(detail.rest);
      if detail.key.Other? {
        assert Has(detail, Other(detail.key.name));
      }
      if FilledIn(detail.rest) {
        var name :| Has(detail.rest, Other(name));
        assert Has(detail, Other(name));
      }
    }
  }

  /** When an assumption is stated, other than that there is nothing to assume. */
  predicate Assumes(d: ProvidedData, s: Setting, supplierFactor: Option<real>, detail: Dict<Category>, note: Note) {
    match note
    case VehicleFleet(name) =>
      d.amounts.vehicleKm > 0.0 && name == if d.vehicleType.Some? then d.vehicleType.value else "heavy_truck_diesel"
    case SupplierFactor(grams) => d.amounts.kwh > 0.0 && supplierFactor == Some(grams) && grams != 0.0
    case Certificates(kwh) => d.amounts.kwh > 0.0 && kwh == d.amounts.certificatesKwh && kwh > 0.0
    case SpendBasedGoods => d.amounts.supplierSpend > 0.0
    case AssumedRoad => d.amounts.tonKm > 0.0
    case RegionalCommuting(region) => d.amounts.employees > 0 && region == s.region
    case FilledFromAverages => FilledIn(detail)
    case _ => false
  }

  /** When a source is cited because something was taken from it. */
  predicate Cites(d: ProvidedData, s: Setting, detail: Dict<Category>, note: Note) {
    match note
    case EpaFactors => d.amounts.fuelLiters > 0.0
    case GridFactorFor(region) => d.amounts.kwh > 0.0 && region == s.region
    case TransportFactors => d.amounts.tonKm > 0.0
    case IndustryBenchmarks => FilledIn(detail)
    case _ => false
  }

  lemma DirectAssumptions(d: ProvidedData, s: Setting, supplierFactor: Option<real>, detail: Dict<Category>, note: Note)
    ensures note in Scope1Assumptions(d) <==> note.VehicleFleet? && Assumes(d, s, supplierFactor, detail, note)
    ensures note in Scope2Assumptions(d, supplierFactor) <==>
            (note.SupplierFactor? || note.Certificates?) && Assumes(d, s, supplierFactor, detail, note)
  {
    hide FilledIn;
  }

  lemma ChainAssumptions(d: ProvidedData, s: Setting, supplierFactor: Option<real>, detail: Dict<Category>, note: Note)
    ensures note in Scope3Assumptions(d, s, detail) <==>
            && !note.VehicleFleet? && !note.SupplierFactor? && !note.Certificates?
            && Assumes(d, s, supplierFactor, detail, note)
  {
    hide FilledIn;
  }

  /** The miner states exactly the assumptions it made, or else the standard methodology. */
  lemma AssumptionsIff(d: ProvidedData, s: Setting, supplierFactor: Option<real>, detail: Dict<Category>, note: Note)
    ensures note in MinerAssumptions(d, s, supplierFactor, detail) <==>
            || Assumes(d, s, supplierFactor, detail, note)
            || (note == StandardMethodology && MinerAssumptions(d, s, supplierFactor, detail) == [note])
  {
    DirectAssumptions(d, s, supplierFactor, detail, note);
    ChainAssumptions(d, s, supplierFactor, detail, note);
    hide Scope1Assumptions, Scope2Assumptions, Scope3Assumptions, FilledIn;
  }

  /** And it cites exactly the sources it used, or else the emission factors. */
  lemma SourcesIff(d: ProvidedData, s: Setting, detail: Dict<Category>, note: Note)
    ensures note in MinerSources(d, s, detail) <==>
            Cites(d, s, detail, note) || (note == EpaFactors && MinerSources(d, s, detail) == [note])
  {
    hide FilledIn;
  }

  lemma LackingIff(a: Amounts)
    ensures NoDirectData in LocalAssumptions(a) <==> a.fuelLiters == a.gasM3 == a.vehicleKm == 0.0
    ensures NoElectricityData in LocalAssumptions(a) <==> a.kwh == 0.0
    ensures NoSpendData in LocalAssumptions(a) <==> a.supplierSpend == 0.0
    ensures |LocalAssumptions(a)| <= 3
  {
  }

  /** What the miner's answer states and cites, note by note. */
  lemma MinerNotes(
    t: Tables, w: FieldWeights, q: Questionnaire, supplierFactor: Option<real>, r: Response, note: Note)
    requires Valid(t) && MinerAnswer(t, w, q, supplierFactor, r)
    ensures var detail := Scope3Detail(t, q.data, SettingOf(q));
            && r.assumptions.Some? && r.sources.Some? && r.assumptions.value != [] && r.sources.value != []
            && (note in r.assumptions.value <==>
                  Assumes(q.data, SettingOf(q), supplierFactor, detail, note)
                  || (note == StandardMethodology && r.assumptions.value == [note]))
            && (note in r.sources.value <==>
                  Cites(q.data, SettingOf(q), detail, note) || (note == EpaFactors && r.sources.value == [note]))
  {
    hide Scope1Kg, Scope2Kg, Scope3Detail, MinerScope1, Scope2Methods, Totals, Completeness, MinerConfidence, Valid;
    hide Assumes, Cites, MinerAssumptions, MinerSources, FilledIn;
    AssumptionsIff(q.data, SettingOf(q), supplierFactor, Scope3Detail(t, q.data, SettingOf(q)), note);
    SourcesIff(q.data, SettingOf(q), Scope3Detail(t, q.data, SettingOf(q)), note);
    NotesNotEmpty(q.data, SettingOf(q), supplierFactor, Scope3Detail(t, q.data, SettingOf(q)));
  }

  lemma NotesNotEmpty(d: ProvidedData, s: Setting, supplierFactor: Option<real>, detail: Dict<Category>)
    ensures MinerAssumptions(d, s, supplierFactor, detail) != [] && MinerSources(d, s, detail) != []
  {
  }

  /** The platform's answer cites three databases and states what was lacking. */
  lemma LocalNotes(t: Tables, w: FieldWeights, q: Questionnaire, supplierFactor: Option<real>, r: Response)
    requires Valid(t) && LocalAnswer(t, w, q, supplierFactor, r)
    ensures var a := q.data.amounts;
            && r.sources.Some? && r.sources.value == [EpaDatabase, GridDatabases, IndustryDatabase]
            && r.assumptions.Some? && |r.assumptions.value| <= 3
            && (NoDirectData in r.assumptions.value <==> a.fuelLiters == a.gasM3 == a.vehicleKm == 0.0)
            && (NoElectricityData in r.assumptions.value <==> a.kwh == 0.0)
            && (NoSpendData in r.assumptions.value <==> a.supplierSpend == 0.0)
  {
    hide Scope1Kg, Scope2Kg, Scope3Detail, LocalScope1, Scope2Methods, Totals, Completeness, Valid, LocalAssumptions;
    LackingIff(q.data.amounts);
  }

  // ---------------------------------------------------------------- the validators of a response

  /** A negative amount becomes zero, and everything else stays. */
  predicate Corrected(was: Figure, is': Figure) {
    is' == if was.Amount? && was.value < 0.0 then Amount(0.0) else was
  }

  /** Negative figures become zero; a confidence above one becomes one, and an error mark stays; the rest is kept. */
  lemma CleanedFacts(r: Response)
    ensures r.emissions.None? ==> Cleaned(r).emissions.None?
    ensures r.emissions.Some? ==>
              && Cleaned(r).emissions.Some?
              && var (was, is') := (r.emissions.value, Cleaned(r).emissions.value);
                 && Corrected(was.scope1, is'.scope1) && Corrected(was.scope2, is'.scope2)
                 && Corrected(was.scope3, is'.scope3) && Corrected(was.total, is'.total)
    ensures Cleaned(r).confidence
         == if r.confidence.Some? && r.confidence.value > 1.0 then Some(1.0) else r.confidence
    ensures Cleaned(Cleaned(r)) == Cleaned(r)
    ensures Cleaned(r).breakdown == r.breakdown && Cleaned(r).sources == r.sources
    ensures Cleaned(r).assumptions == r.assumptions
  {
  }
}
