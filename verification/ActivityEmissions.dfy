/**
 What the reported emissions have to do with the activity data: amount times factor, to
 within the rounding, with the factors that the tables hold for the names given.
 */
module ActivityEmissions {
  import opened Dictionaries
  import opened EmissionFactors
  import opened Estimator
  import opened GapFilling
  import opened Outcomes
  import opened Protocol
  import opened Rounding

  // ---------------------------------------------------------------- the factors for a name

  /** The factor under a name, or under the other name when there is none. */
  predicate FactorUnder(m: map<string, real>, name: string, otherwise: string, factor: real) {
    && (name in m ==> factor == m[name])
    && (name !in m ==> otherwise in m && factor == m[otherwise])
  }

  predicate VehicleFactor(t: Tables, name: string, kgPerKm: real) {
    && (name in t.vehicles ==> kgPerKm == t.vehicles[name].kgPerKm)
    && (name !in t.vehicles ==>
          "heavy_truck_diesel" in t.vehicles && kgPerKm == t.vehicles["heavy_truck_diesel"].kgPerKm)
  }

  /** Common refrigerants go before the table of gases, and an unknown one counts as HFC-134a. */
  predicate LeakFactor(t: Tables, name: string, gwp: real) {
    && (name in t.refrigerants ==> gwp == t.refrigerants[name])
    && (name !in t.refrigerants && name in t.gwp ==> gwp == t.gwp[name])
    && (name !in t.refrigerants && name !in t.gwp ==> gwp == 1530.0)
  }

  /** Grams per kWh: a subregion goes before a state, a state before a country, and that before a group of countries. */
  predicate ElectricityFactor(t: Tables, region: string, grams: real) {
    && (region in t.subregions ==> grams == t.subregions[region])
    && (region in t.stateToSubregion && region !in t.subregions ==>
          t.stateToSubregion[region] in t.subregions && grams == t.subregions[t.stateToSubregion[region]])
    && (region in t.countries && region !in t.stateToSubregion && region !in t.subregions ==>
          grams == t.countries[region])
    && (region !in t.countries && region !in t.stateToSubregion && region !in t.subregions ==>
          if region in t.regionalAverages then grams == t.regionalAverages[region] else grams == t.globalAverage)
  }

  /** A supplier's own factor goes before the grid's, unless it is negative. */
  predicate SuppliedFactor(t: Tables, region: string, supplier: Option<real>, grams: real) {
    && (supplier.Some? && supplier.value >= 0.0 ==> grams == supplier.value)
    && (supplier.None? || supplier.value < 0.0 ==> ElectricityFactor(t, region, grams))
  }

  /** An industry's factor, that of manufacturing when the industry is unknown, and the default when it has none. */
  predicate SpendFactor(t: Tables, industry: string, kgPer1000: real) {
    && (industry in t.industries ==> ProfileFactor(t.industries[industry].spendFactor, 3.0, kgPer1000))
    && (industry !in t.industries && "manufacturing" in t.industries ==>
          ProfileFactor(t.industries["manufacturing"].spendFactor, 3.0, kgPer1000))
  }

  predicate ProfileFactor(given: Option<real>, default: real, factor: real) {
    if given.Some? then factor == given.value else factor == default
  }

  /** Tonnes per employee: the average under a name, else the overall one, else one and a half. */
  predicate PerEmployee(averages: map<string, real>, overall: Option<real>, name: string, tonnes: real) {
    if name in averages then tonnes == averages[name] else ProfileFactor(overall, 1.5, tonnes)
  }

  // ---------------------------------------------------------------- Scopes 1 and 2

  /** What an amount comes to at a factor; an amount that is not positive comes to nothing. */
  function Product(amount: real, factor: real): real {
    if amount > 0.0 then amount * factor else 0.0
  }

  predicate Close(kg: real, exact: real, slack: real) {
    exact - slack <= kg <= exact + slack
  }

  /** The factors for one questionnaire's fuel, natural gas, vehicle, refrigerant and region. */
  datatype Factors = Factors(fuel: real, gas: real, vehicle: real, leak: real, grid: real)

  predicate FactorsFor(t: Tables, q: Questionnaire, f: Factors) {
    && FactorUnder(t.fuels, if q.data.fuelType.Some? then q.data.fuelType.value else "diesel", "diesel", f.fuel)
    && FactorUnder(t.fuels, "natural_gas", "diesel", f.gas)
    && VehicleFactor(t, if q.data.vehicleType.Some? then q.data.vehicleType.value else "heavy_truck_diesel", f.vehicle)
    && (q.data.refrigerant.Some? ==> LeakFactor(t, q.data.refrigerant.value, f.leak))
    && ElectricityFactor(t, if q.region.Some? then q.region.value else "US", f.grid)
  }

  function Leaked(d: ProvidedData): real {
    if d.refrigerant.Some? && d.refrigerant.value != "" then d.amounts.leakedKg else 0.0
  }

  lemma EmittedIsClose(amount: real, factor: real)
    requires factor >= 0.0
    ensures Close(Emitted(amount, factor), Product(amount, factor), 0.005)
    ensures Product(amount, factor) > 0.005 ==> Emitted(amount, factor) > 0.0
  {
  }

  lemma FuelIsClose(t: Tables, name: string, amount: real, factor: real)
    requires Valid(t) && FactorUnder(t.fuels, name, "diesel", factor)
    ensures Close(StationaryCombustion(t, name, amount, Liters), Product(amount, factor), 0.005)
    ensures Close(StationaryCombustion(t, name, amount, CubicMetres), Product(amount, factor), 0.005)
  {
    EmittedIsClose(amount, factor);
    hide Emitted;
  }

  /** Natural gas in therms or kilowatt-hours is taken in cubic metres. */
  lemma ConvertedGasIsClose(t: Tables, amount: real, factor: real)
    requires Valid(t) && FactorUnder(t.fuels, "natural_gas", "diesel", factor)
    ensures Close(StationaryCombustion(t, "natural_gas", amount, Therms), Product(amount * 2.83168, factor), 0.005)
    ensures Close(StationaryCombustion(t, "natural_gas", amount, KWh), Product(amount * 0.0949, factor), 0.005)
  {
    EmittedIsClose(amount * 2.83168, factor);
    EmittedIsClose(amount * 0.0949, factor);
    hide Emitted;
  }

  /**
   A vehicle's fuel goes before the distance, and counts as the vehicle's kind of fuel,
   diesel if that is not known.
   */
  lemma VehicleFuelIsClose(t: Tables, name: string, km: real, liters: real, fuel: string, factor: real)
    requires Valid(t) && liters > 0.0 && FactorUnder(t.fuels, fuel, "diesel", factor)
    requires if name in t.vehicles && t.vehicles[name].fuelType.Some? then fuel == t.vehicles[name].fuelType.value
             else fuel == "diesel"
    ensures Close(MobileCombustion(t, name, km, liters), Product(liters, factor), 0.005)
  {
    FuelIsClose(t, fuel, liters, factor);
    hide StationaryCombustion, Valid;
  }

  lemma VehicleIsClose(t: Tables, name: string, km: real, factor: real)
    requires Valid(t) && VehicleFactor(t, name, factor)
    ensures Close(MobileCombustion(t, name, km, 0.0), Product(km, factor), 0.005)
  {
    EmittedIsClose(km, factor);
    hide Emitted, StationaryCombustion;
  }

  lemma LeakIsClose(t: Tables, name: string, kg: real, factor: real)
    requires Valid(t) && LeakFactor(t, name, factor)
    ensures Close(FugitiveEmissions(t, name, kg), Product(kg, factor), 0.005)
  {
    EmittedIsClose(kg, factor);
    hide Emitted;
  }

  lemma DirectSourcesAreClose(t: Tables, q: Questionnaire, f: Factors)
    requires Valid(t) && FactorsFor(t, q, f)
    ensures Close(FuelKg(t, q.data), Product(q.data.amounts.fuelLiters, f.fuel), 0.005)
    ensures Close(GasKg(t, q.data), Product(q.data.amounts.gasM3, f.gas), 0.005)
    ensures Close(VehicleKg(t, q.data), Product(q.data.amounts.vehicleKm, f.vehicle), 0.005)
    ensures Close(LeakKg(t, q.data), Product(Leaked(q.data), f.leak), 0.005)
  {
    hide Valid, FactorUnder, VehicleFactor, LeakFactor, ElectricityFactor;
    hide StationaryCombustion, MobileCombustion, FugitiveEmissions;
    var d := q.data;
    FuelIsClose(t, d.fuelType.UnwrapOr("diesel"), d.amounts.fuelLiters, f.fuel);
    FuelIsClose(t, "natural_gas", d.amounts.gasM3, f.gas);
    VehicleIsClose(t, d.vehicleType.UnwrapOr("heavy_truck_diesel"), d.amounts.vehicleKm, f.vehicle);
    if d.refrigerant.Some? {
      LeakIsClose(t, d.refrigerant.value, d.amounts.leakedKg, f.leak);
    }
  }

  lemma GridFactorFound(t: Tables, region: string, grams: real)
    requires Valid(t) && ElectricityFactor(t, region, grams)
    ensures GridFactor(t, region) == grams && grams >= 0.0
  {
  }

  /** A factor in grams per kWh gives kilograms. */
  lemma GramsToKilograms(kwh: real, grams: real)
    requires grams >= 0.0
    ensures Close(Emitted(kwh, grams / 1000.0), Product(kwh, grams) / 1000.0, 0.005)
  {
    EmittedIsClose(kwh, grams / 1000.0);
    assert kwh * (grams / 1000.0) == kwh * grams / 1000.0;
    hide Emitted;
  }

  lemma ElectricityIsClose(t: Tables, kwh: real, region: string, grid: real)
    requires Valid(t) && ElectricityFactor(t, region, grid)
    ensures Close(LocationBased(t, kwh, region), Product(kwh, grid) / 1000.0, 0.005)
  {
    GridFactorFound(t, region, grid);
    GramsToKilograms(kwh, grid);
    hide Emitted, GridFactor, Valid, ElectricityFactor;
  }

  /** Rounding whole hundredths again changes nothing. */
  lemma ReportedAsTheyAre(t: Tables, d: ProvidedData, s: Setting)
    requires Valid(t)
    ensures var e := Totals(Scope1Kg(t, d), Scope2Kg(t, d, s.region), Sum(Scope3Detail(t, d, s)));
            e.scope1 == Amount(Scope1Kg(t, d)) && e.scope2 == Amount(Scope2Kg(t, d, s.region))
  {
    hide Scope1Kg, Scope2Kg, Scope3Detail, MinerScope1, LocalScope1, Totals, Valid;
    AnswersAreConsistent(t, d, s);
  }

  /** An answer to the questionnaire, from either of the two implementations. */
  predicate Answers(
    t: Tables, w: FieldWeights, q: Questionnaire, supplierFactor: Option<real>, r: Response)
    requires Valid(t)
  {
    MinerAnswer(t, w, q, supplierFactor, r) || LocalAnswer(t, w, q, supplierFactor, r)
  }

  lemma AnsweredEmissions(t: Tables, w: FieldWeights, q: Questionnaire, supplierFactor: Option<real>, r: Response)
    requires Valid(t) && Answers(t, w, q, supplierFactor, r)
    ensures r.emissions.Some?
    ensures r.emissions.value.scope1 == Amount(Scope1Kg(t, q.data))
    ensures r.emissions.value.scope2 == Amount(Scope2Kg(t, q.data, SettingOf(q).region))
  {
    hide Scope1Kg, Scope2Kg, Scope3Detail, MinerScope1, LocalScope1, Totals, Completeness, MinerConfidence, Valid;
    ReportedAsTheyAre(t, q.data, SettingOf(q));
  }

  /**
   Whatever the questionnaire: the reported Scope 1 is within two hundredths of a kilogram
   of the four amounts times the factors that the tables hold for their names, and the
   reported Scope 2 within half a hundredth of the electricity times the region's factor.
   */
  lemma ReportedScopesAreActivity(
    t: Tables, w: FieldWeights, q: Questionnaire, supplierFactor: Option<real>, r: Response, f: Factors)
    requires Valid(t) && Answers(t, w, q, supplierFactor, r) && FactorsFor(t, q, f)
    ensures var a := q.data.amounts;
            && r.emissions.Some? && r.emissions.value.scope1.Amount? && r.emissions.value.scope2.Amount?
            && Close(r.emissions.value.scope1.value,
                     Product(a.fuelLiters, f.fuel) + Product(a.gasM3, f.gas) + Product(a.vehicleKm, f.vehicle)
                     + Product(Leaked(q.data), f.leak), 0.02)
            && Close(r.emissions.value.scope2.value, Product(a.kwh, f.grid) / 1000.0, 0.005)
  {
    AnsweredEmissions(t, w, q, supplierFactor, r);
    DirectSourcesAreClose(t, q, f);
    ElectricityIsClose(t, q.data.amounts.kwh, SettingOf(q).region, f.grid);
    hide Answers, Valid, FactorsFor, FuelKg, GasKg, VehicleKg, LeakKg, LocationBased, Product, Leaked;
  }

  /** Market-based: the electricity that certificates do not cover, at the supplier's or the grid's factor. */
  lemma MarketIsClose(
    t: Tables, kwh: real, region: string, supplierFactor: Option<real>, certificates: real, grams: real)
    requires Valid(t) && SuppliedFactor(t, region, supplierFactor, grams) && certificates >= 0.0
    ensures Close(MarketBased(t, kwh, region, supplierFactor, certificates),
                  Product(kwh - certificates, grams) / 1000.0, 0.005)
  {
    if supplierFactor.None? || supplierFactor.value < 0.0 {
      GridFactorFound(t, region, grams);
    }
    GramsToKilograms(Max(kwh - certificates, 0.0), grams);
    hide Emitted, GridFactor, Valid, ElectricityFactor;
  }

  lemma AnsweredMarket(t: Tables, w: FieldWeights, q: Questionnaire, supplierFactor: Option<real>, r: Response)
    requires Valid(t) && Answers(t, w, q, supplierFactor, r) && q.data.amounts.kwh > 0.0
    ensures r.breakdown.Some? && r.breakdown.value.scope2.Some?
    ensures Get(r.breakdown.value.scope2.value, ByMarket)
         == MarketBased(t, q.data.amounts.kwh, SettingOf(q).region, supplierFactor, q.data.amounts.certificatesKwh)
  {
    hide Scope1Kg, Scope3Detail, MinerScope1, LocalScope1, Totals, Completeness, MinerConfidence, Valid, MarketBased;
    hide LocationBased;
  }

  /** The breakdown's market-based figure is that of the electricity without the certificates. */
  lemma ReportedMarketIsActivity(
    t: Tables, w: FieldWeights, q: Questionnaire, supplierFactor: Option<real>, r: Response, grams: real)
    requires Valid(t) && Answers(t, w, q, supplierFactor, r)
    requires q.data.amounts.kwh > 0.0 && q.data.amounts.certificatesKwh >= 0.0
    requires SuppliedFactor(t, if q.region.Some? then q.region.value else "US", supplierFactor, grams)
    ensures r.breakdown.Some? && r.breakdown.value.scope2.Some?
    ensures Close(Get(r.breakdown.value.scope2.value, ByMarket),
                  Product(q.data.amounts.kwh - q.data.amounts.certificatesKwh, grams) / 1000.0, 0.005)
  {
    AnsweredMarket(t, w, q, supplierFactor, r);
    hide Answers, Valid, SuppliedFactor, MarketBased;
    MarketIsClose(t, q.data.amounts.kwh, SettingOf(q).region, supplierFactor, q.data.amounts.certificatesKwh, grams);
  }

  /** Without electricity the miner lists no method, and the platform both with nothing. */
  lemma WithoutElectricity(
    t: Tables, w: FieldWeights, q: Questionnaire, supplierFactor: Option<real>, miner: Response, local: Response)
    requires Valid(t) && q.data.amounts.kwh <= 0.0
    requires MinerAnswer(t, w, q, supplierFactor, miner) && LocalAnswer(t, w, q, supplierFactor, local)
    ensures miner.breakdown.value.scope2 == Some(Empty)
    ensures local.breakdown.value.scope2 == Some(Entry(ByLocation, 0.0, Entry(ByMarket, 0.0, Empty)))
  {
    NoElectricityNoEmission(t, q.data, SettingOf(q).region, supplierFactor);
    hide Scope1Kg, Scope2Kg, MarketKg, Scope3Detail, MinerScope1, LocalScope1, Totals, Completeness, MinerConfidence;
    hide Valid;
  }

  // ---------------------------------------------------------------- Scope 3

  /** The factors for one questionnaire's industry and region: spend, freight, travel and commuting. */
  datatype Factors3 = Factors3(spend: real, freight: real, travel: real, commuting: real)

  predicate Factors3For(t: Tables, s: Setting, f: Factors3) {
    && SpendFactor(t, s.industry, f.spend) && FactorUnder(t.freight, "road", "road", f.freight)
    && PerEmployee(t.travelAverages, t.travelDefault, s.industry, f.travel)
    && PerEmployee(t.commutingAverages, t.commutingDefault, s.region, f.commuting)
  }

  /** What a category's activity data come to before rounding. */
  function ActivityProduct(a: Amounts, f: Factors3, k: Category): real {
    match k
    case PurchasedGoods => Product(a.supplierSpend, f.spend) / 1000.0
    case UpstreamTransport => Product(a.tonKm, f.freight)
    case Waste => Product(a.wasteKg, 0.586)
    case BusinessTravel =>
      if a.travelSpend > 0.0 then Product(a.travelSpend, 0.3) else 1000.0 * Product(a.employees as real, f.travel)
    case Commuting => 1000.0 * Product(a.employees as real, f.commuting)
    case Other(_) => 0.0
  }

  lemma PerThousand(spend: real, factor: real)
    requires factor >= 0.0
    ensures Close(Emitted(spend / 1000.0, factor), Product(spend, factor) / 1000.0, 0.005)
    ensures Product(spend, factor) / 1000.0 > 0.005 ==> Emitted(spend / 1000.0, factor) > 0.0
  {
    EmittedIsClose(spend / 1000.0, factor);
    assert spend / 1000.0 * factor == spend * factor / 1000.0;
    hide Emitted;
  }

  /** A factor in tonnes per head gives kilograms. */
  lemma PerHead(employees: int, tonnes: real)
    requires tonnes >= 0.0
    ensures Close(Emitted(employees as real, tonnes * 1000.0), 1000.0 * Product(employees as real, tonnes), 0.005)
    ensures 1000.0 * Product(employees as real, tonnes) > 0.005 ==> Emitted(employees as real, tonnes * 1000.0) > 0.0
  {
    EmittedIsClose(employees as real, tonnes * 1000.0);
    assert employees as real * (tonnes * 1000.0) == 1000.0 * (employees as real * tonnes);
    hide Emitted;
  }

  lemma FactorsFound(t: Tables, s: Setting, f: Factors3)
    requires Valid(t) && Factors3For(t, s, f)
    ensures IndustryFor(t, s.industry).spendFactor.UnwrapOr(3.0) == f.spend && f.spend >= 0.0
    ensures Fallback(t.travelAverages, s.industry, t.travelDefault.UnwrapOr(1.5)) == f.travel && f.travel >= 0.0
    ensures Fallback(t.commutingAverages, s.region, t.commutingDefault.UnwrapOr(1.5)) == f.commuting
    ensures t.freight["road"] == f.freight && f.commuting >= 0.0 && f.freight >= 0.0
  {
  }

  lemma CategoryIsClose(t: Tables, d: ProvidedData, s: Setting, f: Factors3, k: Category)
    requires Valid(t) && Factors3For(t, s, f)
    ensures Close(ActivityKg(t, d, s, k), ActivityProduct(d.amounts, f, k), 0.005)
    ensures ActivityProduct(d.amounts, f, k) > 0.005 ==> ActivityKg(t, d, s, k) > 0.0
  {
    FactorsFound(t, s, f);
    hide Emitted, Product, Factors3For, Valid, Fallback, IndustryFor;
    match k
    case PurchasedGoods => PerThousand(d.amounts.supplierSpend, f.spend);
    case UpstreamTransport =>
      EmittedIsClose(d.amounts.tonKm, f.freight);
      RoadIsThere(t, f.freight);
    case Waste => EmittedIsClose(d.amounts.wasteKg, 0.586);
    case BusinessTravel =>
      EmittedIsClose(d.amounts.travelSpend, 0.3);
      PerHead(d.amounts.employees, f.travel);
    case Commuting => PerHead(d.amounts.employees, f.commuting);
    case Other(_) =>
  }

  lemma RoadIsThere(t: Tables, freight: real)
    requires Valid(t) && t.freight["road"] == freight
    ensures Fallback(t.freight, ROAD, t.freight[ROAD]) == freight
  {
  }

  /**
   A category whose activity data come to more than half a hundredth is reported within half
   a hundredth of them, whatever the gaps around it are filled with.
   */
  lemma ReportedCategoriesAreActivity(t: Tables, d: ProvidedData, s: Setting, f: Factors3, k: Category)
    requires Valid(t) && Factors3For(t, s, f) && ActivityProduct(d.amounts, f, k) > 0.005
    ensures Close(Get(Scope3Detail(t, d, s), k), ActivityProduct(d.amounts, f, k), 0.005)
  {
    hide *;
    CategoryIsClose(t, d, s, f, k);
    ActivityIsNotOverwritten(t, d, s, k);
  }
}
