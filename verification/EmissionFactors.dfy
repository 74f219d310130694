/**
 The calculators of Scopes 1, 2 and 3 over abstract factor tables
 (carbonscope/emission_factors).  Region and fuel names are taken as already normalised.
 */
module EmissionFactors {
  import opened GapFilling
  import opened Outcomes
  import opened Rounding

  const ROAD := "road"
  const DIESEL := "diesel"
  const NATURAL_GAS := "natural_gas"
  const HEAVY_TRUCK := "heavy_truck_diesel"
  const MANUFACTURING := "manufacturing"

  /** Warming potential of HFC-134a, used for an unknown refrigerant. */
  const DEFAULT_GWP := 1530.0

  datatype Industry = Industry(profile: Profile, spendFactor: Option<real>)

  datatype Vehicle = Vehicle(kgPerKm: real, fuelType: Option<string>)

  datatype Tables = Tables(
    fuels: map<string, real>,
    vehicles: map<string, Vehicle>,
    refrigerants: map<string, real>,
    gwp: map<string, real>,
    subregions: map<string, real>,
    stateToSubregion: map<string, string>,
    countries: map<string, real>,
    regionalAverages: map<string, real>,
    globalAverage: real,
    freight: map<string, real>,
    industries: map<string, Industry>,
    travelAverages: map<string, real>,
    travelDefault: Option<real>,
    commutingAverages: map<string, real>,
    commutingDefault: Option<real>)

  predicate NonNegativeTable(m: map<string, real>) {
    forall k :: k in m ==> m[k] >= 0.0
  }

  predicate ValidIndustry(i: Industry) {
    ValidProfile(i.profile) && i.spendFactor.UnwrapOr(3.0) >= 0.0
  }

  /** No negative factor, every fallback there, and every state in a known subregion. */
  predicate Valid(t: Tables) {
    && NonNegativeTable(t.fuels) && NonNegativeTable(t.refrigerants) && NonNegativeTable(t.gwp)
    && NonNegativeTable(t.subregions) && NonNegativeTable(t.countries) && NonNegativeTable(t.regionalAverages)
    && NonNegativeTable(t.freight) && NonNegativeTable(t.travelAverages) && NonNegativeTable(t.commutingAverages)
    && t.globalAverage >= 0.0 && t.travelDefault.UnwrapOr(1.5) >= 0.0 && t.commutingDefault.UnwrapOr(1.5) >= 0.0
    && (forall k :: k in t.vehicles ==> t.vehicles[k].kgPerKm >= 0.0)
    && (forall k :: k in t.industries ==> ValidIndustry(t.industries[k]))
    && (forall k :: k in t.stateToSubregion ==> t.stateToSubregion[k] in t.subregions)
    && DIESEL in t.fuels && HEAVY_TRUCK in t.vehicles && ROAD in t.freight && MANUFACTURING in t.industries
  }

  // ---------------------------------------------------------------- lookups

  function Fallback<V>(m: map<string, V>, k: string, default: V): V {
    if k in m then m[k] else default
  }

  function GridFactor(t: Tables, region: string): (g: real)
    requires Valid(t)
    ensures g >= 0.0
  {
    if region in t.subregions then t.subregions[region]
    else if region in t.stateToSubregion then t.subregions[t.stateToSubregion[region]]
    else if region in t.countries then t.countries[region]
    else Fallback(t.regionalAverages, region, t.globalAverage)
  }

  function IndustryFor(t: Tables, name: string): (i: Industry)
    requires Valid(t)
    ensures ValidIndustry(i)
  {
    Fallback(t.industries, name, t.industries[MANUFACTURING])
  }

  // ---------------------------------------------------------------- calculators

  /** Amount times factor, rounded to hundredths of a kg, for a positive amount. */
  function Emitted(amount: real, factor: real): (kg: real)
    requires factor >= 0.0
    ensures kg >= 0.0 && Hundredths(kg)
    ensures amount > 0.0 ==> amount * factor - 0.005 <= kg <= amount * factor + 0.005
    ensures kg == 0.0 <==> amount <= 0.0 || amount * factor <= 0.005
  {
    Round2Facts(amount * factor);
    Round2Facts(0.0);
    if amount <= 0.0 then 0.0 else Round2(amount * factor)
  }

  datatype Unit = Liters | CubicMetres | Therms | KWh

  function StationaryCombustion(t: Tables, fuel: string, quantity: real, unit: Unit): real
    requires Valid(t)
  {
    var factor := Fallback(t.fuels, fuel, t.fuels[DIESEL]);
    if quantity <= 0.0 then 0.0
    else if fuel == NATURAL_GAS && unit == Therms then Emitted(quantity * 2.83168, factor)
    else if fuel == NATURAL_GAS && unit == KWh then Emitted(quantity * 0.0949, factor)
    else Emitted(quantity, factor)
  }

  /** From the fuel burnt when that is given, else from the distance. */
  function MobileCombustion(t: Tables, vehicle: string, km: real, liters: real): real
    requires Valid(t)
  {
    if liters > 0.0 then
      var fuel := if vehicle in t.vehicles then t.vehicles[vehicle].fuelType.UnwrapOr(DIESEL) else DIESEL;
      StationaryCombustion(t, fuel, liters, Liters)
    else
      Emitted(km, Fallback(t.vehicles, vehicle, t.vehicles[HEAVY_TRUCK]).kgPerKm)
  }

  function FugitiveEmissions(t: Tables, refrigerant: string, kg: real): real
    requires Valid(t)
  {
    Emitted(kg, Fallback(t.refrigerants, refrigerant, Fallback(t.gwp, refrigerant, DEFAULT_GWP)))
  }

  function LocationBased(t: Tables, kwh: real, region: string): real
    requires Valid(t)
  {
    Emitted(kwh, GridFactor(t, region) / 1000.0)
  }

  /** Certificates cover part of the electricity; a supplier's own factor replaces the grid's unless negative. */
  function MarketBased(t: Tables, kwh: real, region: string, supplierFactor: Option<real>, certificates: real): real
    requires Valid(t)
  {
    var factor := if supplierFactor.Some? && supplierFactor.value >= 0.0 then supplierFactor.value
                  else GridFactor(t, region);
    if kwh <= 0.0 then 0.0 else Emitted(Max(kwh - certificates, 0.0), factor / 1000.0)
  }

  function PurchasedGoodsKg(t: Tables, spend: real, industry: string): real
    requires Valid(t)
  {
    Emitted(spend / 1000.0, IndustryFor(t, industry).spendFactor.UnwrapOr(3.0))
  }

  function TransportKg(t: Tables, tonKm: real, mode: string): real
    requires Valid(t)
  {
    Emitted(tonKm, Fallback(t.freight, mode, t.freight[ROAD]))
  }

  /** Waste to landfill. */
  function WasteKg(kg: real): real {
    Emitted(kg, 0.586)
  }

  /** By spend when that is given, else by the number of employees. */
  function BusinessTravelKg(t: Tables, employees: int, industry: string, spend: real): real
    requires Valid(t)
  {
    if spend > 0.0 then Emitted(spend, 0.3)
    else Emitted(employees as real, Fallback(t.travelAverages, industry, t.travelDefault.UnwrapOr(1.5)) * 1000.0)
  }

  function CommutingKg(t: Tables, employees: int, region: string): real
    requires Valid(t)
  {
    Emitted(employees as real, Fallback(t.commutingAverages, region, t.commutingDefault.UnwrapOr(1.5)) * 1000.0)
  }

  /** Every calculator gives a whole, non-negative number of hundredths of a kg. */
  predicate Kilograms(kg: real) {
    kg >= 0.0 && Hundredths(kg)
  }

  lemma DirectSourcesAreKilograms(t: Tables, fuel: string, quantity: real, unit: Unit, vehicle: string, km: real)
    requires Valid(t)
    ensures Kilograms(StationaryCombustion(t, fuel, quantity, unit))
    ensures Kilograms(MobileCombustion(t, vehicle, km, quantity))
    ensures Kilograms(FugitiveEmissions(t, fuel, quantity))
  {
    Round2Facts(0.0);
  }

  lemma EnergyIsKilograms(t: Tables, kwh: real, region: string, supplierFactor: Option<real>, certificates: real)
    requires Valid(t)
    ensures Kilograms(LocationBased(t, kwh, region))
    ensures Kilograms(MarketBased(t, kwh, region, supplierFactor, certificates))
  {
    Round2Facts(0.0);
  }

  /** Certificates only lower the market-based figure, to zero when they cover everything. */
  lemma CertificatesLower(t: Tables, kwh: real, region: string, supplierFactor: Option<real>, few: real, many: real)
    requires Valid(t) && few <= many
    ensures MarketBased(t, kwh, region, supplierFactor, many) <= MarketBased(t, kwh, region, supplierFactor, few)
    ensures many >= kwh ==> MarketBased(t, kwh, region, supplierFactor, many) == 0.0
    ensures supplierFactor.None? ==> MarketBased(t, kwh, region, supplierFactor, 0.0) == LocationBased(t, kwh, region)
  {
    var factor := (if supplierFactor.Some? && supplierFactor.value >= 0.0 then supplierFactor.value
                   else GridFactor(t, region)) / 1000.0;
    var less, more := Max(kwh - many, 0.0), Max(kwh - few, 0.0);
    EmittedMonotone(less, more, factor);
  }

  lemma EmittedMonotone(less: real, more: real, factor: real)
    requires less <= more && factor >= 0.0
    ensures Emitted(less, factor) <= Emitted(more, factor)
  {
    if less > 0.0 {
      var p, q := less * factor, more * factor;
      var extra := more - less;
      assert extra * factor >= 0.0;
      assert q - p == extra * factor;
      HalfEvenMonotone(p * 100.0, q * 100.0);
      hide HalfEven;
      assert Emitted(less, factor) == Round2(p) && Emitted(more, factor) == Round2(q);
      hide Emitted;
      assert Round2(p) <= Round2(q);
    }
  }
}
