/**
 The request and response that validators and miners exchange (carbonscope/protocol.py)
 and the miner's validation of a questionnaire (neurons/miner.py).
 */
module Protocol {
  import opened Dictionaries
  import opened GapFilling
  import opened Outcomes
  import opened Rounding

  /** The activity amounts; every reader takes one that is missing as zero. */
  datatype Amounts = Amounts(
    fuelLiters: real, gasM3: real, kwh: real, vehicleKm: real, employees: int, revenue: real, supplierSpend: real,
    tonKm: real, officeSqm: real, travelSpend: real, wasteKg: real, leakedKg: real, certificatesKwh: real)

  /** Names are as the validation leaves them, in lower case; `extras` counts further fields with a value. */
  datatype ProvidedData = ProvidedData(
    amounts: Amounts,
    fuelType: Option<string>,
    vehicleType: Option<string>,
    refrigerant: Option<string>,
    extras: nat)

  datatype Questionnaire = Questionnaire(
    industry: Option<string>,
    region: Option<string>,
    year: Option<int>,
    data: ProvidedData)

  const VALID_INDUSTRIES := {
    "manufacturing", "transportation", "technology", "retail",
    "energy", "financial_services", "construction", "food_beverage", "healthcare"
  }

  const VALID_FUEL_TYPES := {
    "diesel", "gasoline", "natural_gas", "propane", "fuel_oil", "kerosene", "lpg", "coal", "biomass"
  }

  predicate Within(x: real, most: real) {
    0.0 <= x <= most
  }

  predicate AmountsInRange(a: Amounts) {
    && Within(a.fuelLiters, 10000000.0) && Within(a.gasM3, 100000000.0) && Within(a.kwh, 1000000000.0)
    && Within(a.vehicleKm, 100000000.0) && 0 <= a.employees <= 1000000 && Within(a.revenue, 1000000000000.0)
    && Within(a.supplierSpend, 1000000000000.0) && Within(a.tonKm, 10000000000.0) && Within(a.officeSqm, 100000000.0)
    && Within(a.travelSpend, 1000000000.0) && Within(a.wasteKg, 1000000000.0) && Within(a.leakedKg, 1000000.0)
    && Within(a.certificatesKwh, 1000000000.0)
  }

  predicate ValidQuestionnaire(q: Questionnaire) {
    && AmountsInRange(q.data.amounts)
    && q.data.fuelType.UnwrapOr("diesel") in VALID_FUEL_TYPES
    && q.industry.UnwrapOr("manufacturing") in VALID_INDUSTRIES
    && 1990 <= q.year.UnwrapOr(2025) <= 2100
  }

  /** The questionnaire with every default filled in. */
  function WithDefaults(q: Questionnaire): Questionnaire {
    Questionnaire(
      Some(q.industry.UnwrapOr("manufacturing")),
      Some(q.region.UnwrapOr("US")),
      Some(q.year.UnwrapOr(2025)),
      q.data.(fuelType := Some(q.data.fuelType.UnwrapOr("diesel")),
              vehicleType := Some(q.data.vehicleType.UnwrapOr("heavy_truck_diesel"))))
  }

  // ---------------------------------------------------------------- responses

  datatype Source =
    Stationary | NaturalGas | Mobile | Fugitive | OtherSource(name: string)

  datatype Method = ByLocation | ByMarket | OtherMethod(name: string)

  /** One entry of the totals: no such key, a null, or a number.  A key that is missing counts as zero. */
  datatype Figure = Missing | Null | Amount(value: real) {
    function OrZero(): real {
      if Amount? then value else 0.0
    }
  }

  datatype Emissions = Emissions(scope1: Figure, scope2: Figure, scope3: Figure, total: Figure)

  /** Nothing that arithmetic would stumble over. */
  predicate Numeric(e: Emissions) {
    !e.scope1.Null? && !e.scope2.Null? && !e.scope3.Null? && !e.total.Null?
  }

  datatype Breakdown = Breakdown(
    scope1: Option<Dict<Source>>, scope2: Option<Dict<Method>>, scope3: Option<Dict<Category>>)

  datatype Note =
      EpaFactors | GridFactorFor(region: string) | TransportFactors | IndustryBenchmarks
    | VehicleFleet(vehicle: string) | SupplierFactor(gramsPerKwh: real) | Certificates(kwh: real)
    | SpendBasedGoods | AssumedRoad | RegionalCommuting(region: string) | FilledFromAverages | StandardMethodology
    | NoDirectData | NoElectricityData | NoSpendData | ValidationError
    | EpaDatabase | GridDatabases | IndustryDatabase

  datatype Response = Response(
    emissions: Option<Emissions>,
    breakdown: Option<Breakdown>,
    confidence: Option<real>,
    sources: Option<seq<Note>>,
    assumptions: Option<seq<Note>>)

  /** The field validators: confidence is capped at 1 and negative totals become zero. */
  function Cleaned(r: Response): Response {
    r.(emissions := if r.emissions.None? then None else
         var e := r.emissions.value;
         Some(Emissions(NotNegative(e.scope1), NotNegative(e.scope2), NotNegative(e.scope3), NotNegative(e.total))),
       confidence := if r.confidence.Some? && r.confidence.value >= 0.0 then Some(Min(r.confidence.value, 1.0))
                     else r.confidence)
  }

  function NotNegative(v: Figure): Figure {
    if v.Amount? && v.value < 0.0 then Amount(0.0) else v
  }

  /** What comes back from a miner. */
  datatype Reply = Reply(success: bool, response: Response)

  /** A reply that gets as far as being scored. */
  predicate Usable(r: Reply) {
    r.success && r.response.emissions.Some? && !(r.response.confidence.Some? && r.response.confidence.value < 0.0)
  }

  /** A usable reply with a null among its totals: the field validators let it pass, and scoring it raises. */
  predicate Malformed(r: Reply) {
    Usable(r) && !Numeric(r.response.emissions.value)
  }
}
