/**
 The miner's estimate (neurons/miner.py) and the platform's own copy of it
 (estimate_emissions_local in api/services/subnet_bridge.py).
 */
module Estimator {
  import opened Dictionaries
  import opened EmissionFactors
  import opened GapFilling
  import opened Outcomes
  import opened Protocol
  import opened Rounding

  // ---------------------------------------------------------------- Scope 1

  function FuelKg(t: Tables, d: ProvidedData): real
    requires Valid(t)
  {
    StationaryCombustion(t, d.fuelType.UnwrapOr("diesel"), d.amounts.fuelLiters, Liters)
  }

  function GasKg(t: Tables, d: ProvidedData): real
    requires Valid(t)
  {
    StationaryCombustion(t, NATURAL_GAS, d.amounts.gasM3, CubicMetres)
  }

  function VehicleKg(t: Tables, d: ProvidedData): real
    requires Valid(t)
  {
    MobileCombustion(t, d.vehicleType.UnwrapOr("heavy_truck_diesel"), d.amounts.vehicleKm, 0.0)
  }

  predicate Leaks(d: ProvidedData) {
    d.refrigerant.Some? && d.refrigerant.value != "" && d.amounts.leakedKg > 0.0
  }

  function LeakKg(t: Tables, d: ProvidedData): real
    requires Valid(t)
  {
    if Leaks(d) then FugitiveEmissions(t, d.refrigerant.value, d.amounts.leakedKg) else 0.0
  }

  function Scope1Kg(t: Tables, d: ProvidedData): real
    requires Valid(t)
  {
    FuelKg(t, d) + GasKg(t, d) + VehicleKg(t, d) + LeakKg(t, d)
  }

  /** An entry only when there is something to report. */
  function SetIf<K(==)>(given: bool, d: Dict<K>, k: K, v: real): Dict<K> {
    if given then Set(d, k, v) else d
  }

  /** The miner's breakdown: natural gas is added to stationary combustion. */
  function MinerScope1(t: Tables, d: ProvidedData): Dict<Source>
    requires Valid(t)
  {
    var fuel := SetIf(d.amounts.fuelLiters > 0.0, Empty, Stationary, FuelKg(t, d));
    var gas := SetIf(d.amounts.gasM3 > 0.0, fuel, Stationary, Get(fuel, Stationary) + GasKg(t, d));
    var vehicles := SetIf(d.amounts.vehicleKm > 0.0, gas, Mobile, VehicleKg(t, d));
    SetIf(Leaks(d), vehicles, Fugitive, LeakKg(t, d))
  }

  /** The platform's breakdown: natural gas has its own key. */
  function LocalScope1(t: Tables, d: ProvidedData): Dict<Source>
    requires Valid(t)
  {
    var fuel := SetIf(d.amounts.fuelLiters > 0.0, Empty, Stationary, FuelKg(t, d));
    var gas := SetIf(d.amounts.gasM3 > 0.0, fuel, NaturalGas, GasKg(t, d));
    var vehicles := SetIf(d.amounts.vehicleKm > 0.0, gas, Mobile, VehicleKg(t, d));
    SetIf(Leaks(d), vehicles, Fugitive, LeakKg(t, d))
  }

  function NoteIf(given: bool, note: Note): seq<Note> {
    if given then [note] else []
  }

  function Scope1Assumptions(d: ProvidedData): seq<Note> {
    NoteIf(d.amounts.vehicleKm > 0.0, VehicleFleet(d.vehicleType.UnwrapOr("heavy_truck_diesel")))
  }

  method EstimateScope1(t: Tables, d: ProvidedData, assumptions: seq<Note>, sources: seq<Note>)
    returns (scope1: real, detail: Dict<Source>, assumptions': seq<Note>, sources': seq<Note>)
    requires Valid(t)
    ensures scope1 == Scope1Kg(t, d) && detail == MinerScope1(t, d)
    ensures assumptions' == assumptions + Scope1Assumptions(d)
    ensures sources' == sources + NoteIf(d.amounts.fuelLiters > 0.0, EpaFactors)
  {
    hide StationaryCombustion, MobileCombustion, FugitiveEmissions, Set, Get;
    NothingFromNothing(t, d);
    scope1, detail, assumptions', sources' := 0.0, Empty, assumptions, sources;
    if d.amounts.fuelLiters > 0.0 {
      var val := FuelKg(t, d);
      detail := Set(detail, Stationary, val);
      scope1 := scope1 + val;
      sources' := sources' + [EpaFactors];
    }
    if d.amounts.gasM3 > 0.0 {
      var val := GasKg(t, d);
      detail := Set(detail, Stationary, Get(detail, Stationary) + val);
      scope1 := scope1 + val;
    }
    if d.amounts.vehicleKm > 0.0 {
      var val := VehicleKg(t, d);
      detail := Set(detail, Mobile, val);
      scope1 := scope1 + val;
      assumptions' := assumptions' + [VehicleFleet(d.vehicleType.UnwrapOr("heavy_truck_diesel"))];
    }
    if Leaks(d) {
      var val := LeakKg(t, d);
      detail := Set(detail, Fugitive, val);
      scope1 := scope1 + val;
    }
  }

  /** Without an amount there is no emission. */
  lemma NothingFromNothing(t: Tables, d: ProvidedData)
    requires Valid(t)
    ensures d.amounts.fuelLiters <= 0.0 ==> FuelKg(t, d) == 0.0
    ensures d.amounts.gasM3 <= 0.0 ==> GasKg(t, d) == 0.0
    ensures d.amounts.vehicleKm <= 0.0 ==> VehicleKg(t, d) == 0.0
    ensures !Leaks(d) ==> LeakKg(t, d) == 0.0
  {
  }

  /** Setting a key that has no amount yet adds to the sum, and keeps amounts whole hundredths. */
  lemma SetIfFacts<K>(given: bool, d: Dict<K>, k: K, v: real)
    requires NonNegative(d) && AllHundredths(d) && Kilograms(v) && Get(d, k) == 0.0 && (!given ==> v == 0.0)
    ensures var after := SetIf(given, d, k, v);
            && NonNegative(after) && AllHundredths(after) && Sum(after) == Sum(d) + v
            && forall other :: other != k ==> Get(after, other) == Get(d, other)
  {
    hide Hundredths;
    SumSet(d, k, v);
    SetKeepsAmounts(d, k, v);
    forall other | other != k ensures Get(Set(d, k, v), other) == Get(d, other) {
      GetSet(d, k, v, other);
    }
  }

  lemma Scope1PartsAreKilograms(t: Tables, d: ProvidedData)
    requires Valid(t)
    ensures Kilograms(FuelKg(t, d)) && Kilograms(GasKg(t, d)) && Kilograms(VehicleKg(t, d)) && Kilograms(LeakKg(t, d))
  {
    hide StationaryCombustion, MobileCombustion, FugitiveEmissions, Valid;
    DirectSourcesAreKilograms(t, d.fuelType.UnwrapOr("diesel"), d.amounts.fuelLiters, Liters, "", 0.0);
    DirectSourcesAreKilograms(t, NATURAL_GAS, d.amounts.gasM3, CubicMetres, "", 0.0);
    DirectSourcesAreKilograms(t, "", 0.0, Liters, d.vehicleType.UnwrapOr("heavy_truck_diesel"), d.amounts.vehicleKm);
    if Leaks(d) {
      DirectSourcesAreKilograms(t, d.refrigerant.value, d.amounts.leakedKg, Liters, "", 0.0);
    } else {
      Round2Facts(0.0);
    }
  }

  /** A breakdown in kilograms that accounts for a scope. */
  predicate AccountsFor<K(==)>(detail: Dict<K>, kg: real) {
    NonNegative(detail) && AllHundredths(detail) && Sum(detail) == kg
  }

  lemma LocalScope1Sum(t: Tables, d: ProvidedData)
    requires Valid(t)
    ensures AccountsFor(LocalScope1(t, d), Scope1Kg(t, d))
  {
    hide FuelKg, GasKg, VehicleKg, LeakKg, SetIf, Valid, Hundredths, Set, Leaks;
    NothingFromNothing(t, d);
    Scope1PartsAreKilograms(t, d);
    var fuel := SetIf(d.amounts.fuelLiters > 0.0, Empty, Stationary, FuelKg(t, d));
    var gas := SetIf(d.amounts.gasM3 > 0.0, fuel, NaturalGas, GasKg(t, d));
    var vehicles := SetIf(d.amounts.vehicleKm > 0.0, gas, Mobile, VehicleKg(t, d));
    SetIfFacts(d.amounts.fuelLiters > 0.0, Empty, Stationary, FuelKg(t, d));
    SetIfFacts(d.amounts.gasM3 > 0.0, fuel, NaturalGas, GasKg(t, d));
    SetIfFacts(d.amounts.vehicleKm > 0.0, gas, Mobile, VehicleKg(t, d));
    SetIfFacts(Leaks(d), vehicles, Fugitive, LeakKg(t, d));
  }

  /** Adding natural gas to what is already under stationary combustion. */
  lemma AddFacts(given: bool, d: Dict<Source>, v: real)
    requires NonNegative(d) && AllHundredths(d) && Kilograms(v) && (!given ==> v == 0.0)
    requires Kilograms(Get(d, Stationary))
    ensures var after := SetIf(given, d, Stationary, Get(d, Stationary) + v);
            && NonNegative(after) && AllHundredths(after) && Sum(after) == Sum(d) + v
            && forall other :: other != Stationary ==> Get(after, other) == Get(d, other)
  {
    var sum := Get(d, Stationary) + v;
    HundredthsAdd(Get(d, Stationary), v);
    hide Hundredths;
    SumSet(d, Stationary, sum);
    SetKeepsAmounts(d, Stationary, sum);
    forall other | other != Stationary ensures Get(Set(d, Stationary, sum), other) == Get(d, other) {
      GetSet(d, Stationary, sum, other);
    }
  }

  lemma FirstEntry(given: bool, v: real)
    requires !given ==> v == 0.0
    ensures Get(SetIf(given, Empty, Stationary, v), Stationary) == v
  {
  }

  lemma MinerCombustion(fuelGiven: bool, fuelKg: real, gasGiven: bool, gasKg: real)
    requires Kilograms(fuelKg) && Kilograms(gasKg) && (!fuelGiven ==> fuelKg == 0.0) && (!gasGiven ==> gasKg == 0.0)
    ensures var fuel := SetIf(fuelGiven, Empty, Stationary, fuelKg);
            var both := SetIf(gasGiven, fuel, Stationary, Get(fuel, Stationary) + gasKg);
            && NonNegative(both) && AllHundredths(both) && Sum(both) == fuelKg + gasKg
            && Get(both, Mobile) == Get(both, Fugitive) == 0.0
  {
    hide SetIf, Hundredths, Set;
    var fuel := SetIf(fuelGiven, Empty, Stationary, fuelKg);
    FirstEntry(fuelGiven, fuelKg);
    SetIfFacts(fuelGiven, Empty, Stationary, fuelKg);
    AddFacts(gasGiven, fuel, gasKg);
  }

  lemma MinerScope1Sum(t: Tables, d: ProvidedData)
    requires Valid(t)
    ensures AccountsFor(MinerScope1(t, d), Scope1Kg(t, d))
  {
    hide *;
    NothingFromNothing(t, d);
    Scope1PartsAreKilograms(t, d);
    var fuel := SetIf(d.amounts.fuelLiters > 0.0, Empty, Stationary, FuelKg(t, d));
    var both := SetIf(d.amounts.gasM3 > 0.0, fuel, Stationary, Get(fuel, Stationary) + GasKg(t, d));
    MinerCombustion(d.amounts.fuelLiters > 0.0, FuelKg(t, d), d.amounts.gasM3 > 0.0, GasKg(t, d));
    MinerScope1Rest(t, d, both);
    MinerScope1Parts(t, d);
  }

  lemma MinerScope1Parts(t: Tables, d: ProvidedData)
    requires Valid(t)
    ensures var fuel := SetIf(d.amounts.fuelLiters > 0.0, Empty, Stationary, FuelKg(t, d));
            var both := SetIf(d.amounts.gasM3 > 0.0, fuel, Stationary, Get(fuel, Stationary) + GasKg(t, d));
            var vehicles := SetIf(d.amounts.vehicleKm > 0.0, both, Mobile, VehicleKg(t, d));
            MinerScope1(t, d) == SetIf(Leaks(d), vehicles, Fugitive, LeakKg(t, d))
    ensures Scope1Kg(t, d) == FuelKg(t, d) + GasKg(t, d) + VehicleKg(t, d) + LeakKg(t, d)
  {
    hide FuelKg, GasKg, VehicleKg, LeakKg, Leaks, SetIf, Set, Get, Valid;
  }

  lemma MinerScope1Rest(t: Tables, d: ProvidedData, both: Dict<Source>)
    requires Valid(t)
    requires NonNegative(both) && AllHundredths(both) && Get(both, Mobile) == Get(both, Fugitive) == 0.0
    ensures var vehicles := SetIf(d.amounts.vehicleKm > 0.0, both, Mobile, VehicleKg(t, d));
            AccountsFor(SetIf(Leaks(d), vehicles, Fugitive, LeakKg(t, d)), Sum(both) + VehicleKg(t, d) + LeakKg(t, d))
  {
    hide FuelKg, GasKg, VehicleKg, LeakKg, SetIf, Valid, Hundredths, Set, Leaks;
    NothingFromNothing(t, d);
    Scope1PartsAreKilograms(t, d);
    var vehicles := SetIf(d.amounts.vehicleKm > 0.0, both, Mobile, VehicleKg(t, d));
    SetIfFacts(d.amounts.vehicleKm > 0.0, both, Mobile, VehicleKg(t, d));
    SetIfFacts(Leaks(d), vehicles, Fugitive, LeakKg(t, d));
  }

  lemma GetSetIf<K>(given: bool, d: Dict<K>, k: K, v: real, other: K)
    ensures Get(SetIf(given, d, k, v), other) == if given && other == k then v else Get(d, other)
  {
    GetSet(d, k, v, other);
  }

  /** Where each direct source is: under its own key, but the miner adds natural gas to stationary combustion. */
  lemma Scope1Keys(t: Tables, d: ProvidedData)
    requires Valid(t)
    ensures Get(LocalScope1(t, d), Stationary) == FuelKg(t, d)
    ensures Get(LocalScope1(t, d), NaturalGas) == GasKg(t, d)
    ensures Get(MinerScope1(t, d), Stationary) == FuelKg(t, d) + GasKg(t, d)
    ensures Get(MinerScope1(t, d), NaturalGas) == 0.0
    ensures Get(MinerScope1(t, d), Mobile) == Get(LocalScope1(t, d), Mobile) == VehicleKg(t, d)
    ensures Get(MinerScope1(t, d), Fugitive) == Get(LocalScope1(t, d), Fugitive) == LeakKg(t, d)
  {
    NothingFromNothing(t, d);
    hide FuelKg, GasKg, VehicleKg, LeakKg, SetIf, Leaks, Valid;
    var fuel := SetIf(d.amounts.fuelLiters > 0.0, Empty, Stationary, FuelKg(t, d));
    var mixed := SetIf(d.amounts.gasM3 > 0.0, fuel, Stationary, Get(fuel, Stationary) + GasKg(t, d));
    var apart := SetIf(d.amounts.gasM3 > 0.0, fuel, NaturalGas, GasKg(t, d));
    forall k | k == Stationary || k == NaturalGas || k == Mobile || k == Fugitive
      ensures Get(fuel, k) == if k == Stationary then FuelKg(t, d) else 0.0
      ensures Get(MinerScope1(t, d), k)
           == if k == Mobile then VehicleKg(t, d) else if k == Fugitive then LeakKg(t, d) else Get(mixed, k)
      ensures Get(LocalScope1(t, d), k)
           == if k == Mobile then VehicleKg(t, d) else if k == Fugitive then LeakKg(t, d) else Get(apart, k)
    {
      Scope1Key(t, d, fuel, mixed, k);
      Scope1Key(t, d, fuel, apart, k);
    }
    GetSetIf(d.amounts.gasM3 > 0.0, fuel, Stationary, Get(fuel, Stationary) + GasKg(t, d), Stationary);
    GetSetIf(d.amounts.gasM3 > 0.0, fuel, Stationary, Get(fuel, Stationary) + GasKg(t, d), NaturalGas);
    GetSetIf(d.amounts.gasM3 > 0.0, fuel, NaturalGas, GasKg(t, d), Stationary);
    GetSetIf(d.amounts.gasM3 > 0.0, fuel, NaturalGas, GasKg(t, d), NaturalGas);
  }

  lemma Scope1Key(t: Tables, d: ProvidedData, fuel: Dict<Source>, both: Dict<Source>, k: Source)
    requires Valid(t) && fuel == SetIf(d.amounts.fuelLiters > 0.0, Empty, Stationary, FuelKg(t, d))
    requires both == SetIf(d.amounts.gasM3 > 0.0, fuel, Stationary, Get(fuel, Stationary) + GasKg(t, d))
             || both == SetIf(d.amounts.gasM3 > 0.0, fuel, NaturalGas, GasKg(t, d))
    requires k == Stationary || k == NaturalGas || k == Mobile || k == Fugitive
    ensures Get(fuel, k) == if k == Stationary then FuelKg(t, d) else 0.0
    ensures var vehicles := SetIf(d.amounts.vehicleKm > 0.0, both, Mobile, VehicleKg(t, d));
            Get(SetIf(Leaks(d), vehicles, Fugitive, LeakKg(t, d)), k) ==
            if k == Mobile then VehicleKg(t, d) else if k == Fugitive then LeakKg(t, d) else Get(both, k)
  {
    NothingFromNothing(t, d);
    hide FuelKg, GasKg, VehicleKg, LeakKg, SetIf, Leaks, Valid;
    var vehicles := SetIf(d.amounts.vehicleKm > 0.0, both, Mobile, VehicleKg(t, d));
    GetSetIf(d.amounts.fuelLiters > 0.0, Empty, Stationary, FuelKg(t, d), k);
    GetSetIf(d.amounts.gasM3 > 0.0, fuel, Stationary, Get(fuel, Stationary) + GasKg(t, d), k);
    GetSetIf(d.amounts.gasM3 > 0.0, fuel, NaturalGas, GasKg(t, d), k);
    GetSetIf(d.amounts.vehicleKm > 0.0, both, Mobile, VehicleKg(t, d), k);
    GetSetIf(Leaks(d), vehicles, Fugitive, LeakKg(t, d), k);
  }

  // ---------------------------------------------------------------- Scope 2

  function Scope2Kg(t: Tables, d: ProvidedData, region: string): real
    requires Valid(t)
  {
    LocationBased(t, d.amounts.kwh, region)
  }

  function MarketKg(t: Tables, d: ProvidedData, region: string, supplierFactor: Option<real>): real
    requires Valid(t)
  {
    MarketBased(t, d.amounts.kwh, region, supplierFactor, d.amounts.certificatesKwh)
  }

  function Scope2Methods(t: Tables, d: ProvidedData, region: string, supplierFactor: Option<real>): Dict<Method>
    requires Valid(t)
  {
    Entry(ByLocation, Scope2Kg(t, d, region), Entry(ByMarket, MarketKg(t, d, region, supplierFactor), Empty))
  }

  function Scope2Assumptions(d: ProvidedData, supplierFactor: Option<real>): seq<Note> {
    if d.amounts.kwh <= 0.0 then []
    else
      NoteIf(supplierFactor.Some? && supplierFactor.value != 0.0, SupplierFactor(supplierFactor.UnwrapOr(0.0)))
      + NoteIf(d.amounts.certificatesKwh > 0.0, Certificates(d.amounts.certificatesKwh))
  }

  /** The miner reports the two methods only when there is electricity. */
  method EstimateScope2(t: Tables, d: ProvidedData, region: string, supplierFactor: Option<real>,
                        assumptions: seq<Note>, sources: seq<Note>)
    returns (scope2: real, detail: Dict<Method>, assumptions': seq<Note>, sources': seq<Note>)
    requires Valid(t)
    ensures scope2 == Scope2Kg(t, d, region)
    ensures detail == if d.amounts.kwh > 0.0 then Scope2Methods(t, d, region, supplierFactor) else Empty
    ensures assumptions' == assumptions + Scope2Assumptions(d, supplierFactor)
    ensures sources' == sources + NoteIf(d.amounts.kwh > 0.0, GridFactorFor(region))
  {
    assert d.amounts.kwh <= 0.0 ==> Scope2Kg(t, d, region) == 0.0;
    hide LocationBased, MarketBased;
    scope2, detail, assumptions', sources' := 0.0, Empty, assumptions, sources;
    if d.amounts.kwh > 0.0 {
      var location := LocationBased(t, d.amounts.kwh, region);
      var market := MarketBased(t, d.amounts.kwh, region, supplierFactor, d.amounts.certificatesKwh);
      detail := Set(detail, ByLocation, location);
      assert detail == Entry(ByLocation, location, Empty);
      assert Set(Empty, ByMarket, market) == Entry(ByMarket, market, Empty);
      detail := Set(detail, ByMarket, market);
      assert detail == Entry(ByLocation, location, Entry(ByMarket, market, Empty));
      scope2 := location;
      sources' := sources' + [GridFactorFor(region)];
      if supplierFactor.Some? && supplierFactor.value != 0.0 {
        assumptions' := assumptions' + [SupplierFactor(supplierFactor.value)];
      }
      if d.amounts.certificatesKwh > 0.0 {
        assumptions' := assumptions' + [Certificates(d.amounts.certificatesKwh)];
      }
    }
  }

  // ---------------------------------------------------------------- Scope 3

  /** Who answers where: what the Scope 3 calculators need besides the data. */
  datatype Setting = Setting(industry: string, region: string)

  predicate Travels(d: ProvidedData) {
    d.amounts.travelSpend > 0.0 || d.amounts.employees > 0
  }

  /** The categories estimated from activity data. */
  function ActivityScope3(t: Tables, d: ProvidedData, s: Setting): Dict<Category>
    requires Valid(t)
  {
    var a := d.amounts;
    var goods := SetIf(a.supplierSpend > 0.0, Empty, PurchasedGoods, PurchasedGoodsKg(t, a.supplierSpend, s.industry));
    var transport := SetIf(a.tonKm > 0.0, goods, UpstreamTransport, TransportKg(t, a.tonKm, ROAD));
    var waste := SetIf(a.wasteKg > 0.0, transport, Waste, WasteKg(a.wasteKg));
    var travel := SetIf(Travels(d), waste, BusinessTravel, BusinessTravelKg(t, a.employees, s.industry, a.travelSpend));
    SetIf(a.employees > 0, travel, Commuting, CommutingKg(t, a.employees, s.region))
  }

  function Scope3Detail(t: Tables, d: ProvidedData, s: Setting): Dict<Category>
    requires Valid(t)
  {
    Completed(IndustryFor(t, s.industry).profile, ActivityScope3(t, d, s),
              d.amounts.revenue, d.amounts.employees as real)
  }

  predicate FilledIn(detail: Dict<Category>) {
    detail.Entry? && (detail.key.Other? || FilledIn(detail.rest))
  }

  function Scope3Assumptions(d: ProvidedData, s: Setting, detail: Dict<Category>): seq<Note> {
    NoteIf(d.amounts.supplierSpend > 0.0, SpendBasedGoods) + NoteIf(d.amounts.tonKm > 0.0, AssumedRoad)
    + NoteIf(d.amounts.employees > 0, RegionalCommuting(s.region)) + NoteIf(FilledIn(detail), FilledFromAverages)
  }

  function Scope3Sources(d: ProvidedData, detail: Dict<Category>): seq<Note> {
    NoteIf(d.amounts.tonKm > 0.0, TransportFactors) + NoteIf(FilledIn(detail), IndustryBenchmarks)
  }

  method EstimateScope3(t: Tables, d: ProvidedData, s: Setting, assumptions: seq<Note>, sources: seq<Note>)
    returns (scope3: real, detail: Dict<Category>, assumptions': seq<Note>, sources': seq<Note>)
    requires Valid(t)
    ensures detail == Scope3Detail(t, d, s) && scope3 == Sum(detail)
    ensures assumptions' == assumptions + Scope3Assumptions(d, s, detail)
    ensures sources' == sources + Scope3Sources(d, detail)
  {
    hide PurchasedGoodsKg, TransportKg, WasteKg, BusinessTravelKg, CommutingKg, Completed;
    hide Set, Sum, IndustryFor, FilledIn;
    detail, assumptions', sources' := Empty, assumptions, sources;
    if d.amounts.supplierSpend > 0.0 {
      detail := Set(detail, PurchasedGoods, PurchasedGoodsKg(t, d.amounts.supplierSpend, s.industry));
      assumptions' := assumptions' + [SpendBasedGoods];
    }
    if d.amounts.tonKm > 0.0 {
      detail := Set(detail, UpstreamTransport, TransportKg(t, d.amounts.tonKm, ROAD));
      assumptions' := assumptions' + [AssumedRoad];
      sources' := sources' + [TransportFactors];
    }
    if d.amounts.wasteKg > 0.0 {
      detail := Set(detail, Waste, WasteKg(d.amounts.wasteKg));
    }
    if d.amounts.travelSpend > 0.0 || d.amounts.employees > 0 {
      detail := Set(detail, BusinessTravel,
                    BusinessTravelKg(t, d.amounts.employees, s.industry, d.amounts.travelSpend));
    }
    if d.amounts.employees > 0 {
      detail := Set(detail, Commuting, CommutingKg(t, d.amounts.employees, s.region));
      assumptions' := assumptions' + [RegionalCommuting(s.region)];
    }
    detail := FillIndustryDefaults(IndustryFor(t, s.industry).profile, detail, d.amounts.revenue,
                                   d.amounts.employees as real);
    if FilledIn(detail) {
      assumptions' := assumptions' + [FilledFromAverages];
      sources' := sources' + [IndustryBenchmarks];
    }
    scope3 := Sum(detail);
  }

  lemma Scope3PartsAreKilograms(t: Tables, d: ProvidedData, s: Setting)
    requires Valid(t)
    ensures Kilograms(PurchasedGoodsKg(t, d.amounts.supplierSpend, s.industry))
    ensures d.amounts.supplierSpend <= 0.0 ==> PurchasedGoodsKg(t, d.amounts.supplierSpend, s.industry) == 0.0
    ensures Kilograms(TransportKg(t, d.amounts.tonKm, ROAD))
    ensures d.amounts.tonKm <= 0.0 ==> TransportKg(t, d.amounts.tonKm, ROAD) == 0.0
    ensures Kilograms(WasteKg(d.amounts.wasteKg)) && (d.amounts.wasteKg <= 0.0 ==> WasteKg(d.amounts.wasteKg) == 0.0)
    ensures Kilograms(BusinessTravelKg(t, d.amounts.employees, s.industry, d.amounts.travelSpend))
    ensures !Travels(d) ==> BusinessTravelKg(t, d.amounts.employees, s.industry, d.amounts.travelSpend) == 0.0
    ensures Kilograms(CommutingKg(t, d.amounts.employees, s.region))
    ensures d.amounts.employees <= 0 ==> CommutingKg(t, d.amounts.employees, s.region) == 0.0
  {
    hide Hundredths;
  }

  lemma FirstCategories(goodsGiven: bool, goodsKg: real, transportGiven: bool, transportKg: real,
                        wasteGiven: bool, wasteKg: real)
    requires Kilograms(goodsKg) && (!goodsGiven ==> goodsKg == 0.0)
    requires Kilograms(transportKg) && (!transportGiven ==> transportKg == 0.0)
    requires Kilograms(wasteKg) && (!wasteGiven ==> wasteKg == 0.0)
    ensures var goods := SetIf(goodsGiven, Empty, PurchasedGoods, goodsKg);
            var transport := SetIf(transportGiven, goods, UpstreamTransport, transportKg);
            var waste := SetIf(wasteGiven, transport, Waste, wasteKg);
            && NonNegative(waste) && AllHundredths(waste)
            && Get(waste, BusinessTravel) == 0.0 && Get(waste, Commuting) == 0.0
  {
    hide SetIf, Hundredths, Set;
    var goods := SetIf(goodsGiven, Empty, PurchasedGoods, goodsKg);
    var transport := SetIf(transportGiven, goods, UpstreamTransport, transportKg);
    SetIfFacts(goodsGiven, Empty, PurchasedGoods, goodsKg);
    SetIfFacts(transportGiven, goods, UpstreamTransport, transportKg);
    SetIfFacts(wasteGiven, transport, Waste, wasteKg);
  }

  lemma LastCategories(
    waste: Dict<Category>, travelGiven: bool, travelKg: real, commutingGiven: bool, commutingKg: real)
    requires NonNegative(waste) && AllHundredths(waste)
    requires Get(waste, BusinessTravel) == 0.0 && Get(waste, Commuting) == 0.0
    requires Kilograms(travelKg) && (!travelGiven ==> travelKg == 0.0)
    requires Kilograms(commutingKg) && (!commutingGiven ==> commutingKg == 0.0)
    ensures var travel := SetIf(travelGiven, waste, BusinessTravel, travelKg);
            var commuting := SetIf(commutingGiven, travel, Commuting, commutingKg);
            NonNegative(commuting) && AllHundredths(commuting)
  {
    hide SetIf, Hundredths, Set;
    SetIfFacts(travelGiven, waste, BusinessTravel, travelKg);
    SetIfFacts(commutingGiven, SetIf(travelGiven, waste, BusinessTravel, travelKg), Commuting, commutingKg);
  }

  lemma ActivityScope3IsKilograms(t: Tables, d: ProvidedData, s: Setting)
    requires Valid(t)
    ensures var detail := ActivityScope3(t, d, s); NonNegative(detail) && AllHundredths(detail)
  {
    Scope3PartsAreKilograms(t, d, s);
    hide SetIf, Set, Get, NonNegative, AllHundredths, Kilograms, Valid;
    hide PurchasedGoodsKg, TransportKg, WasteKg, BusinessTravelKg, CommutingKg, Travels;
    var a := d.amounts;
    var goods := SetIf(a.supplierSpend > 0.0, Empty, PurchasedGoods, PurchasedGoodsKg(t, a.supplierSpend, s.industry));
    var transport := SetIf(a.tonKm > 0.0, goods, UpstreamTransport, TransportKg(t, a.tonKm, ROAD));
    var waste := SetIf(a.wasteKg > 0.0, transport, Waste, WasteKg(a.wasteKg));
    FirstCategories(a.supplierSpend > 0.0, PurchasedGoodsKg(t, a.supplierSpend, s.industry),
                    a.tonKm > 0.0, TransportKg(t, a.tonKm, ROAD), a.wasteKg > 0.0, WasteKg(a.wasteKg));
    LastCategories(waste, Travels(d), BusinessTravelKg(t, a.employees, s.industry, a.travelSpend),
                   a.employees > 0, CommutingKg(t, a.employees, s.region));
  }

  /** What a category's activity data come to. */
  function ActivityKg(t: Tables, d: ProvidedData, s: Setting, k: Category): real
    requires Valid(t)
  {
    match k
    case PurchasedGoods => PurchasedGoodsKg(t, d.amounts.supplierSpend, s.industry)
    case UpstreamTransport => TransportKg(t, d.amounts.tonKm, ROAD)
    case Waste => WasteKg(d.amounts.wasteKg)
    case BusinessTravel => BusinessTravelKg(t, d.amounts.employees, s.industry, d.amounts.travelSpend)
    case Commuting => CommutingKg(t, d.amounts.employees, s.region)
    case Other(_) => 0.0
  }

  lemma ActivityCategories(t: Tables, d: ProvidedData, s: Setting, k: Category)
    requires Valid(t)
    ensures Get(ActivityScope3(t, d, s), k) == ActivityKg(t, d, s, k)
  {
    Scope3PartsAreKilograms(t, d, s);
    hide SetIf, Valid, Kilograms, PurchasedGoodsKg, TransportKg, WasteKg, BusinessTravelKg, CommutingKg, Travels;
    var a := d.amounts;
    var goods := SetIf(a.supplierSpend > 0.0, Empty, PurchasedGoods, PurchasedGoodsKg(t, a.supplierSpend, s.industry));
    var transport := SetIf(a.tonKm > 0.0, goods, UpstreamTransport, TransportKg(t, a.tonKm, ROAD));
    var waste := SetIf(a.wasteKg > 0.0, transport, Waste, WasteKg(a.wasteKg));
    var travel := SetIf(Travels(d), waste, BusinessTravel, BusinessTravelKg(t, a.employees, s.industry, a.travelSpend));
    GetSetIf(a.supplierSpend > 0.0, Empty, PurchasedGoods, PurchasedGoodsKg(t, a.supplierSpend, s.industry), k);
    GetSetIf(a.tonKm > 0.0, goods, UpstreamTransport, TransportKg(t, a.tonKm, ROAD), k);
    GetSetIf(a.wasteKg > 0.0, transport, Waste, WasteKg(a.wasteKg), k);
    GetSetIf(Travels(d), waste, BusinessTravel, BusinessTravelKg(t, a.employees, s.industry, a.travelSpend), k);
    GetSetIf(a.employees > 0, travel, Commuting, CommutingKg(t, a.employees, s.region), k);
  }

  /** Averages never replace activity data: a category whose data come to something is reported with just that. */
  lemma ActivityIsNotOverwritten(t: Tables, d: ProvidedData, s: Setting, k: Category)
    requires Valid(t) && ActivityKg(t, d, s, k) > 0.0
    ensures Get(Scope3Detail(t, d, s), k) == ActivityKg(t, d, s, k)
  {
    hide ActivityScope3, ActivityKg, EstimatedTotal, Normalised, Fill;
    ActivityCategories(t, d, s, k);
    var p := IndustryFor(t, s.industry).profile;
    var detail := ActivityScope3(t, d, s);
    PositiveAmountsAreKept(Normalised(p.materiality), detail, Sum(detail),
                           EstimatedTotal(p, d.amounts.revenue, d.amounts.employees as real), true, k);
  }

  lemma Scope3IsKilograms(t: Tables, d: ProvidedData, s: Setting)
    requires Valid(t)
    ensures AccountsFor(Scope3Detail(t, d, s), Sum(Scope3Detail(t, d, s)))
    ensures Kilograms(Sum(Scope3Detail(t, d, s)))
  {
    hide ActivityScope3, EstimatedTotal, Normalised, Fill, Hundredths;
    var p := IndustryFor(t, s.industry).profile;
    var detail := ActivityScope3(t, d, s);
    ActivityScope3IsKilograms(t, d, s);
    FillKeepsAmounts(Normalised(p.materiality), detail, Sum(detail),
                     EstimatedTotal(p, d.amounts.revenue, d.amounts.employees as real));
    AmountFacts(Scope3Detail(t, d, s), Waste);
  }

  // ---------------------------------------------------------------- confidence

  datatype Field =
      FuelLiters | FuelType | GasM3 | Kwh | VehicleDistance | Employees | Revenue | SupplierSpend
    | TonKm | OfficeSqm | TravelSpend | WasteAmount

  datatype FieldWeights = FieldWeights(byIndustry: map<string, Dict<Field>>, default: Dict<Field>)

  predicate ValidWeights(w: FieldWeights) {
    NonNegative(w.default) && forall k :: k in w.byIndustry ==> NonNegative(w.byIndustry[k])
  }

  predicate Given(f: Field, d: ProvidedData) {
    match f
    case FuelLiters => d.amounts.fuelLiters != 0.0
    case FuelType => d.fuelType.Some? && d.fuelType.value != ""
    case GasM3 => d.amounts.gasM3 != 0.0
    case Kwh => d.amounts.kwh != 0.0
    case VehicleDistance => d.amounts.vehicleKm != 0.0
    case Employees => d.amounts.employees != 0
    case Revenue => d.amounts.revenue != 0.0
    case SupplierSpend => d.amounts.supplierSpend != 0.0
    case TonKm => d.amounts.tonKm != 0.0
    case OfficeSqm => d.amounts.officeSqm != 0.0
    case TravelSpend => d.amounts.travelSpend != 0.0
    case WasteAmount => d.amounts.wasteKg != 0.0
  }

  function Earned(weights: Dict<Field>, d: ProvidedData): real {
    match weights
    case Empty => 0.0
    case Entry(f, w, rest) => Earned(rest, d) + if Given(f, d) then w else 0.0
  }

  function Completeness(weights: Dict<Field>, d: ProvidedData): real {
    if Sum(weights) == 0.0 then 0.0 else Round4(Min(Earned(weights, d) / Sum(weights), 1.0))
  }

  method CalcDataCompleteness(w: FieldWeights, d: ProvidedData, industry: string) returns (score: real)
    ensures score == Completeness(Fallback(w.byIndustry, industry, w.default), d)
  {
    hide Given, Round4;
    var weights := Fallback(w.byIndustry, industry, w.default);
    var total := Sum(weights);
    if total == 0.0 {
      return 0.0;
    }
    var earned := 0.0;
    var todo := weights;
    while todo.Entry?
      invariant earned + Earned(todo, d) == Earned(weights, d)
      decreases todo
    {
      if Given(todo.key, d) {
        earned := earned + todo.amount;
      }
      todo := todo.rest;
    }
    score := Round4(Min(earned / total, 1.0));
  }

  lemma {:induction false} EarnedBounds(weights: Dict<Field>, d: ProvidedData)
    requires NonNegative(weights)
    ensures 0.0 <= Earned(weights, d) <= Sum(weights)
  {
    if weights.Entry? {
      EarnedBounds(weights.rest, d);
    }
  }

  lemma RatioBounds(part: real, whole: real)
    requires 0.0 <= part <= whole && whole > 0.0
    ensures 0.0 <= part / whole <= 1.0
    ensures part == whole ==> part / whole == 1.0
  {
  }

  /** Whatever the weights: completeness is between 0 and 1, and 1 when every weighted field is given. */
  lemma CompletenessBounds(weights: Dict<Field>, d: ProvidedData)
    requires NonNegative(weights)
    ensures 0.0 <= Completeness(weights, d) <= 1.0
    ensures Sum(weights) > 0.0 && Earned(weights, d) == Sum(weights) ==> Completeness(weights, d) == 1.0
  {
    EarnedBounds(weights, d);
    hide Earned, Sum, NonNegative, Round4;
    if Sum(weights) != 0.0 {
      RatioBounds(Earned(weights, d), Sum(weights));
      Round4Between(Min(Earned(weights, d) / Sum(weights), 1.0), 0, 1);
      Round4Between(1.0, 1, 1);
    }
  }

  function One(b: bool): nat { if b then 1 else 0 }

  /** The recognised fields that the miner counts: all but the fuel type. */
  const COUNTED_FIELDS := [
    FuelLiters, GasM3, Kwh, VehicleDistance, Employees, Revenue, SupplierSpend, TonKm, OfficeSqm, TravelSpend,
    WasteAmount]

  function GivenAmong(fields: seq<Field>, d: ProvidedData): nat {
    if fields == [] then 0 else One(Given(fields[0], d)) + GivenAmong(fields[1..], d)
  }

  /** Fields with a value, leaving out the fuel and vehicle types. */
  function FieldCount(d: ProvidedData): nat {
    GivenAmong(COUNTED_FIELDS, d) + One(d.amounts.leakedKg != 0.0) + One(d.amounts.certificatesKwh != 0.0)
    + One(d.refrigerant.Some? && d.refrigerant.value != "") + d.extras
  }

  function InputRatio(d: ProvidedData): real {
    Min(FieldCount(d) as real / 13.0, 1.0)
  }

  /** What the miner rounds to its confidence. */
  function Blend(completeness: real, d: ProvidedData): real {
    completeness * 0.6 + InputRatio(d) * 0.4
  }

  function MinerConfidence(completeness: real, d: ProvidedData): real {
    Round4(Blend(completeness, d))
  }

  lemma MinerConfidenceBounds(completeness: real, d: ProvidedData)
    requires 0.0 <= completeness <= 1.0
    ensures 0.0 <= MinerConfidence(completeness, d) <= 1.0
  {
    hide FieldCount;
    Round4Between(completeness * 0.6 + InputRatio(d) * 0.4, 0, 1);
  }

  // ---------------------------------------------------------------- the two answers

  function Totals(scope1: real, scope2: real, scope3: real): Emissions {
    Emissions(
      Amount(Round2(scope1)), Amount(Round2(scope2)), Amount(Round2(scope3)), Amount(Round2(scope1 + scope2 + scope3)))
  }

  function SettingOf(q: Questionnaire): Setting {
    Setting(q.industry.UnwrapOr("manufacturing"), q.region.UnwrapOr("US"))
  }

  predicate NonEmpty(notes: Option<seq<Note>>) {
    notes.Some? && notes.value != []
  }

  /** The notes, or this one when there are none. */
  function OrElse(notes: seq<Note>, default: Note): (some: seq<Note>)
    ensures some != []
  {
    if notes == [] then [default] else notes
  }

  function MinerSources(d: ProvidedData, s: Setting, detail: Dict<Category>): seq<Note> {
    OrElse(NoteIf(d.amounts.fuelLiters > 0.0, EpaFactors) + NoteIf(d.amounts.kwh > 0.0, GridFactorFor(s.region))
           + Scope3Sources(d, detail), EpaFactors)
  }

  function MinerAssumptions(d: ProvidedData, s: Setting, supplierFactor: Option<real>, detail: Dict<Category>)
    : seq<Note>
  {
    OrElse(Scope1Assumptions(d) + Scope2Assumptions(d, supplierFactor) + Scope3Assumptions(d, s, detail),
           StandardMethodology)
  }

  /** What the miner answers to a valid questionnaire, with its defaults filled in. */
  predicate MinerAnswer(t: Tables, w: FieldWeights, q: Questionnaire, supplierFactor: Option<real>, r: Response)
    requires Valid(t)
  {
    var d, s := q.data, SettingOf(q);
    && r.emissions == Some(Totals(Scope1Kg(t, d), Scope2Kg(t, d, s.region), Sum(Scope3Detail(t, d, s))))
    && r.breakdown == Some(Breakdown(
                             Some(MinerScope1(t, d)),
                             Some(if d.amounts.kwh > 0.0 then Scope2Methods(t, d, s.region, supplierFactor) else Empty),
                             Some(Scope3Detail(t, d, s))))
    && r.confidence == Some(MinerConfidence(Completeness(Fallback(w.byIndustry, s.industry, w.default), d), d))
    && r.sources == Some(MinerSources(d, s, Scope3Detail(t, d, s)))
    && r.assumptions == Some(MinerAssumptions(d, s, supplierFactor, Scope3Detail(t, d, s)))
  }

  const ERROR_ANSWER := Response(
    Some(Emissions(Amount(0.0), Amount(0.0), Amount(0.0), Amount(0.0))),
    None, Some(-1.0), Some([]), Some([ValidationError]))

  method Estimate(t: Tables, w: FieldWeights, q: Questionnaire, supplierFactor: Option<real>) returns (r: Response)
    requires Valid(t)
    ensures MinerAnswer(t, w, q, supplierFactor, r)
  {
    hide Scope1Kg, MinerScope1, Scope2Kg, Scope2Methods, Scope3Detail, Completeness, FieldCount, Round2, Round4;
    hide Sum, Fallback, FilledIn, Scope3Sources, Scope1Assumptions, Scope2Assumptions, Scope3Assumptions, NoteIf;
    var s := SettingOf(q);
    var scope1, detail1, assumptions, sources := EstimateScope1(t, q.data, [], []);
    var scope2, detail2, scope3, detail3;
    scope2, detail2, assumptions, sources := EstimateScope2(t, q.data, s.region, supplierFactor, assumptions, sources);
    scope3, detail3, assumptions, sources := EstimateScope3(t, q.data, s, assumptions, sources);
    assert sources == NoteIf(q.data.amounts.fuelLiters > 0.0, EpaFactors)
                      + NoteIf(q.data.amounts.kwh > 0.0, GridFactorFor(s.region)) + Scope3Sources(q.data, detail3);
    assert assumptions == Scope1Assumptions(q.data) + Scope2Assumptions(q.data, supplierFactor)
                          + Scope3Assumptions(q.data, s, detail3);
    var total := scope1 + scope2 + scope3;
    var completeness := CalcDataCompleteness(w, q.data, s.industry);
    var confidence := MinerConfidence(completeness, q.data);
    r := Response(
      Some(Emissions(Amount(Round2(scope1)), Amount(Round2(scope2)), Amount(Round2(scope3)), Amount(Round2(total)))),
      Some(Breakdown(Some(detail1), Some(detail2), Some(detail3))),
      Some(confidence),
      Some(OrElse(sources, EpaFactors)),
      Some(OrElse(assumptions, StandardMethodology)));
  }

  /** The miner's handler: a questionnaire that fails validation gets the error answer. */
  method Forward(t: Tables, w: FieldWeights, q: Questionnaire, supplierFactor: Option<real>) returns (r: Response)
    requires Valid(t)
    ensures if ValidQuestionnaire(q) then MinerAnswer(t, w, WithDefaults(q), supplierFactor, r) else r == ERROR_ANSWER
  {
    if ValidQuestionnaire(q) {
      r := Estimate(t, w, WithDefaults(q), supplierFactor);
    } else {
      r := ERROR_ANSWER;
    }
  }

  /** What the platform's own estimate returns. */
  predicate LocalAnswer(t: Tables, w: FieldWeights, q: Questionnaire, supplierFactor: Option<real>, r: Response)
    requires Valid(t)
  {
    var d, s := q.data, SettingOf(q);
    && r.emissions == Some(Totals(Scope1Kg(t, d), Scope2Kg(t, d, s.region), Sum(Scope3Detail(t, d, s))))
    && r.breakdown == Some(Breakdown(
                             Some(LocalScope1(t, d)),
                             Some(Scope2Methods(t, d, s.region, supplierFactor)),
                             Some(Scope3Detail(t, d, s))))
    && r.confidence == Some(Round4(Completeness(Fallback(w.byIndustry, s.industry, w.default), d)))
    && r.sources == Some([EpaDatabase, GridDatabases, IndustryDatabase])
    && r.assumptions == Some(LocalAssumptions(d.amounts))
  }

  method SumScope1Locally(t: Tables, d: ProvidedData) returns (s1: real, detail: Dict<Source>)
    requires Valid(t)
    ensures s1 == Scope1Kg(t, d) && detail == LocalScope1(t, d)
  {
    hide StationaryCombustion, MobileCombustion, FugitiveEmissions, Set, Get;
    NothingFromNothing(t, d);
    s1, detail := 0.0, Empty;
    if d.amounts.fuelLiters > 0.0 {
      var val := FuelKg(t, d);
      s1 := s1 + val;
      detail := Set(detail, Stationary, val);
    }
    if d.amounts.gasM3 > 0.0 {
      var val := GasKg(t, d);
      s1 := s1 + val;
      detail := Set(detail, NaturalGas, val);
    }
    if d.amounts.vehicleKm > 0.0 {
      var val := VehicleKg(t, d);
      s1 := s1 + val;
      detail := Set(detail, Mobile, val);
    }
    if Leaks(d) {
      var val := LeakKg(t, d);
      s1 := s1 + val;
      detail := Set(detail, Fugitive, val);
    }
  }

  method SumScope2Locally(t: Tables, d: ProvidedData, region: string, supplierFactor: Option<real>)
    returns (s2: real, detail: Dict<Method>)
    requires Valid(t)
    ensures s2 == Scope2Kg(t, d, region) && detail == Scope2Methods(t, d, region, supplierFactor)
  {
    NoElectricityNoEmission(t, d, region, supplierFactor);
    hide LocationBased, MarketBased;
    var a := d.amounts;
    var location := if a.kwh > 0.0 then LocationBased(t, a.kwh, region) else 0.0;
    var market := if a.kwh > 0.0 then MarketBased(t, a.kwh, region, supplierFactor, a.certificatesKwh) else 0.0;
    s2 := location;
    detail := Entry(ByLocation, location, Entry(ByMarket, market, Empty));
  }

  method SumScope3Locally(t: Tables, d: ProvidedData, s: Setting) returns (s3: real, detail: Dict<Category>)
    requires Valid(t)
    ensures detail == Scope3Detail(t, d, s) && s3 == Sum(detail)
  {
    hide PurchasedGoodsKg, TransportKg, WasteKg, BusinessTravelKg, CommutingKg, Completed, Set, Sum, IndustryFor;
    detail := Empty;
    var a := d.amounts;
    if a.supplierSpend > 0.0 {
      detail := Set(detail, PurchasedGoods, PurchasedGoodsKg(t, a.supplierSpend, s.industry));
    }
    if a.tonKm > 0.0 {
      detail := Set(detail, UpstreamTransport, TransportKg(t, a.tonKm, ROAD));
    }
    if a.wasteKg > 0.0 {
      detail := Set(detail, Waste, WasteKg(a.wasteKg));
    }
    if a.travelSpend > 0.0 || a.employees > 0 {
      detail := Set(detail, BusinessTravel, BusinessTravelKg(t, a.employees, s.industry, a.travelSpend));
    }
    if a.employees > 0 {
      detail := Set(detail, Commuting, CommutingKg(t, a.employees, s.region));
    }
    detail := FillIndustryDefaults(IndustryFor(t, s.industry).profile, detail, a.revenue, a.employees as real);
    s3 := Sum(detail);
  }

  /** Whatever had to be assumed: nothing when fuel or distance, electricity and spend are all given. */
  function LocalAssumptions(a: Amounts): seq<Note> {
    NoteIf(a.gasM3 == 0.0 && a.fuelLiters == 0.0 && a.vehicleKm == 0.0, NoDirectData)
    + NoteIf(a.kwh == 0.0, NoElectricityData) + NoteIf(a.supplierSpend == 0.0, NoSpendData)
  }

  method CollectAssumptions(a: Amounts) returns (assumptions: seq<Note>)
    ensures assumptions == LocalAssumptions(a)
  {
    assumptions := [];
    if a.gasM3 == 0.0 && a.fuelLiters == 0.0 && a.vehicleKm == 0.0 {
      assumptions := assumptions + [NoDirectData];
    }
    if a.kwh == 0.0 {
      assumptions := assumptions + [NoElectricityData];
    }
    if a.supplierSpend == 0.0 {
      assumptions := assumptions + [NoSpendData];
    }
  }

  method EstimateLocally(t: Tables, w: FieldWeights, q: Questionnaire, supplierFactor: Option<real>)
    returns (r: Response)
    requires Valid(t)
    ensures LocalAnswer(t, w, q, supplierFactor, r)
  {
    hide Scope1Kg, LocalScope1, Scope2Kg, Scope2Methods, Scope3Detail, Completeness, Round2, Round4, Sum, Fallback;
    hide Valid, LocalAssumptions;
    var s := SettingOf(q);
    var s1, detail1 := SumScope1Locally(t, q.data);
    var s2, detail2 := SumScope2Locally(t, q.data, s.region, supplierFactor);
    var s3, detail3 := SumScope3Locally(t, q.data, s);
    var confidence := CalcDataCompleteness(w, q.data, s.industry);
    var total := Round2(s1 + s2 + s3);
    var assumptions := CollectAssumptions(q.data.amounts);
    r := Response(
      Some(Emissions(Amount(Round2(s1)), Amount(Round2(s2)), Amount(Round2(s3)), Amount(total))),
      Some(Breakdown(Some(detail1), Some(detail2), Some(detail3))),
      Some(Round4(confidence)),
      Some([EpaDatabase, GridDatabases, IndustryDatabase]),
      Some(assumptions));
  }

  lemma NoElectricityNoEmission(t: Tables, d: ProvidedData, region: string, supplierFactor: Option<real>)
    requires Valid(t)
    ensures d.amounts.kwh <= 0.0 ==> Scope2Kg(t, d, region) == 0.0 && MarketKg(t, d, region, supplierFactor) == 0.0
  {
  }

  // ---------------------------------------------------------------- what the answers have in common

  lemma Scope2IsKilograms(t: Tables, d: ProvidedData, s: Setting, supplierFactor: Option<real>)
    requires Valid(t)
    ensures Kilograms(Scope2Kg(t, d, s.region)) && Kilograms(MarketKg(t, d, s.region, supplierFactor))
  {
    EnergyIsKilograms(t, d.amounts.kwh, s.region, supplierFactor, d.amounts.certificatesKwh);
  }

  /** Whole hundredths are reported as they are, so the reported total is the sum of the reported scopes. */
  lemma TotalsAreExact(scope1: real, scope2: real, scope3: real)
    requires Kilograms(scope1) && Kilograms(scope2) && Kilograms(scope3)
    ensures Totals(scope1, scope2, scope3)
         == Emissions(Amount(scope1), Amount(scope2), Amount(scope3), Amount(scope1 + scope2 + scope3))
    ensures Kilograms(scope1 + scope2 + scope3)
  {
    HundredthsAdd(scope1, scope2);
    HundredthsAdd(scope1 + scope2, scope3);
    Round2Facts(scope1);
    Round2Facts(scope2);
    Round2Facts(scope3);
    Round2Facts(scope1 + scope2 + scope3);
  }

  /** Totals that are reported, in kilograms, and consistent with each other and with a breakdown. */
  predicate Consistent(e: Emissions, scope1: Dict<Source>, scope3: Dict<Category>) {
    && e.scope1.Amount? && e.scope2.Amount? && e.scope3.Amount? && e.total.Amount?
    && Kilograms(e.scope1.value) && Kilograms(e.scope2.value) && Kilograms(e.scope3.value)
    && e.total.value == e.scope1.value + e.scope2.value + e.scope3.value
    && AccountsFor(scope1, e.scope1.value)
    && AccountsFor(scope3, e.scope3.value)
  }

  lemma AnswersAreConsistent(t: Tables, d: ProvidedData, s: Setting)
    requires Valid(t)
    ensures var scope1, scope2, scope3 := Scope1Kg(t, d), Scope2Kg(t, d, s.region), Scope3Detail(t, d, s);
            var e := Totals(scope1, scope2, Sum(scope3));
            && e.scope1 == Amount(scope1) && e.scope2 == Amount(scope2)
            && Consistent(e, MinerScope1(t, d), scope3) && Consistent(e, LocalScope1(t, d), scope3)
  {
    MinerScope1Sum(t, d);
    LocalScope1Sum(t, d);
    Scope1IsKilograms(t, d);
    Scope2IsKilograms(t, d, s, None);
    Scope3IsKilograms(t, d, s);
    hide Scope1Kg, Scope2Kg, Scope3Detail, MinerScope1, LocalScope1, Round2, Sum, AllHundredths, NonNegative, Kilograms;
    TotalsAreExact(Scope1Kg(t, d), Scope2Kg(t, d, s.region), Sum(Scope3Detail(t, d, s)));
  }

  lemma Scope1IsKilograms(t: Tables, d: ProvidedData)
    requires Valid(t)
    ensures Kilograms(Scope1Kg(t, d))
  {
    MinerScope1Sum(t, d);
    hide Scope1Kg, MinerScope1;
    AmountFacts(MinerScope1(t, d), Stationary);
  }

  lemma DirectDefaults(t: Tables, d: ProvidedData, filled: ProvidedData)
    requires Valid(t)
    requires filled.amounts == d.amounts && filled.refrigerant == d.refrigerant
    requires filled.fuelType == Some(d.fuelType.UnwrapOr("diesel"))
    requires filled.vehicleType == Some(d.vehicleType.UnwrapOr("heavy_truck_diesel"))
    ensures FuelKg(t, filled) == FuelKg(t, d) && GasKg(t, filled) == GasKg(t, d)
    ensures VehicleKg(t, filled) == VehicleKg(t, d) && LeakKg(t, filled) == LeakKg(t, d)
    ensures Leaks(filled) <==> Leaks(d)
  {
    hide Valid, StationaryCombustion, MobileCombustion, FugitiveEmissions;
  }

  lemma Scope3ReadsAmounts(t: Tables, d: ProvidedData, filled: ProvidedData, s: Setting)
    requires Valid(t) && filled.amounts == d.amounts
    ensures Scope3Detail(t, filled, s) == Scope3Detail(t, d, s)
  {
    hide Valid, Completed, SetIf, IndustryFor, PurchasedGoodsKg, TransportKg, WasteKg, BusinessTravelKg, CommutingKg;
    assert ActivityScope3(t, filled, s) == ActivityScope3(t, d, s);
    hide ActivityScope3;
  }

  lemma DirectScopesReadDefaults(t: Tables, d: ProvidedData, filled: ProvidedData)
    requires Valid(t)
    requires filled.amounts == d.amounts && (Leaks(filled) <==> Leaks(d))
    requires FuelKg(t, filled) == FuelKg(t, d) && GasKg(t, filled) == GasKg(t, d)
    requires VehicleKg(t, filled) == VehicleKg(t, d) && LeakKg(t, filled) == LeakKg(t, d)
    ensures Scope1Kg(t, filled) == Scope1Kg(t, d)
    ensures MinerScope1(t, filled) == MinerScope1(t, d) && LocalScope1(t, filled) == LocalScope1(t, d)
  {
    hide Valid, FuelKg, GasKg, VehicleKg, LeakKg, Leaks, SetIf;
    assert MinerScope1(t, filled) == MinerScope1(t, d);
    assert LocalScope1(t, filled) == LocalScope1(t, d);
    hide MinerScope1, LocalScope1;
  }

  /** Filling in the defaults changes no estimate: whatever reads a field that may be missing takes the same default. */
  lemma DefaultsChangeNoEstimate(t: Tables, q: Questionnaire)
    requires Valid(t)
    ensures var d, filled, s := q.data, WithDefaults(q).data, SettingOf(q);
            && SettingOf(WithDefaults(q)) == s
            && Scope1Kg(t, filled) == Scope1Kg(t, d)
            && MinerScope1(t, filled) == MinerScope1(t, d) && LocalScope1(t, filled) == LocalScope1(t, d)
            && Scope2Kg(t, filled, s.region) == Scope2Kg(t, d, s.region)
            && Scope3Detail(t, filled, s) == Scope3Detail(t, d, s)
  {
    hide Valid, FuelKg, GasKg, VehicleKg, LeakKg, Leaks, Scope1Kg, MinerScope1, LocalScope1;
    hide Scope3Detail, LocationBased;
    var d, filled, s := q.data, WithDefaults(q).data, SettingOf(q);
    DirectDefaults(t, d, filled);
    DirectScopesReadDefaults(t, d, filled);
    Scope3ReadsAmounts(t, d, filled, s);
  }

  /** The two answers to one questionnaire, which the miner fills in and the platform reads as it is. */
  predicate BothAnswer(
    t: Tables, w: FieldWeights, q: Questionnaire, supplierFactor: Option<real>, miner: Response, local: Response)
    requires Valid(t)
  {
    MinerAnswer(t, w, WithDefaults(q), supplierFactor, miner) && LocalAnswer(t, w, q, supplierFactor, local)
  }

  /**
   The two implementations agree: for the same questionnaire they report the same totals and
   the same Scope 3 categories, and Scope 1 breakdowns with equal sums although the keys differ.
   */
  lemma ImplementationsAgree(
    t: Tables, w: FieldWeights, q: Questionnaire, supplierFactor: Option<real>, miner: Response, local: Response)
    requires Valid(t)
    requires BothAnswer(t, w, q, supplierFactor, miner, local)
    ensures miner.emissions == local.emissions
    ensures miner.breakdown.value.scope3 == local.breakdown.value.scope3
    ensures Sum(miner.breakdown.value.scope1.value) == Sum(local.breakdown.value.scope1.value)
         == miner.emissions.value.scope1.value
    ensures var (merged, apart) := (miner.breakdown.value.scope1.value, local.breakdown.value.scope1.value);
            && Get(merged, Stationary) == Get(apart, Stationary) + Get(apart, NaturalGas)
            && Get(merged, Mobile) == Get(apart, Mobile) && Get(merged, Fugitive) == Get(apart, Fugitive)
    ensures Get(miner.breakdown.value.scope2.value, ByLocation) == Get(local.breakdown.value.scope2.value, ByLocation)
         == miner.emissions.value.scope2.value
  {
    NoElectricityNoEmission(t, q.data, SettingOf(q).region, supplierFactor);
    hide Scope1Kg, Scope2Kg, MarketKg, Scope3Detail, MinerScope1, LocalScope1, Totals, Completeness, MinerConfidence;
    hide Valid, InputRatio;
    DefaultsChangeNoEstimate(t, q);
    AnswersAreConsistent(t, q.data, SettingOf(q));
    Scope1Keys(t, q.data);
  }

  /** Completeness comes in steps of a ten-thousandth. */
  lemma CompletenessInSteps(weights: Dict<Field>, d: ProvidedData) returns (k: int)
    ensures Completeness(weights, d) == k as real / 10000.0
  {
    hide Earned, Sum, HalfEven;
    if Sum(weights) == 0.0 {
      k := 0;
    } else {
      k := HalfEven(Min(Earned(weights, d) / Sum(weights), 1.0) * 10000.0);
    }
  }

  /** The input ratio comes in steps of a thirteenth. */
  lemma InputRatioInSteps(d: ProvidedData) returns (j: int)
    ensures InputRatio(d) == j as real / 13.0
  {
    hide FieldCount;
    j := if FieldCount(d) <= 13 then FieldCount(d) else 13;
  }

  lemma NotHalfWay(h: int)
    ensures h as real != 32.5 && h as real != -32.5
  {
    assert h <= 32 || h >= 33;
    assert h <= -33 || h >= -32;
  }

  lemma RoundsToIff(x: real, k: int)
    requires Abs(x - k as real) != 0.5
    ensures HalfEven(x) == k <==> Abs(x - k as real) < 0.5
  {
    HalfEvenOfWhole(k);
  }

  /** The blend is never half-way between the platform's step and a neighbouring one. */
  lemma BlendIsNoTie(filled: int, ratio: int, raw: int)
    ensures Abs((filled as real / 10000.0 * 0.6 + ratio as real / 13.0 * 0.4) * 10000.0 - raw as real) != 0.5
  {
    var c, r := filled as real / 10000.0, ratio as real / 13.0;
    assert c * 10000.0 == filled as real && r * 13.0 == ratio as real;
    var h := 39 * filled + 20000 * ratio - 65 * raw;
    assert h as real == 65.0 * ((c * 0.6 + r * 0.4) * 10000.0 - raw as real);
    NotHalfWay(h);
  }

  lemma BlendAgreesIff(filled: int, ratio: int, raw: int, blend: real, c: real)
    requires blend == filled as real / 10000.0 * 0.6 + ratio as real / 13.0 * 0.4 && c == raw as real / 10000.0
    ensures Round4(blend) == Round4(c) <==> Abs(blend - c) < 0.00005
  {
    BlendIsNoTie(filled, ratio, raw);
    HalfEvenOfWhole(raw);
    RoundsToIff(blend * 10000.0, raw);
    hide HalfEven;
    assert c * 10000.0 == raw as real;
  }

  /**
   The miner's blend for the filled-in data is less than half a ten-thousandth from the
   completeness of the raw ones.
   */
  predicate BlendIsClose(weights: Dict<Field>, filled: ProvidedData, raw: ProvidedData) {
    Abs(Blend(Completeness(weights, filled), filled) - Completeness(weights, raw)) < 0.00005
  }

  /**
   They do not agree on confidence.  The miner fills in a fuel type before it measures
   completeness and also weighs how many fields have a value; the platform does neither.
   The two confidences are equal if and only if the miner's blend is less than half a
   ten-thousandth from the platform's completeness.
   */
  lemma ConfidencesAgreeIff(
    t: Tables, w: FieldWeights, q: Questionnaire, supplierFactor: Option<real>, miner: Response, local: Response)
    requires Valid(t)
    requires BothAnswer(t, w, q, supplierFactor, miner, local)
    ensures var weights := Fallback(w.byIndustry, SettingOf(q).industry, w.default);
            miner.confidence == local.confidence <==> BlendIsClose(weights, WithDefaults(q).data, q.data)
  {
    hide *;
    ConfidenceOf(t, w, q, supplierFactor, miner, local);
    AgreesWhenClose(Fallback(w.byIndustry, SettingOf(q).industry, w.default), WithDefaults(q).data, q.data);
  }

  lemma AgreesWhenClose(weights: Dict<Field>, filled: ProvidedData, raw: ProvidedData)
    ensures MinerConfidence(Completeness(weights, filled), filled) == Round4(Completeness(weights, raw))
            <==> BlendIsClose(weights, filled, raw)
  {
    var blend := Blend(Completeness(weights, filled), filled);
    hide Completeness, InputRatio, Round4;
    var k := CompletenessInSteps(weights, filled);
    var j := InputRatioInSteps(filled);
    var r := CompletenessInSteps(weights, raw);
    BlendAgreesIff(k, j, r, blend, Completeness(weights, raw));
  }

  lemma ConfidenceOf(
    t: Tables, w: FieldWeights, q: Questionnaire, supplierFactor: Option<real>, miner: Response, local: Response)
    requires Valid(t)
    requires BothAnswer(t, w, q, supplierFactor, miner, local)
    ensures var weights := Fallback(w.byIndustry, SettingOf(q).industry, w.default);
            var filled := WithDefaults(q).data;
            && miner.confidence == Some(MinerConfidence(Completeness(weights, filled), filled))
            && local.confidence == Some(Round4(Completeness(weights, q.data)))
  {
    hide Scope1Kg, Scope2Kg, Scope3Detail, MinerScope1, LocalScope1, Totals, Completeness, FieldCount, Valid, Round4;
    hide Fallback, Sum, OrElse, MinerSources, MinerAssumptions, Scope2Methods;
  }

  /** The source's weights for manufacturing, the industry assumed when none is given. */
  const MANUFACTURING_WEIGHTS: Dict<Field> :=
    Entry(FuelLiters, 0.15, Entry(FuelType, 0.05, Entry(GasM3, 0.15, Entry(Kwh, 0.15, Entry(Employees, 0.05,
    Entry(Revenue, 0.05, Entry(SupplierSpend, 0.2, Entry(TonKm, 0.1, Entry(OfficeSqm, 0.02,
    Entry(VehicleDistance, 0.08, Empty))))))))))

  /** A questionnaire that says nothing: the miner fills in a fuel type. */
  const EMPTY_QUESTIONNAIRE := Questionnaire(
    None, None, None,
    ProvidedData(Amounts(0.0, 0.0, 0.0, 0.0, 0, 0.0, 0.0, 0.0, 0.0, 0.0, 0.0, 0.0, 0.0), None, None, None, 0))

  /** A questionnaire with every amount and a refrigerant, which leaves the fuel type to its default. */
  const NO_FUEL_TYPE := Questionnaire(
    None, None, None,
    ProvidedData(Amounts(1.0, 1.0, 1.0, 1.0, 1, 1.0, 1.0, 1.0, 1.0, 1.0, 1.0, 1.0, 1.0), None, None, Some("R_134a"), 0))

  /**
   Two valid questionnaires of a manufacturer: the empty one gets confidence 0.03 from the
   miner and 0.0 from the platform, the one without a fuel type 1.0 and 0.95.
   */
  lemma ConfidencesDiffer(
    t: Tables, w: FieldWeights, q: Questionnaire, supplierFactor: Option<real>, miner: Response, local: Response)
    requires Valid(t) && Fallback(w.byIndustry, "manufacturing", w.default) == MANUFACTURING_WEIGHTS
    requires q == EMPTY_QUESTIONNAIRE || q == NO_FUEL_TYPE
    requires BothAnswer(t, w, q, supplierFactor, miner, local)
    ensures ValidQuestionnaire(q)
    ensures miner.confidence == Some(if q == NO_FUEL_TYPE then 1.0 else 0.03)
    ensures local.confidence == Some(if q == NO_FUEL_TYPE then 0.95 else 0.0)
  {
    ConfidenceOf(t, w, q, supplierFactor, miner, local);
    hide *;
    BothAreValid();
    AllOrNothingConfidences(q);
  }

  lemma BothAreValid()
    ensures ValidQuestionnaire(EMPTY_QUESTIONNAIRE) && ValidQuestionnaire(NO_FUEL_TYPE)
  {
  }

  lemma AllOrNothingConfidences(q: Questionnaire)
    requires q == EMPTY_QUESTIONNAIRE || q == NO_FUEL_TYPE
    ensures SettingOf(q).industry == "manufacturing"
    ensures MinerConfidence(Completeness(MANUFACTURING_WEIGHTS, WithDefaults(q).data), WithDefaults(q).data)
         == if q == NO_FUEL_TYPE then 1.0 else 0.03
    ensures Round4(Completeness(MANUFACTURING_WEIGHTS, q.data)) == if q == NO_FUEL_TYPE then 0.95 else 0.0
  {
    hide Completeness, InputRatio, Round4;
    ManufacturingCompleteness(q.data, q == NO_FUEL_TYPE);
    ManufacturingCompleteness(WithDefaults(q).data, q == NO_FUEL_TYPE);
    RatioOfAllOrNothing(WithDefaults(q).data, q == NO_FUEL_TYPE);
    RoundedConfidences();
  }

  lemma RoundedConfidences()
    ensures Round4(0.0) == 0.0 && Round4(0.03) == 0.03 && Round4(0.05) == 0.05
    ensures Round4(0.95) == 0.95 && Round4(1.0) == 1.0
  {
    hide HalfEven;
    HalfEvenOfWhole(0);
    HalfEvenOfWhole(300);
    HalfEvenOfWhole(500);
    HalfEvenOfWhole(9500);
    HalfEvenOfWhole(10000);
  }

  /** The amounts of one of the two questionnaires. */
  predicate AllOrNothing(d: ProvidedData, all: bool) {
    d.amounts == if all then NO_FUEL_TYPE.data.amounts else EMPTY_QUESTIONNAIRE.data.amounts
  }

  lemma GivenAllOrNothing(d: ProvidedData, all: bool)
    requires AllOrNothing(d, all)
    ensures forall f :: f != FuelType ==> (Given(f, d) <==> all)
  {
  }

  lemma RatioOfAllOrNothing(d: ProvidedData, all: bool)
    requires AllOrNothing(d, all) && d.extras == 0
    requires d.refrigerant == if all then NO_FUEL_TYPE.data.refrigerant else None
    ensures InputRatio(d) == if all then 1.0 else 0.0
  {
    GivenAllOrNothing(d, all);
    CountedAllOrNothing(COUNTED_FIELDS, d, all);
    hide Given, GivenAmong;
    assert FieldCount(d) == if all then 14 else 0;
    hide FieldCount;
  }

  lemma {:induction false} CountedAllOrNothing(fields: seq<Field>, d: ProvidedData, all: bool)
    requires forall f :: f != FuelType ==> (Given(f, d) <==> all)
    requires FuelType !in fields
    ensures GivenAmong(fields, d) == if all then |fields| else 0
  {
    hide Given;
    if fields != [] {
      CountedAllOrNothing(fields[1..], d, all);
    }
  }

  lemma {:induction false} EarnedAllOrNothing(weights: Dict<Field>, d: ProvidedData, all: bool)
    requires forall f :: f != FuelType ==> (Given(f, d) <==> all)
    requires !Has(weights, FuelType)
    ensures Earned(weights, d) == if all then Sum(weights) else 0.0
  {
    hide Given;
    if weights.Entry? {
      EarnedAllOrNothing(weights.rest, d, all);
    }
  }

  lemma WeightsOfOne()
    ensures Sum(MANUFACTURING_WEIGHTS) == 1.0 && Sum(MANUFACTURING_WEIGHTS.rest.rest) == 0.8
    ensures !Has(MANUFACTURING_WEIGHTS.rest.rest, FuelType)
  {
  }

  lemma ManufacturingEarned(d: ProvidedData, all: bool)
    requires AllOrNothing(d, all)
    ensures Earned(MANUFACTURING_WEIGHTS, d)
         == (if all then 0.95 else 0.0) + if Given(FuelType, d) then 0.05 else 0.0
  {
    var w := MANUFACTURING_WEIGHTS;
    assert Earned(w, d)
        == Earned(w.rest.rest, d) + (if Given(FuelType, d) then 0.05 else 0.0) + if all then 0.15 else 0.0
    by {
      GivenAllOrNothing(d, all);
      hide Given, AllOrNothing;
    }
    hide *;
    WeightsOfOne();
    GivenAllOrNothing(d, all);
    EarnedAllOrNothing(w.rest.rest, d, all);
  }

  /** With all or none of the amounts, only the fuel type is left to make a difference. */
  lemma ManufacturingCompleteness(d: ProvidedData, all: bool)
    requires AllOrNothing(d, all)
    ensures Completeness(MANUFACTURING_WEIGHTS, d)
         == (if all then 0.95 else 0.0) + if Given(FuelType, d) then 0.05 else 0.0
  {
    hide Earned, Sum, Round4, Given, AllOrNothing;
    WeightsOfOne();
    ManufacturingEarned(d, all);
    RoundedConfidences();
  }

  /** The field validators of the protocol leave the miner's answer as it is. */
  lemma MinerAnswerIsClean(t: Tables, w: FieldWeights, q: Questionnaire, supplierFactor: Option<real>, r: Response)
    requires Valid(t) && ValidWeights(w)
    requires MinerAnswer(t, w, q, supplierFactor, r) || r == ERROR_ANSWER
    ensures Cleaned(r) == r
    ensures r.confidence.value <= 1.0 && (r.confidence.value < 0.0 <==> r == ERROR_ANSWER)
  {
    hide Scope1Kg, Scope2Kg, Scope3Detail, MinerScope1, LocalScope1, Totals, Completeness, MinerConfidence, Valid;
    if MinerAnswer(t, w, q, supplierFactor, r) {
      AnswersAreConsistent(t, q.data, SettingOf(q));
      var weights := Fallback(w.byIndustry, SettingOf(q).industry, w.default);
      CompletenessBounds(weights, q.data);
      MinerConfidenceBounds(Completeness(weights, q.data), q.data);
    }
  }
}
