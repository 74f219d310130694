/**
 Filling the missing Scope 3 categories from industry averages
 (carbonscope/emission_factors/scope3.py).
 */
module GapFilling {
  import opened Dictionaries
  import opened Outcomes
  import opened Rounding

  datatype Category =
    PurchasedGoods | UpstreamTransport | Waste | BusinessTravel | Commuting | Other(name: string)

  /** The part of an industry's averages that gap filling reads. */
  datatype Profile = Profile(
    materiality: Dict<Category>,
    tonnesPerMillionUsd: Option<real>,
    tonnesPerEmployee: Option<real>,
    scope3Share: real)

  predicate ValidProfile(p: Profile) {
    && Distinct(p.materiality) && NonNegative(p.materiality)
    && (p.tonnesPerMillionUsd.Some? ==> p.tonnesPerMillionUsd.value >= 0.0)
    && (p.tonnesPerEmployee.Some? ==> p.tonnesPerEmployee.value >= 0.0)
    && p.scope3Share >= 0.0
  }

  /** Weights that miss 1 by more than a hundredth are scaled to sum to 1. */
  function Normalised(weights: Dict<Category>): Dict<Category> {
    var total := Sum(weights);
    if total > 0.0 && Abs(total - 1.0) > 0.01 then Scaled(weights, total) else weights
  }

  function Kg(units: real, tonnesPerUnit: real, share: real): real {
    units * tonnesPerUnit * 1000.0 * share
  }

  /** All of Scope 3 in kg, estimated from revenue, else from the number of employees. */
  function EstimatedTotal(p: Profile, revenue: real, employees: real): real {
    if revenue > 0.0 then Kg(revenue / 1000000.0, p.tonnesPerMillionUsd.UnwrapOr(50.0), p.scope3Share)
    else if employees > 0.0 then Kg(employees, p.tonnesPerEmployee.UnwrapOr(10.0), p.scope3Share)
    else 0.0
  }

  /** What a missing category of this weight gets: its share, but no more than is left of the estimate. */
  function Share(weight: real, accounted: real, estimate: real): real {
    Min(estimate * weight, Max(estimate - accounted, 0.0))
  }

  predicate Fills(k: Category, weight: real, filled: Dict<Category>, accounted: real, estimate: real) {
    Get(filled, k) <= 0.0 && Share(weight, accounted, estimate) > 0.0
  }

  /** The pass over the weights: the amounts, rounded or not, and the running total, never rounded. */
  function Fill(weights: Dict<Category>, filled: Dict<Category>, accounted: real, estimate: real, rounded: bool)
    : (Dict<Category>, real)
  {
    match weights
    case Empty => (filled, accounted)
    case Entry(k, w, rest) =>
      if Fills(k, w, filled, accounted, estimate) then
        var v := Share(w, accounted, estimate);
        Fill(rest, Set(filled, k, if rounded then Round2(v) else v), accounted + v, estimate, rounded)
      else
        Fill(rest, filled, accounted, estimate, rounded)
  }

  /** How many categories the pass fills. */
  function FilledCount(weights: Dict<Category>, filled: Dict<Category>, accounted: real, estimate: real, rounded: bool)
    : nat
  {
    match weights
    case Empty => 0
    case Entry(k, w, rest) =>
      if Fills(k, w, filled, accounted, estimate) then
        var v := Share(w, accounted, estimate);
        1 + FilledCount(rest, Set(filled, k, if rounded then Round2(v) else v), accounted + v, estimate, rounded)
      else
        FilledCount(rest, filled, accounted, estimate, rounded)
  }

  function Completed(p: Profile, detail: Dict<Category>, revenue: real, employees: real): Dict<Category> {
    var estimate := EstimatedTotal(p, revenue, employees);
    if estimate <= 0.0 then detail
    else Fill(Normalised(p.materiality), detail, Sum(detail), estimate, true).0
  }

  lemma FillAfterLast(filled: Dict<Category>, accounted: real, estimate: real, rounded: bool)
    ensures Fill(Empty, filled, accounted, estimate, rounded) == (filled, accounted)
  {
  }

  lemma FillStep(weights: Dict<Category>, filled: Dict<Category>, accounted: real, estimate: real)
    requires weights.Entry?
    ensures Fill(weights, filled, accounted, estimate, true)
         == if Get(filled, weights.key) <= 0.0 && Share(weights.amount, accounted, estimate) > 0.0 then
              Fill(weights.rest, Set(filled, weights.key, Round2(Share(weights.amount, accounted, estimate))),
                   accounted + Share(weights.amount, accounted, estimate), estimate, true)
            else
              Fill(weights.rest, filled, accounted, estimate, true)
  {
  }

  method FillMissing(materiality: Dict<Category>, detail: Dict<Category>, estimate: real)
    returns (filled: Dict<Category>)
    ensures filled == Fill(materiality, detail, Sum(detail), estimate, true).0
  {
    hide Fill, Round2, Set, Get, Sum;
    filled := detail;
    var accounted := Sum(filled);
    var todo := materiality;
    while todo.Entry?
      invariant Fill(todo, filled, accounted, estimate, true) == Fill(materiality, detail, Sum(detail), estimate, true)
      decreases todo
    {
      var k, w := todo.key, todo.amount;
      FillStep(todo, filled, accounted, estimate);
      todo := todo.rest;
      if Get(filled, k) > 0.0 {
        continue;
      }
      var share := estimate * w;
      var remaining := Max(estimate - accounted, 0.0);
      var amount := Min(share, remaining);
      if amount > 0.0 {
        filled := Set(filled, k, Round2(amount));
        accounted := accounted + amount;
      }
    }
    FillAfterLast(filled, accounted, estimate, true);
  }

  method FillIndustryDefaults(p: Profile, detail: Dict<Category>, revenue: real, employees: real)
    returns (filled: Dict<Category>)
    ensures filled == Completed(p, detail, revenue, employees)
  {
    var materiality := p.materiality;
    var total := Sum(materiality);
    if total > 0.0 && Abs(total - 1.0) > 0.01 {
      materiality := Scaled(materiality, total);
    }
    hide Kg, Fill;
    var estimate := 0.0;
    if revenue > 0.0 {
      estimate := Kg(revenue / 1000000.0, p.tonnesPerMillionUsd.UnwrapOr(50.0), p.scope3Share);
    } else if employees > 0.0 {
      estimate := Kg(employees, p.tonnesPerEmployee.UnwrapOr(10.0), p.scope3Share);
    }
    if estimate <= 0.0 {
      return detail;
    }
    filled := FillMissing(materiality, detail, estimate);
  }

  // ---------------------------------------------------------------- the closed form

  /** A raised by the fraction t of E, but not past E unless it started there. */
  function RaisedTo(a: real, e: real, t: real): real {
    Max(a, Min(e, a + e * t))
  }

  /** Total weight of the categories that have no positive amount yet. */
  function MissingWeight(weights: Dict<Category>, filled: Dict<Category>): real {
    match weights
    case Empty => 0.0
    case Entry(k, w, rest) => MissingWeight(rest, filled) + if Get(filled, k) <= 0.0 then w else 0.0
  }

  lemma {:induction false} MissingWeightElsewhere(weights: Dict<Category>, filled: Dict<Category>, k: Category, v: real)
    requires !Has(weights, k)
    ensures MissingWeight(weights, Set(filled, k, v)) == MissingWeight(weights, filled)
  {
    if weights.Entry? {
      MissingWeightElsewhere(weights.rest, filled, k, v);
      GetSet(filled, k, v, weights.key);
    }
  }

  lemma {:induction false} MissingWeightNonNegative(weights: Dict<Category>, filled: Dict<Category>)
    requires NonNegative(weights)
    ensures MissingWeight(weights, filled) >= 0.0
  {
    if weights.Entry? {
      MissingWeightNonNegative(weights.rest, filled);
    }
  }

  /** One filled category, in the closed form. */
  lemma RaisedStep(a: real, e: real, w: real, m: real)
    requires e > 0.0 && w >= 0.0 && m >= 0.0
    ensures var v := Share(w, a, e); RaisedTo(a, e, m + w) == RaisedTo(if v > 0.0 then a + v else a, e, m)
  {
    var p, q := e * w, e * m;
    assert e * (m + w) == p + q;
    assert p >= 0.0 && q >= 0.0;
  }

  /**
   Whatever the order of the weights: the filled total before rounding is
   max(A, min(E, A + E * missing weight)), for starting sum A and estimate E.
   */
  lemma {:induction false} FilledTotal(weights: Dict<Category>, filled: Dict<Category>, a: real, e: real, rounded: bool)
    requires Distinct(weights) && NonNegative(weights) && e > 0.0
    ensures Fill(weights, filled, a, e, rounded).1 == RaisedTo(a, e, MissingWeight(weights, filled))
  {
    if weights.Entry? {
      hide RaisedTo, Share, Round2, Set, Get, Has;
      var k, w, rest := weights.key, weights.amount, weights.rest;
      var v := Share(w, a, e);
      MissingWeightNonNegative(rest, filled);
      RaisedStep(a, e, w, MissingWeight(rest, filled));
      if Fills(k, w, filled, a, e) {
        var amount := if rounded then Round2(v) else v;
        MissingWeightElsewhere(rest, filled, k, amount);
        FilledTotal(rest, Set(filled, k, amount), a + v, e, rounded);
      } else {
        FilledTotal(rest, filled, a, e, rounded);
      }
    } else {
      assert RaisedTo(a, e, 0.0) == a;
    }
  }

  // ---------------------------------------------------------------- order of the weights

  /** The dictionary without a key. */
  function Without(d: Dict<Category>, k: Category): Dict<Category> {
    match d
    case Empty => Empty
    case Entry(key, amount, rest) => if key == k then rest else Entry(key, amount, Without(rest, k))
  }

  ghost predicate SameEntries(a: Dict<Category>, b: Dict<Category>) {
    forall k :: (Has(a, k) <==> Has(b, k)) && Get(a, k) == Get(b, k)
  }

  lemma {:induction false} WithoutFacts(d: Dict<Category>, k: Category, other: Category)
    requires Distinct(d)
    ensures Has(Without(d, k), other) <==> Has(d, other) && other != k
    ensures other != k ==> Get(Without(d, k), other) == Get(d, other)
  {
    if d.Entry? {
      WithoutFacts(d.rest, k, other);
    }
  }

  lemma {:induction false} WithoutDistinct(d: Dict<Category>, k: Category)
    requires Distinct(d)
    ensures Distinct(Without(d, k))
  {
    if d.Entry? {
      WithoutDistinct(d.rest, k);
      WithoutFacts(d.rest, k, d.key);
    }
  }

  lemma {:induction false} MissingWeightWithout(d: Dict<Category>, k: Category, filled: Dict<Category>)
    requires Has(d, k)
    ensures MissingWeight(d, filled)
         == MissingWeight(Without(d, k), filled) + if Get(filled, k) <= 0.0 then Get(d, k) else 0.0
  {
    if d.key != k {
      MissingWeightWithout(d.rest, k, filled);
    }
  }

  lemma HasFirst(d: Dict<Category>)
    ensures d != Empty ==> Has(d, d.key)
  {
  }

  lemma {:induction false} MissingWeightIgnoresOrder(a: Dict<Category>, b: Dict<Category>, filled: Dict<Category>)
    requires Distinct(a) && Distinct(b) && SameEntries(a, b)
    ensures MissingWeight(a, filled) == MissingWeight(b, filled)
  {
    HasFirst(a);
    HasFirst(b);
    if a.Entry? {
      var k, rest := a.key, Without(b, a.key);
      forall other ensures (Has(a.rest, other) <==> Has(rest, other)) && Get(a.rest, other) == Get(rest, other) {
        WithoutFacts(b, k, other);
        assert Has(a, other) <==> Has(b, other);
        if other == k {
          AbsentIsZero(a.rest, k);
          AbsentIsZero(rest, k);
        }
      }
      WithoutDistinct(b, k);
      MissingWeightIgnoresOrder(a.rest, rest, filled);
      MissingWeightWithout(b, k, filled);
    }
  }

  /** The order in which an industry lists its categories does not change the filled total before rounding. */
  lemma FilledTotalIgnoresOrder(
    weights: Dict<Category>, other: Dict<Category>, filled: Dict<Category>, a: real, e: real, rounded: bool)
    requires Distinct(weights) && NonNegative(weights) && Distinct(other) && NonNegative(other) && e > 0.0
    requires SameEntries(weights, other)
    ensures Fill(weights, filled, a, e, rounded).1 == Fill(other, filled, a, e, rounded).1
  {
    FilledTotal(weights, filled, a, e, rounded);
    FilledTotal(other, filled, a, e, rounded);
    MissingWeightIgnoresOrder(weights, other, filled);
  }

  lemma PurchasedGoodsFirst(weights: Dict<Category>, e: real)
    requires weights == Entry(PurchasedGoods, 1.0, Entry(Waste, 0.005, Empty)) && e == 100.0
    ensures Get(Fill(weights, Empty, 0.0, e, true).0, PurchasedGoods) == 100.0
  {
    hide Fill, Round2;
    var amounts := Entry(PurchasedGoods, 100.0, Empty);
    assert Round2(100.0) == 100.0 by {
      Round2OfWhole(100);
    }
    FillStep(weights, Empty, 0.0, e);
    FillStep(weights.rest, amounts, 100.0, e);
    FillAfterLast(amounts, 100.0, e, true);
  }

  lemma PurchasedGoodsLast()
    ensures Get(Fill(Entry(Waste, 0.005, Entry(PurchasedGoods, 1.0, Empty)), Empty, 0.0, 100.0, true).0, PurchasedGoods)
         == 99.5
  {
    var first := Entry(Waste, Round2(0.5), Empty);
    assert Share(0.005, 0.0, 100.0) == 0.5;
    assert Share(1.0, 0.5, 100.0) == 99.5;
    HalfEvenOfWhole(9950);
    assert Fill(Entry(PurchasedGoods, 1.0, Empty), first, 0.5, 100.0, true).0 == Set(first, PurchasedGoods, 99.5);
  }

  /** It can change what a single category gets: the last ones share what is left. */
  lemma OrderShowsInCategories() returns (weights: Dict<Category>, other: Dict<Category>)
    ensures Distinct(weights) && Distinct(other) && SameEntries(weights, other)
    ensures Get(Fill(weights, Empty, 0.0, 100.0, true).0, PurchasedGoods)
         != Get(Fill(other, Empty, 0.0, 100.0, true).0, PurchasedGoods)
  {
    weights := Entry(PurchasedGoods, 1.0, Entry(Waste, 0.005, Empty));
    other := Entry(Waste, 0.005, Entry(PurchasedGoods, 1.0, Empty));
    hide Fill;
    PurchasedGoodsFirst(weights, 100.0);
    PurchasedGoodsLast();
  }

  // ---------------------------------------------------------------- what is kept

  /** Amounts that are already positive stay, and categories the industry does not list are not touched. */
  lemma {:induction false} PositiveAmountsAreKept(
    weights: Dict<Category>, filled: Dict<Category>, a: real, e: real, rounded: bool, k: Category)
    requires Get(filled, k) > 0.0 || !Has(weights, k)
    ensures Get(Fill(weights, filled, a, e, rounded).0, k) == Get(filled, k)
  {
    if weights.Entry? {
      var v := Share(weights.amount, a, e);
      if Fills(weights.key, weights.amount, filled, a, e) {
        var amount := if rounded then Round2(v) else v;
        GetSet(filled, weights.key, amount, k);
        PositiveAmountsAreKept(weights.rest, Set(filled, weights.key, amount), a + v, e, rounded, k);
      } else {
        PositiveAmountsAreKept(weights.rest, filled, a, e, rounded, k);
      }
    }
  }

  lemma {:induction false} FillKeepsAmounts(weights: Dict<Category>, filled: Dict<Category>, a: real, e: real)
    ensures NonNegative(filled) ==> NonNegative(Fill(weights, filled, a, e, true).0)
    ensures AllHundredths(filled) ==> AllHundredths(Fill(weights, filled, a, e, true).0)
  {
    if weights.Entry? {
      hide Round2, Hundredths, Min, Max;
      var v := Share(weights.amount, a, e);
      if Fills(weights.key, weights.amount, filled, a, e) {
        Round2Facts(v);
        SetKeepsAmounts(filled, weights.key, Round2(v));
        FillKeepsAmounts(weights.rest, Set(filled, weights.key, Round2(v)), a + v, e);
      } else {
        FillKeepsAmounts(weights.rest, filled, a, e);
      }
    }
  }

  // ---------------------------------------------------------------- rounding

  /** The filled amounts add up to the running total, but for at most half a hundredth per filled category. */
  lemma {:induction false} RoundingError(
    weights: Dict<Category>, filled: Dict<Category>, a: real, e: real, rounded: bool)
    requires NonNegative(filled)
    ensures var (after, total) := Fill(weights, filled, a, e, rounded);
            var n := if rounded then FilledCount(weights, filled, a, e, rounded) else 0;
            Abs(Sum(after) - total) <= Abs(Sum(filled) - a) + 0.005 * n as real
  {
    if weights.Entry? {
      var k := weights.key;
      var v := Share(weights.amount, a, e);
      if Fills(k, weights.amount, filled, a, e) {
        var amount := if rounded then Round2(v) else v;
        Round2Facts(v);
        SetKeepsAmounts(filled, k, amount);
        SumSet(filled, k, amount);
        AmountFacts(filled, k);
        RoundingError(weights.rest, Set(filled, k, amount), a + v, e, rounded);
      } else {
        RoundingError(weights.rest, filled, a, e, rounded);
      }
    }
  }

  lemma NormalisedFacts(p: Profile)
    requires ValidProfile(p)
    ensures var weights := Normalised(p.materiality);
            && Distinct(weights) && NonNegative(weights)
            && (Sum(weights) == 0.0 || Abs(Sum(weights) - 1.0) <= 0.01)
            && forall k :: Has(weights, k) <==> Has(p.materiality, k)
  {
    var total := Sum(p.materiality);
    AmountFacts(p.materiality, Waste);
    if total > 0.0 {
      ScaledFacts(p.materiality, total);
    }
  }

  lemma {:induction false} ScaledKeepsShares(d: Dict<Category>, total: real, k: Category)
    requires total > 0.0
    ensures Get(Scaled(d, total), k) * total == Get(d, k)
  {
    if d.Entry? {
      ScaledKeepsShares(d.rest, total, k);
    }
  }

  /** Scaling keeps the weights in proportion, and happens only when they miss 1 by more than a hundredth. */
  lemma NormalisedKeepsShares(weights: Dict<Category>, k: Category)
    ensures var total := Sum(weights);
            if total > 1.01 || 0.0 < total < 0.99 then Get(Normalised(weights), k) * total == Get(weights, k)
            else Normalised(weights) == weights
  {
    hide Sum, Get, Scaled;
    if Sum(weights) > 0.0 {
      ScaledKeepsShares(weights, Sum(weights), k);
    }
  }

  /**
   The estimate for all of Scope 3: the revenue in thousands times the industry's tonnes per
   million, or without revenue a thousand times the employees' tonnes per head, and of that
   the industry's typical share.  An industry without such an average counts as 50 or 10.
   */
  lemma EstimateIsTypical(p: Profile, revenue: real, employees: real, perMillion: real, perEmployee: real)
    requires if p.tonnesPerMillionUsd.Some? then perMillion == p.tonnesPerMillionUsd.value else perMillion == 50.0
    requires if p.tonnesPerEmployee.Some? then perEmployee == p.tonnesPerEmployee.value else perEmployee == 10.0
    ensures revenue > 0.0 ==> 1000.0 * EstimatedTotal(p, revenue, employees) == revenue * perMillion * p.scope3Share
    ensures revenue <= 0.0 && employees > 0.0 ==>
              EstimatedTotal(p, revenue, employees) == 1000.0 * (employees * perEmployee * p.scope3Share)
    ensures revenue <= 0.0 && employees <= 0.0 ==> EstimatedTotal(p, revenue, employees) == 0.0
  {
    var share := p.scope3Share;
    if revenue > 0.0 {
      assert revenue / 1000000.0 * perMillion * 1000.0 == revenue * perMillion / 1000.0;
      InThousands(revenue * perMillion, share);
    } else if employees > 0.0 {
      var tonnes := employees * perEmployee;
      assert tonnes * 1000.0 * share == 1000.0 * (tonnes * share);
    }
  }

  lemma InThousands(x: real, share: real)
    ensures 1000.0 * (x / 1000.0 * share) == x * share
  {
  }

  /**
   Gap filling as a whole: the completed Scope 3 is the closed form to within half a
   hundredth per filled category, and no more than what was there or the estimate.
   */
  lemma CompletedTotal(p: Profile, detail: Dict<Category>, revenue: real, employees: real)
    requires ValidProfile(p) && NonNegative(detail)
    ensures var e := EstimatedTotal(p, revenue, employees);
            var weights := Normalised(p.materiality);
            var after := Completed(p, detail, revenue, employees);
            if e <= 0.0 then after == detail
            else
              var n := FilledCount(weights, detail, Sum(detail), e, true) as real;
              && Abs(Sum(after) - RaisedTo(Sum(detail), e, MissingWeight(weights, detail))) <= 0.005 * n
              && Sum(after) <= Max(Sum(detail), e) + 0.005 * n
  {
    hide EstimatedTotal, Normalised, FilledCount;
    var e := EstimatedTotal(p, revenue, employees);
    if e > 0.0 {
      var weights := Normalised(p.materiality);
      NormalisedFacts(p);
      FilledTotal(weights, detail, Sum(detail), e, true);
      RoundingError(weights, detail, Sum(detail), e, true);
      RaisedBounds(Sum(detail), e, MissingWeight(weights, detail));
    }
  }

  lemma RaisedBounds(a: real, e: real, t: real)
    ensures a <= RaisedTo(a, e, t) <= Max(a, e)
  {
  }

  // ---------------------------------------------------------------- filling twice

  /** Every listed category has an amount, or no weight, or the estimate is used up. */
  predicate NothingMissing(weights: Dict<Category>, filled: Dict<Category>, accounted: real, estimate: real) {
    weights.Entry? ==>
      && (Get(filled, weights.key) > 0.0 || weights.amount == 0.0 || accounted >= estimate)
      && NothingMissing(weights.rest, filled, accounted, estimate)
  }

  lemma {:induction false} NothingMissingMeansUnchanged(
    weights: Dict<Category>, filled: Dict<Category>, a: real, e: real, rounded: bool)
    requires NothingMissing(weights, filled, a, e)
    ensures Fill(weights, filled, a, e, rounded) == (filled, a)
  {
    if weights.Entry? {
      if weights.amount == 0.0 {
        assert e * weights.amount == 0.0;
      }
      NothingMissingMeansUnchanged(weights.rest, filled, a, e, rounded);
    }
  }

  lemma {:induction false} FillLeavesNothingMissing(weights: Dict<Category>, filled: Dict<Category>, a: real, e: real)
    requires Distinct(weights) && NonNegative(weights) && e > 0.0
    ensures var (after, total) := Fill(weights, filled, a, e, false);
            NothingMissing(weights, after, total, e)
  {
    if weights.Entry? {
      hide Set, Get, Has, RaisedTo, MissingWeight;
      var k, w, rest := weights.key, weights.amount, weights.rest;
      var v := Share(w, a, e);
      if Fills(k, w, filled, a, e) {
        GetSet(filled, k, v, k);
        PositiveAmountsAreKept(rest, Set(filled, k, v), a + v, e, false, k);
        FillLeavesNothingMissing(rest, Set(filled, k, v), a + v, e);
      } else {
        PositiveAmountsAreKept(rest, filled, a, e, false, k);
        FillLeavesNothingMissing(rest, filled, a, e);
        FilledTotal(rest, filled, a, e, false);
        RaisedBounds(a, e, MissingWeight(rest, filled));
        ShareIsZero(w, a, e);
      }
    }
  }

  lemma ShareIsZero(w: real, a: real, e: real)
    requires e > 0.0 && w >= 0.0
    ensures Share(w, a, e) <= 0.0 <==> w == 0.0 || a >= e
  {
    if w > 0.0 {
      assert e * w > 0.0;
    }
  }

  /** Without rounding, filling twice is filling once. */
  lemma UnroundedFillingIsIdempotent(weights: Dict<Category>, detail: Dict<Category>, e: real)
    requires Distinct(weights) && NonNegative(weights) && NonNegative(detail) && e > 0.0
    ensures var once := Fill(weights, detail, Sum(detail), e, false).0;
            Fill(weights, once, Sum(once), e, false).0 == once
  {
    var (once, total) := Fill(weights, detail, Sum(detail), e, false);
    RoundingError(weights, detail, Sum(detail), e, false);
    FillLeavesNothingMissing(weights, detail, Sum(detail), e);
    NothingMissingMeansUnchanged(weights, once, total, e, false);
  }

  lemma FirstFilling(weights: Dict<Category>, e: real, detail: Dict<Category>, once: Dict<Category>)
    requires weights == Entry(PurchasedGoods, 0.402, Entry(UpstreamTransport, 0.494,
                          Entry(Waste, 0.004, Entry(BusinessTravel, 0.1, Empty)))) && e == 1.0
    requires detail == Entry(PurchasedGoods, 0.5, Empty)
    requires once == Entry(PurchasedGoods, 0.5, Entry(UpstreamTransport, 0.49,
                       Entry(Waste, 0.0, Entry(BusinessTravel, 0.0, Empty))))
    ensures Fill(weights, detail, 0.5, e, true).0 == once
  {
    assert Round2(0.494) == 0.49 && Round2(0.004) == 0.0 && Round2(0.002) == 0.0;
    hide Fill, Round2;
    var one := Set(detail, UpstreamTransport, 0.49);
    var two := Set(one, Waste, 0.0);
    FillStep(weights, detail, 0.5, e);
    FillStep(weights.rest, detail, 0.5, e);
    FillStep(weights.rest.rest, one, 0.994, e);
    FillStep(weights.rest.rest.rest, two, 0.998, e);
    FillAfterLast(Set(two, BusinessTravel, 0.0), 1.0, e, true);
  }

  lemma SecondFilling(weights: Dict<Category>, e: real, once: Dict<Category>)
    requires weights == Entry(PurchasedGoods, 0.402, Entry(UpstreamTransport, 0.494,
                          Entry(Waste, 0.004, Entry(BusinessTravel, 0.1, Empty)))) && e == 1.0
    requires once == Entry(PurchasedGoods, 0.5, Entry(UpstreamTransport, 0.49,
                       Entry(Waste, 0.0, Entry(BusinessTravel, 0.0, Empty))))
    ensures Get(Fill(weights, once, 0.99, e, true).0, BusinessTravel) == 0.01
  {
    assert Round2(0.004) == 0.0 && Round2(0.006) == 0.01;
    hide Fill, Round2;
    var two := Set(once, Waste, 0.0);
    FillStep(weights, once, 0.99, e);
    FillStep(weights.rest, once, 0.99, e);
    FillStep(weights.rest.rest, once, 0.99, e);
    FillStep(weights.rest.rest.rest, two, 0.994, e);
    FillAfterLast(Set(two, BusinessTravel, 0.01), 1.0, e, true);
  }

  lemma ExampleWeights(weights: Dict<Category>)
    requires weights == Entry(PurchasedGoods, 0.402, Entry(UpstreamTransport, 0.494,
                          Entry(Waste, 0.004, Entry(BusinessTravel, 0.1, Empty))))
    ensures Distinct(weights) && NonNegative(weights) && Sum(weights) == 1.0
  {
  }

  lemma ExampleAmounts(once: Dict<Category>, rest: Dict<Category>)
    requires once == Entry(PurchasedGoods, 0.5, Entry(UpstreamTransport, 0.49, rest))
    ensures Sum(once) == 0.99 + Sum(rest) && Get(once, BusinessTravel) == Get(rest, BusinessTravel)
  {
  }

  lemma ExampleStart(detail: Dict<Category>)
    requires detail == Entry(PurchasedGoods, 0.5, Empty)
    ensures NonNegative(detail) && Sum(detail) == 0.5
  {
  }

  lemma ExampleRest(rest: Dict<Category>)
    requires rest == Entry(Waste, 0.0, Entry(BusinessTravel, 0.0, Empty))
    ensures Sum(rest) == 0.0 && Get(rest, BusinessTravel) == 0.0
  {
  }

  /** With rounding it is not: amounts rounded down leave room that a second filling uses. */
  lemma RoundedFillingIsNotIdempotent() returns (weights: Dict<Category>, detail: Dict<Category>, e: real)
    ensures Distinct(weights) && NonNegative(weights) && Sum(weights) == 1.0 && NonNegative(detail) && e > 0.0
    ensures var once := Fill(weights, detail, Sum(detail), e, true).0;
            Fill(weights, once, Sum(once), e, true).0 != once
  {
    weights := Entry(PurchasedGoods, 0.402, Entry(UpstreamTransport, 0.494,
                 Entry(Waste, 0.004, Entry(BusinessTravel, 0.1, Empty))));
    detail, e := Entry(PurchasedGoods, 0.5, Empty), 1.0;
    var once := Entry(PurchasedGoods, 0.5, Entry(UpstreamTransport, 0.49,
                  Entry(Waste, 0.0, Entry(BusinessTravel, 0.0, Empty))));
    hide *;
    ExampleStart(detail);
    ExampleWeights(weights);
    ExampleAmounts(once, once.rest.rest);
    ExampleRest(once.rest.rest);
    FirstFilling(weights, e, detail, once);
    SecondFilling(weights, e, once);
  }
}
