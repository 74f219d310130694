/**
 When filling the Scope 3 gaps a second time changes nothing
 (carbonscope/emission_factors/scope3.py, amounts rounded as the code rounds them).
 */
module FillingTwice {
  import opened Dictionaries
  import opened GapFilling
  import opened Outcomes
  import opened Rounding

  function Once(weights: Dict<Category>, detail: Dict<Category>, e: real): Dict<Category> {
    Fill(weights, detail, Sum(detail), e, true).0
  }

  predicate TwiceIsOnce(weights: Dict<Category>, detail: Dict<Category>, e: real) {
    var once := Once(weights, detail, e); Once(weights, once, e) == once
  }

  lemma {:induction false} SetSame(d: Dict<Category>, k: Category, v: real)
    requires Has(d, k) && Get(d, k) == v
    ensures Set(d, k, v) == d
  {
    if d.key != k {
      SetSame(d.rest, k, v);
    }
  }

  lemma {:induction false} FillKeepsKeys(
    weights: Dict<Category>, d: Dict<Category>, a: real, e: real, rounded: bool, k: Category)
    requires Has(d, k)
    ensures Has(Fill(weights, d, a, e, rounded).0, k)
  {
    if weights.Entry? {
      var v := Share(weights.amount, a, e);
      if Fills(weights.key, weights.amount, d, a, e) {
        var amount := if rounded then Round2(v) else v;
        GetSet(d, weights.key, amount, k);
        FillKeepsKeys(weights.rest, Set(d, weights.key, amount), a + v, e, rounded, k);
      } else {
        FillKeepsKeys(weights.rest, d, a, e, rounded, k);
      }
    }
  }

  // ---------------------------------------------------------------- the estimate is not used up

  /** Every listed category has an amount, or no weight, or an entry and a share that rounds to zero. */
  predicate Settled(weights: Dict<Category>, d: Dict<Category>, e: real) {
    weights.Entry? ==>
      && (Get(d, weights.key) > 0.0 || weights.amount == 0.0 || (Has(d, weights.key) && e * weights.amount <= 0.005))
      && Settled(weights.rest, d, e)
  }

  lemma ShareAtMost(w: real, a: real, e: real)
    ensures Share(w, a, e) <= e * w
    ensures w == 0.0 ==> Share(w, a, e) <= 0.0
  {
  }

  lemma {:induction false} SettledIsUnchanged(weights: Dict<Category>, d: Dict<Category>, a: real, e: real)
    requires NonNegative(d) && Settled(weights, d, e)
    ensures Fill(weights, d, a, e, true).0 == d
  {
    if weights.Entry? {
      hide Share, Round2, Set, Get, Has;
      var v := Share(weights.amount, a, e);
      ShareAtMost(weights.amount, a, e);
      if Fills(weights.key, weights.amount, d, a, e) {
        AmountFacts(d, weights.key);
        Round2Facts(v);
        SetSame(d, weights.key, 0.0);
        SettledIsUnchanged(weights.rest, d, a + v, e);
      } else {
        SettledIsUnchanged(weights.rest, d, a, e);
      }
    }
  }

  /** What is left of the estimate covers the missing weight. */
  predicate Covers(a: real, e: real, missing: real) {
    a + e * missing <= e
  }

  /**
   While the estimate covers what is missing, the next missing category gets its full share,
   and the rest stays covered.
   */
  lemma CoversStep(a: real, e: real, w: real, m: real)
    requires e > 0.0 && w >= 0.0 && m >= 0.0 && Covers(a, e, m + w)
    ensures Share(w, a, e) == e * w && Covers(a + e * w, e, m)
    ensures Share(w, a, e) <= 0.0 ==> w == 0.0
  {
    var p, q := e * w, e * m;
    assert e * (m + w) == p + q;
    assert p >= 0.0 && q >= 0.0;
    ShareIsZero(w, a, e);
    if w > 0.0 {
      assert p > 0.0;
    }
  }

  lemma {:induction false} CoveredFillSettles(weights: Dict<Category>, d: Dict<Category>, a: real, e: real)
    requires Distinct(weights) && NonNegative(weights) && e > 0.0
    requires Covers(a, e, MissingWeight(weights, d))
    ensures Settled(weights, Fill(weights, d, a, e, true).0, e)
  {
    if weights.Entry? {
      hide Share, Round2, Set, Get, Has, Covers;
      var k, w, rest := weights.key, weights.amount, weights.rest;
      MissingWeightNonNegative(rest, d);
      if Get(d, k) <= 0.0 {
        CoversStep(a, e, w, MissingWeight(rest, d));
      }
      if Fills(k, w, d, a, e) {
        var v := Share(w, a, e);
        var filled := Set(d, k, Round2(v));
        GetSet(d, k, Round2(v), k);
        Round2Facts(v);
        MissingWeightElsewhere(rest, d, k, Round2(v));
        CoveredFillSettles(rest, filled, a + v, e);
        PositiveAmountsAreKept(rest, filled, a + v, e, true, k);
        FillKeepsKeys(rest, filled, a + v, e, true, k);
      } else {
        CoveredFillSettles(rest, d, a, e);
        PositiveAmountsAreKept(rest, d, a, e, true, k);
      }
    }
  }

  // ---------------------------------------------------------------- at most a hundredth is left

  lemma {:induction false} NothingLeft(weights: Dict<Category>, d: Dict<Category>, a: real, e: real, rounded: bool)
    requires a >= e
    ensures Fill(weights, d, a, e, rounded) == (d, a)
  {
    if weights.Entry? {
      NothingLeft(weights.rest, d, a, e, rounded);
    }
  }

  ghost predicate SameAmounts(a: Dict<Category>, b: Dict<Category>) {
    forall k :: Get(a, k) == Get(b, k)
  }

  lemma Round2Positive(x: real)
    requires x >= 0.0
    ensures Round2(x) == 0.0 || Round2(x) >= 0.01
  {
    Round2Facts(x);
  }

  /** A pass that rounds everything to zero changes no amount; any other adds at least a hundredth. */
  lemma {:induction false} RisesByAHundredth(weights: Dict<Category>, d: Dict<Category>, a: real, e: real)
    requires NonNegative(d)
    ensures var after := Fill(weights, d, a, e, true).0;
            (SameAmounts(after, d) && Sum(after) == Sum(d)) || Sum(after) >= Sum(d) + 0.01
  {
    if weights.Entry? {
      hide Share, Round2, Set, Get;
      var k := weights.key;
      var v := Share(weights.amount, a, e);
      if Fills(k, weights.amount, d, a, e) {
        var filled := Set(d, k, Round2(v));
        Round2Positive(v);
        AmountFacts(d, k);
        SetKeepsAmounts(d, k, Round2(v));
        SumSet(d, k, Round2(v));
        RisesByAHundredth(weights.rest, filled, a + v, e);
        if Round2(v) == 0.0 {
          forall other ensures Get(filled, other) == Get(d, other) {
            GetSet(d, k, 0.0, other);
          }
        }
      } else {
        RisesByAHundredth(weights.rest, d, a, e);
      }
    }
  }

  /** A pass that changes no amount is repeated exactly by the next one. */
  lemma {:induction false} ZerosRepeat(
    weights: Dict<Category>, d: Dict<Category>, after: Dict<Category>, a: real, e: real)
    requires Distinct(weights) && after == Fill(weights, d, a, e, true).0 && SameAmounts(after, d)
    ensures Fill(weights, after, a, e, true).0 == after
  {
    if weights.Entry? {
      hide Share, Round2, Set, Get, Has;
      var k, rest := weights.key, weights.rest;
      var v := Share(weights.amount, a, e);
      assert Get(after, k) == Get(d, k);
      if Fills(k, weights.amount, d, a, e) {
        var filled := Set(d, k, Round2(v));
        GetSet(d, k, Round2(v), k);
        PositiveAmountsAreKept(rest, filled, a + v, e, true, k);
        FillKeepsKeys(rest, filled, a + v, e, true, k);
        forall other ensures Get(after, other) == Get(filled, other) {
          GetSet(d, k, Round2(v), other);
          assert Get(after, other) == Get(d, other);
        }
        ZerosRepeat(rest, filled, after, a + v, e);
        SetSame(after, k, Round2(v));
      } else {
        ZerosRepeat(rest, d, after, a, e);
      }
    }
  }

  /**
   A second filling changes nothing when the estimate covers what is missing, or at most a
   hundredth of it is left.
   */
  lemma SecondFillingChangesNothing(weights: Dict<Category>, detail: Dict<Category>, e: real)
    requires Distinct(weights) && NonNegative(weights) && NonNegative(detail) && e > 0.0
    requires Covers(Sum(detail), e, MissingWeight(weights, detail)) || e - Sum(detail) <= 0.01
    ensures TwiceIsOnce(weights, detail, e)
  {
    var a, once := Sum(detail), Once(weights, detail, e);
    hide Fill, Settled;
    FillKeepsAmounts(weights, detail, a, e);
    if Covers(a, e, MissingWeight(weights, detail)) {
      CoveredFillSettles(weights, detail, a, e);
      SettledIsUnchanged(weights, once, Sum(once), e);
    } else {
      RisesByAHundredth(weights, detail, a, e);
      if SameAmounts(once, detail) && Sum(once) == a {
        ZerosRepeat(weights, detail, once, a, e);
      } else {
        NothingLeft(weights, once, Sum(once), e, true);
      }
    }
  }

  // ---------------------------------------------------------------- otherwise it can

  /**
   The amounts of four missing categories that together use up what is left, `n` hundredths
   and a fraction `f`: the first rounds down, the next two round to zero, the second of
   them cut short by `cut`, and the last one gets nothing.
   */
  datatype Rest = Rest(n: int, f: real, cut: real, beyond: real)

  predicate ValidRest(r: Rest) {
    r.n >= 1 && 0.0 < r.f <= 0.01 && 0.0 < r.cut <= 0.2 * r.f && r.beyond > 0.0
  }

  function Left(r: Rest): real { r.n as real / 100.0 + r.f }

  function First(r: Rest): real { r.n as real / 100.0 + 0.4 * r.f }

  function Second(r: Rest): real { 0.3 * r.f }

  function Third(r: Rest): real { 0.3 * r.f + r.cut }

  function WeightsFor(r: Rest, e: real): Dict<Category>
    requires e > 0.0
  {
    Entry(UpstreamTransport, First(r) / e, Entry(Waste, Second(r) / e,
      Entry(BusinessTravel, Third(r) / e, Entry(Commuting, r.beyond / e, Empty))))
  }

  /** A starting detail with this sum that has none of the four categories. */
  function DetailFor(a: real): Dict<Category> {
    if a == 0.0 then Empty else Entry(PurchasedGoods, a, Empty)
  }

  function Added(detail: Dict<Category>, r: Rest): Dict<Category> {
    Set(Set(Set(detail, UpstreamTransport, r.n as real / 100.0), Waste, 0.0), BusinessTravel, 0.0)
  }

  lemma ShareIs(p: real, a: real, e: real)
    requires e > 0.0
    ensures Share(p / e, a, e) == Min(p, Max(e - a, 0.0))
  {
    assert e * (p / e) == p;
  }

  lemma RoundsDown(r: Rest)
    requires ValidRest(r)
    ensures Round2(First(r)) == r.n as real / 100.0
  {
    assert First(r) * 100.0 == r.n as real + 40.0 * r.f;
    HalfEvenNear(First(r) * 100.0, r.n);
    hide HalfEven;
  }

  lemma RoundsToZero(x: real)
    requires 0.0 <= x <= 0.005
    ensures Round2(x) == 0.0
  {
    Round2Facts(x);
  }

  /** One step that fills, with the share as an amount in kg. */
  lemma FillsBy(weights: Dict<Category>, d: Dict<Category>, a: real, e: real, p: real)
    requires weights.Entry? && e > 0.0 && weights.amount == p / e && Get(d, weights.key) == 0.0
    ensures var v := Min(p, Max(e - a, 0.0));
            Fill(weights, d, a, e, true) ==
            if v > 0.0 then Fill(weights.rest, Set(d, weights.key, Round2(v)), a + v, e, true)
            else Fill(weights.rest, d, a, e, true)
  {
    hide Round2, Min, Max, Share;
    ShareIs(p, a, e);
  }

  /** The four categories in the detail and after each step. */
  lemma StartIsEmpty(a: real, k: Category)
    requires k != PurchasedGoods
    ensures !Has(DetailFor(a), k) && Get(DetailFor(a), k) == 0.0
  {
  }

  lemma FirstPass(r: Rest, e: real, a: real)
    requires ValidRest(r) && e > 0.0 && e - a == Left(r)
    ensures Fill(WeightsFor(r, e), DetailFor(a), a, e, true).0 == Added(DetailFor(a), r)
  {
    var weights, detail := WeightsFor(r, e), DetailFor(a);
    var one := Set(detail, UpstreamTransport, r.n as real / 100.0);
    var two := Set(one, Waste, 0.0);
    RoundsDown(r);
    RoundsToZero(0.3 * r.f);
    hide Fill, Round2, Set, Get, DetailFor;
    AddedGets(a, r);
    FillsBy(weights, detail, a, e, First(r));
    FillsBy(weights.rest, one, a + First(r), e, Second(r));
    FillsBy(weights.rest.rest, two, a + First(r) + Second(r), e, Third(r));
    FillsBy(weights.rest.rest.rest, Added(detail, r), e, e, r.beyond);
    FillAfterLast(Added(detail, r), e, e, true);
  }

  lemma AddedGets(a: real, r: Rest)
    ensures var detail := DetailFor(a);
            var one := Set(detail, UpstreamTransport, r.n as real / 100.0);
            var two := Set(one, Waste, 0.0);
            && Get(detail, UpstreamTransport) == 0.0
            && Get(one, Waste) == 0.0
            && Get(two, BusinessTravel) == 0.0
            && Get(Added(detail, r), UpstreamTransport) == r.n as real / 100.0
            && Get(Added(detail, r), Waste) == 0.0
            && Get(Added(detail, r), BusinessTravel) == 0.0
            && Get(Added(detail, r), Commuting) == 0.0
            && !Has(Added(detail, r), Commuting)
  {
    hide Set, Get, Has, DetailFor;
    var detail, v := DetailFor(a), r.n as real / 100.0;
    var one := Set(detail, UpstreamTransport, v);
    var two := Set(one, Waste, 0.0);
    forall k | k == UpstreamTransport || k == Waste || k == BusinessTravel || k == Commuting
      ensures Get(detail, k) == 0.0 && !Has(detail, k)
      ensures Get(one, k) == if k == UpstreamTransport then v else 0.0
      ensures Get(two, k) == Get(one, k)
      ensures Get(Added(detail, r), k) == Get(one, k)
      ensures Has(Added(detail, r), k) <==> k != Commuting
    {
      StartIsEmpty(a, k);
      GetSet(detail, UpstreamTransport, v, k);
      GetSet(one, Waste, 0.0, k);
      GetSet(two, BusinessTravel, 0.0, k);
    }
  }

  /** The second pass adds the category that got nothing the first time. */
  lemma SecondPass(r: Rest, e: real, a: real)
    requires ValidRest(r) && e > 0.0 && e - a == Left(r)
    ensures var once := Added(DetailFor(a), r);
            Has(Fill(WeightsFor(r, e), once, a + r.n as real / 100.0, e, true).0, Commuting) && !Has(once, Commuting)
  {
    var weights, once := WeightsFor(r, e), Added(DetailFor(a), r);
    RoundsToZero(Second(r));
    RoundsToZero(Third(r));
    AddedGets(a, r);
    AddedHas(a, r);
    hide Fill, Round2, Set, Get, Has, DetailFor, Added;
    var s := a + r.n as real / 100.0;
    SetSame(once, Waste, 0.0);
    SetSame(once, BusinessTravel, 0.0);
    SkipsPositive(weights, once, s, e);
    FillsBy(weights.rest, once, s, e, Second(r));
    FillsBy(weights.rest.rest, once, s + Second(r), e, Third(r));
    FillsBy(weights.rest.rest.rest, once, s + Second(r) + Third(r), e, r.beyond);
    var v := Min(r.beyond, Max(e - (s + Second(r) + Third(r)), 0.0));
    assert v > 0.0;
    FillAfterLast(Set(once, Commuting, Round2(v)), s + Second(r) + Third(r) + v, e, true);
    GetSet(once, Commuting, Round2(v), Commuting);
  }

  lemma AddedHas(a: real, r: Rest)
    ensures Has(Added(DetailFor(a), r), Waste) && Has(Added(DetailFor(a), r), BusinessTravel)
  {
    hide Set, Get, Has, DetailFor;
    var one := Set(DetailFor(a), UpstreamTransport, r.n as real / 100.0);
    var two := Set(one, Waste, 0.0);
    GetSet(one, Waste, 0.0, Waste);
    GetSet(two, BusinessTravel, 0.0, Waste);
    GetSet(two, BusinessTravel, 0.0, BusinessTravel);
  }

  lemma SkipsPositive(weights: Dict<Category>, d: Dict<Category>, a: real, e: real)
    requires weights.Entry? && Get(d, weights.key) > 0.0
    ensures Fill(weights, d, a, e, true) == Fill(weights.rest, d, a, e, true)
  {
  }

  /** Splitting what is left so that the given missing weight is spread over the four categories. */
  lemma RestFor(left: real, missing: real) returns (r: Rest)
    requires left > 0.01 && missing > left
    ensures ValidRest(r) && Left(r) == left && First(r) + Second(r) + Third(r) + r.beyond == missing
  {
    var down := (left * 100.0).Floor;
    var n := if down as real == left * 100.0 then down - 1 else down;
    var f := left - n as real / 100.0;
    var cut := Min((missing - left) / 2.0, 0.2 * f);
    r := Rest(n, f, cut, missing - left - cut);
  }

  lemma RestFits(r: Rest, a: real, e: real)
    requires ValidRest(r) && a >= 0.0 && e > 0.0
    ensures var weights, detail := WeightsFor(r, e), DetailFor(a);
            && Distinct(weights) && NonNegative(weights) && NonNegative(detail) && Sum(detail) == a
            && e * MissingWeight(weights, detail) == First(r) + Second(r) + Third(r) + r.beyond
  {
    var weights, detail := WeightsFor(r, e), DetailFor(a);
    WeightsAreDistinct(weights, First(r) / e, Second(r) / e, Third(r) / e, r.beyond / e);
    WeightsAreMissing(r, a, e);
    var p, q, t, u := First(r) / e, Second(r) / e, Third(r) / e, r.beyond / e;
    assert e * p == First(r) && e * q == Second(r) && e * t == Third(r) && e * u == r.beyond;
    assert e * (p + q + t + u) == e * p + e * q + e * t + e * u;
    hide MissingWeight, Distinct, NonNegative, WeightsFor, First, Second, Third;
  }

  lemma WeightsAreMissing(r: Rest, a: real, e: real)
    requires e > 0.0
    ensures MissingWeight(WeightsFor(r, e), DetailFor(a))
         == First(r) / e + Second(r) / e + Third(r) / e + r.beyond / e
  {
    StartIsEmpty(a, UpstreamTransport);
    StartIsEmpty(a, Waste);
    StartIsEmpty(a, BusinessTravel);
    StartIsEmpty(a, Commuting);
    hide Get, DetailFor, First, Second, Third;
    var weights, detail := WeightsFor(r, e), DetailFor(a);
    assert MissingWeight(weights.rest.rest.rest, detail) == r.beyond / e;
    assert MissingWeight(weights.rest.rest, detail) == r.beyond / e + Third(r) / e;
    assert MissingWeight(weights.rest, detail) == r.beyond / e + Third(r) / e + Second(r) / e;
  }

  lemma WeightsAreDistinct(weights: Dict<Category>, p: real, q: real, t: real, u: real)
    requires p >= 0.0 && q >= 0.0 && t >= 0.0 && u >= 0.0
    requires weights == Entry(UpstreamTransport, p,
                          Entry(Waste, q, Entry(BusinessTravel, t, Entry(Commuting, u, Empty))))
    ensures Distinct(weights) && NonNegative(weights)
  {
    var last := weights.rest.rest.rest;
    assert Distinct(last) && NonNegative(last);
    assert Distinct(weights.rest.rest) && NonNegative(weights.rest.rest);
    assert !Has(last, Waste) && !Has(last, UpstreamTransport);
    assert !Has(weights.rest.rest, Waste) && !Has(weights.rest.rest, UpstreamTransport);
    assert !Has(weights.rest, UpstreamTransport);
  }

  // ---------------------------------------------------------------- listings that the loop gets

  /**
   Such a listing with purchased goods in front, which have an amount or else no weight:
   with their weight, the listing's sum is 1, or at most 1.01 as the missing weight is.
   */
  function ListingFor(r: Rest, e: real, m: real): Dict<Category>
    requires e > 0.0
  {
    Entry(PurchasedGoods, Max(0.0, 1.0 - m), WeightsFor(r, e))
  }

  lemma FirstIsSkipped(weights: Dict<Category>, d: Dict<Category>, a: real, e: real)
    requires weights.Entry? && (Get(d, weights.key) > 0.0 || weights.amount == 0.0)
    ensures Fill(weights, d, a, e, true) == Fill(weights.rest, d, a, e, true)
  {
    if weights.amount == 0.0 {
      assert e * weights.amount == 0.0;
    }
  }

  lemma CoversFromNothing(e: real, m: real)
    requires e > 0.0 && m <= 1.0
    ensures Covers(0.0, e, m)
  {
    assert e * (1.0 - m) >= 0.0;
  }

  /** Purchased goods are in the detail from the start, or there is no weight left for them. */
  lemma GoodsAreSettled(a: real, e: real, m: real, r: Rest)
    requires a >= 0.0 && e > 0.0 && !Covers(a, e, m)
    ensures a > 0.0 ==> Get(DetailFor(a), PurchasedGoods) == Get(Added(DetailFor(a), r), PurchasedGoods) == a
    ensures a == 0.0 ==> m > 1.0
  {
    if m <= 1.0 {
      CoversFromNothing(e, m);
    }
    if a > 0.0 {
      assert Get(DetailFor(a), PurchasedGoods) == a;
      var v := r.n as real / 100.0;
      hide Set, Get, DetailFor;
      var one := Set(DetailFor(a), UpstreamTransport, v);
      GetSet(DetailFor(a), UpstreamTransport, v, PurchasedGoods);
      GetSet(one, Waste, 0.0, PurchasedGoods);
      GetSet(Set(one, Waste, 0.0), BusinessTravel, 0.0, PurchasedGoods);
    }
  }

  lemma WeightsSum(r: Rest, a: real, e: real)
    requires e > 0.0
    ensures Sum(WeightsFor(r, e)) == MissingWeight(WeightsFor(r, e), DetailFor(a))
    ensures !Has(WeightsFor(r, e), PurchasedGoods)
  {
    WeightsAreMissing(r, a, e);
    hide MissingWeight, First, Second, Third;
    var weights := WeightsFor(r, e);
    assert !Has(weights.rest.rest.rest, PurchasedGoods);
    assert !Has(weights.rest.rest, PurchasedGoods);
    assert !Has(weights.rest, PurchasedGoods);
    assert Sum(weights.rest.rest.rest) == r.beyond / e;
    assert Sum(weights.rest.rest) == r.beyond / e + Third(r) / e;
    assert Sum(weights.rest) == r.beyond / e + Third(r) / e + Second(r) / e;
  }

  /** Purchased goods in front of a listing without them. */
  lemma InFront(weights: Dict<Category>, detail: Dict<Category>, m: real)
    requires Distinct(weights) && NonNegative(weights) && !Has(weights, PurchasedGoods)
    requires Sum(weights) == MissingWeight(weights, detail) == m
    requires m <= 1.01 && (Get(detail, PurchasedGoods) > 0.0 || m > 1.0)
    ensures var listing := Entry(PurchasedGoods, Max(0.0, 1.0 - m), weights);
            && Distinct(listing) && NonNegative(listing) && Normalised(listing) == listing
            && MissingWeight(listing, detail) == m && (m <= 1.0 ==> Sum(listing) == 1.0)
  {
    var listing := Entry(PurchasedGoods, Max(0.0, 1.0 - m), weights);
    assert Sum(listing) == Max(0.0, 1.0 - m) + m;
    hide Sum, Has;
  }

  lemma ListingFits(r: Rest, a: real, e: real, m: real)
    requires ValidRest(r) && a >= 0.0 && e > 0.0 && m <= 1.01 && !Covers(a, e, m)
    requires First(r) + Second(r) + Third(r) + r.beyond == e * m
    ensures Fits(ListingFor(r, e, m), DetailFor(a), a, m)
    ensures m <= 1.0 ==> Sum(ListingFor(r, e, m)) == 1.0
  {
    var weights, detail := WeightsFor(r, e), DetailFor(a);
    RestFits(r, a, e);
    hide WeightsFor, DetailFor, Covers, ValidRest, First, Second, Third, Added, MissingWeight, Sum, Get, Has;
    hide Distinct, NonNegative, Normalised, Max;
    SameFactor(e, MissingWeight(weights, detail), m);
    WeightsSum(r, a, e);
    GoodsAreSettled(a, e, m, r);
    InFront(weights, detail, m);
  }

  /**
   Once more than a hundredth is left and the estimate does not cover what is missing, some
   listing that needs no scaling is changed by a second filling.
   */
  lemma SecondFillingCanChange(a: real, e: real, m: real) returns (weights: Dict<Category>, detail: Dict<Category>)
    requires a >= 0.0 && e > 0.0 && !Covers(a, e, m) && e - a > 0.01 && m <= 1.01
    ensures Fits(weights, detail, a, m) && !TwiceIsOnce(weights, detail, e)
    ensures m <= 1.0 ==> Sum(weights) == 1.0
    ensures Hundredths(a) ==> AllHundredths(detail)
  {
    var r := RestFor(e - a, e * m);
    weights, detail := ListingFor(r, e, m), DetailFor(a);
    ListingFits(r, a, e, m);
    ChangedBySecond(r, a, e, m);
    DetailIsHundredths(a);
    hide *;
  }

  lemma DetailIsHundredths(a: real)
    ensures Hundredths(a) ==> AllHundredths(DetailFor(a))
  {
    hide Hundredths;
  }

  lemma ChangedBySecond(r: Rest, a: real, e: real, m: real)
    requires ValidRest(r) && a >= 0.0 && e > 0.0 && e - a == Left(r) && !Covers(a, e, m)
    ensures !TwiceIsOnce(ListingFor(r, e, m), DetailFor(a), e)
  {
    var listing, detail, once := ListingFor(r, e, m), DetailFor(a), Added(DetailFor(a), r);
    GoodsAreSettled(a, e, m, r);
    FirstPass(r, e, a);
    SecondPass(r, e, a);
    AddedSum(a, r);
    assert Sum(detail) == a;
    hide Fill, WeightsFor, DetailFor, Added, Has, Covers, Get, Sum;
    FirstIsSkipped(listing, detail, a, e);
    FirstIsSkipped(listing, once, a + r.n as real / 100.0, e);
  }

  lemma SameFactor(e: real, x: real, y: real)
    requires e > 0.0 && e * x == e * y
    ensures x == y
  {
    assert e * (x - y) == 0.0;
  }

  lemma AddedSum(a: real, r: Rest)
    ensures Sum(Added(DetailFor(a), r)) == a + r.n as real / 100.0
  {
    AddedGets(a, r);
    assert Sum(DetailFor(a)) == a;
    hide Set, Get, DetailFor, Sum;
    var one := Set(DetailFor(a), UpstreamTransport, r.n as real / 100.0);
    var two := Set(one, Waste, 0.0);
    SumSet(DetailFor(a), UpstreamTransport, r.n as real / 100.0);
    SumSet(one, Waste, 0.0);
    SumSet(two, BusinessTravel, 0.0);
  }

  // ---------------------------------------------------------------- the exact condition

  /** A listing that the loop gets, which needs no scaling, and a detail, with this starting sum and missing weight. */
  predicate Fits(weights: Dict<Category>, detail: Dict<Category>, a: real, m: real) {
    && Distinct(weights) && NonNegative(weights) && Normalised(weights) == weights
    && NonNegative(detail) && Sum(detail) == a && MissingWeight(weights, detail) == m
  }

  lemma {:induction false} MissingAtMostSum(weights: Dict<Category>, detail: Dict<Category>)
    requires NonNegative(weights)
    ensures MissingWeight(weights, detail) <= Sum(weights)
  {
    if weights.Entry? {
      MissingAtMostSum(weights.rest, detail);
    }
  }

  /** No listing that the loop gets misses more than 1.01. */
  lemma MissingAtMostOne(weights: Dict<Category>, detail: Dict<Category>)
    requires NonNegative(weights) && (Sum(weights) <= 0.0 || Abs(Sum(weights) - 1.0) <= 0.01)
    ensures MissingWeight(weights, detail) <= 1.01
  {
    MissingAtMostSum(weights, detail);
  }

  lemma OneOfItself(x: real)
    requires x > 0.0
    ensures x / x == 1.0
  {
  }

  lemma NeedsNoScaling(weights: Dict<Category>)
    requires Normalised(weights) == weights && NonNegative(weights)
    ensures Sum(weights) <= 0.0 || Abs(Sum(weights) - 1.0) <= 0.01
  {
    hide Sum, Scaled, NonNegative, Distinct, Has;
    var total := Sum(weights);
    if total > 0.0 {
      ScaledFacts(weights, total);
      OneOfItself(total);
    }
  }

  /**
   Rounded filling twice is filling once, for every listing the loop gets with this starting
   sum A and missing weight m, if and only if the estimate E covers what is missing, so that
   the budget never binds, or at most a hundredth of a kilogram of it is left to fill, or
   there is no such listing.
   */
  lemma FillingTwiceIsOnceIff(a: real, e: real, m: real)
    requires a >= 0.0 && e > 0.0 && m >= 0.0
    ensures (forall weights, detail :: Fits(weights, detail, a, m) ==> TwiceIsOnce(weights, detail, e))
            <==> Covers(a, e, m) || e - a <= 0.01 || m > 1.01
  {
    hide TwiceIsOnce, Covers, Normalised;
    if Covers(a, e, m) || e - a <= 0.01 || m > 1.01 {
      forall weights, detail | Fits(weights, detail, a, m) ensures TwiceIsOnce(weights, detail, e) {
        NeedsNoScaling(weights);
        MissingAtMostOne(weights, detail);
        SecondFillingChangesNothing(weights, detail, e);
      }
    } else {
      var weights, detail := SecondFillingCanChange(a, e, m);
      assert Fits(weights, detail, a, m);
    }
  }

  // ---------------------------------------------------------------- the whole of gap filling

  /** One call of gap filling. */
  datatype Call = Call(profile: Profile, detail: Dict<Category>, revenue: real, employees: real)

  /** A call with this starting sum, this estimate and this missing weight. */
  predicate CallFits(c: Call, a: real, e: real, m: real) {
    && ValidProfile(c.profile) && NonNegative(c.detail) && Sum(c.detail) == a
    && EstimatedTotal(c.profile, c.revenue, c.employees) == e
    && MissingWeight(Normalised(c.profile.materiality), c.detail) == m
  }

  predicate CompletingTwiceIsOnce(c: Call) {
    var once := Completed(c.profile, c.detail, c.revenue, c.employees);
    Completed(c.profile, once, c.revenue, c.employees) == once
  }

  /** For the whole of gap filling, on one profile and one detail. */
  lemma CompletedTwice(c: Call)
    requires ValidProfile(c.profile) && NonNegative(c.detail)
    requires var (a, e) := (Sum(c.detail), EstimatedTotal(c.profile, c.revenue, c.employees));
             Covers(a, e, MissingWeight(Normalised(c.profile.materiality), c.detail)) || e - a <= 0.01
    ensures CompletingTwiceIsOnce(c)
  {
    hide EstimatedTotal, Normalised, Fill, Covers;
    var e := EstimatedTotal(c.profile, c.revenue, c.employees);
    if e > 0.0 {
      NormalisedFacts(c.profile);
      SecondFillingChangesNothing(Normalised(c.profile.materiality), c.detail, e);
    }
  }

  lemma CallFor(weights: Dict<Category>, detail: Dict<Category>, a: real, e: real, m: real) returns (c: Call)
    requires Fits(weights, detail, a, m) && e > 0.0 && !TwiceIsOnce(weights, detail, e)
    ensures CallFits(c, a, e, m) && !CompletingTwiceIsOnce(c)
  {
    hide Fill, Normalised;
    c := Call(Profile(weights, Some(e / 1000.0), None, 1.0), detail, 1000000.0, 0.0);
    assert EstimatedTotal(c.profile, c.revenue, c.employees) == e;
    hide EstimatedTotal;
  }

  /**
   Completing twice is completing once, for every call with this starting sum A, estimate E
   and missing weight m, if and only if E covers what is missing, or at most a hundredth of
   it is left, or no listing misses that much once it is scaled.
   */
  lemma CompletingTwiceIsOnceIff(a: real, e: real, m: real)
    requires a >= 0.0 && e > 0.0 && m >= 0.0
    ensures (forall c :: CallFits(c, a, e, m) ==> CompletingTwiceIsOnce(c))
            <==> Covers(a, e, m) || e - a <= 0.01 || m > 1.01
  {
    hide CompletingTwiceIsOnce, Covers, Normalised, EstimatedTotal;
    if Covers(a, e, m) || e - a <= 0.01 || m > 1.01 {
      forall c | CallFits(c, a, e, m) ensures CompletingTwiceIsOnce(c) {
        NormalisedFacts(c.profile);
        MissingAtMostOne(Normalised(c.profile.materiality), c.detail);
        CompletedTwice(c);
      }
    } else {
      var weights, detail := SecondFillingCanChange(a, e, m);
      var c := CallFor(weights, detail, a, e, m);
      assert CallFits(c, a, e, m);
    }
  }
}
