/**
 When the order of an industry's categories matters to what each of them is filled with
 (carbonscope/emission_factors/scope3.py).
 */
module FillingOrder {
  import opened Dictionaries
  import opened FillingTwice
  import opened GapFilling
  import opened Rounding

  /** A listed category with positive weight that has no amount yet. */
  predicate Contends(weights: Dict<Category>, detail: Dict<Category>, k: Category) {
    Has(weights, k) && Get(detail, k) <= 0.0 && Get(weights, k) > 0.0
  }

  ghost predicate NobodyContends(weights: Dict<Category>, detail: Dict<Category>) {
    forall k :: !Contends(weights, detail, k)
  }

  /** At most one category has anything to be filled with. */
  ghost predicate OneContends(weights: Dict<Category>, detail: Dict<Category>) {
    forall p, q :: Contends(weights, detail, p) && Contends(weights, detail, q) ==> p == q
  }

  lemma ContendsInRest(weights: Dict<Category>, detail: Dict<Category>, k: Category)
    requires weights.Entry? && Distinct(weights)
    ensures Contends(weights.rest, detail, k) <==> Contends(weights, detail, k) && k != weights.key
  {
  }

  lemma {:induction false} NobodyIsFilled(weights: Dict<Category>, d: Dict<Category>, a: real, e: real, rounded: bool)
    requires Distinct(weights) && NonNegative(weights) && NobodyContends(weights, d)
    ensures Fill(weights, d, a, e, rounded) == (d, a)
  {
    if weights.Entry? {
      assert !Contends(weights, d, weights.key);
      ShareAtMost(weights.amount, a, e);
      forall k ensures !Contends(weights.rest, d, k) {
        ContendsInRest(weights, d, k);
      }
      hide Share, Contends;
      NobodyIsFilled(weights.rest, d, a, e, rounded);
    }
  }

  // ---------------------------------------------------------------- the estimate covers what is missing

  function FullShare(e: real, w: real): real { e * w }

  lemma FullShareIs(e: real, w: real)
    ensures FullShare(e, w) == e * w
  {
  }

  /**
   While the estimate covers what is missing, every category that contends gets its full
   share, whatever the order.
   */
  lemma {:induction false} FullShares(
    weights: Dict<Category>, d: Dict<Category>, a: real, e: real, rounded: bool, k: Category)
    requires Distinct(weights) && NonNegative(weights) && e > 0.0 && Covers(a, e, MissingWeight(weights, d))
    ensures var full := FullShare(e, Get(weights, k));
            Get(Fill(weights, d, a, e, rounded).0, k) ==
            if Contends(weights, d, k) then (if rounded then Round2(full) else full) else Get(d, k)
  {
    if weights.Entry? {
      hide Share, Round2, Set, Covers, FullShare;
      var head, w, rest := weights.key, weights.amount, weights.rest;
      MissingWeightNonNegative(rest, d);
      if Get(d, head) <= 0.0 {
        CoversStep(a, e, w, MissingWeight(rest, d));
        assert Share(w, a, e) == FullShare(e, w) by {
          FullShareIs(e, w);
        }
      }
      ContendsInRest(weights, d, k);
      if Fills(head, w, d, a, e) {
        var v := Share(w, a, e);
        var amount := if rounded then Round2(v) else v;
        MissingWeightElsewhere(rest, d, head, amount);
        GetSet(d, head, amount, k);
        ShareAtMost(w, a, e);
        if k == head {
          PositiveAmountsAreKept(rest, Set(d, head, amount), a + v, e, rounded, k);
        } else {
          FullShares(rest, Set(d, head, amount), a + v, e, rounded, k);
        }
      } else if k == head {
        PositiveAmountsAreKept(rest, d, a, e, rounded, k);
      } else {
        FullShares(rest, d, a, e, rounded, k);
      }
    }
  }

  // ---------------------------------------------------------------- one category contends

  lemma {:induction false} OneShare(
    weights: Dict<Category>, d: Dict<Category>, a: real, e: real, k: Category)
    requires Distinct(weights) && NonNegative(weights) && e > 0.0 && a < e && OneContends(weights, d)
    ensures Get(Fill(weights, d, a, e, false).0, k)
         == if Contends(weights, d, k) then Share(Get(weights, k), a, e) else Get(d, k)
  {
    if weights.Entry? {
      var head, w, rest := weights.key, weights.amount, weights.rest;
      forall q ensures Contends(rest, d, q) <==> Contends(weights, d, q) && q != head {
        ContendsInRest(weights, d, q);
      }
      ShareIsZero(w, a, e);
      hide Share, Set;
      if Fills(head, w, d, a, e) {
        var v := Share(w, a, e);
        assert Contends(weights, d, head);
        forall q ensures !Contends(rest, Set(d, head, v), q) {
          GetSet(d, head, v, q);
          ContendsInRest(weights, d, q);
        }
        NobodyIsFilled(rest, Set(d, head, v), a + v, e, false);
        GetSet(d, head, v, k);
      } else {
        OneShare(rest, d, a, e, k);
      }
    }
  }

  // ---------------------------------------------------------------- two contend

  lemma {:induction false} FillAppend(
    weights: Dict<Category>, p: Category, w: real, d: Dict<Category>, a: real, e: real)
    requires !Has(weights, p)
    ensures var (before, total) := Fill(weights, d, a, e, false);
            Fill(Set(weights, p, w), d, a, e, false) == Fill(Entry(p, w, Empty), before, total, e, false)
  {
    if weights.Entry? {
      var v := Share(weights.amount, a, e);
      if Fills(weights.key, weights.amount, d, a, e) {
        FillAppend(weights.rest, p, w, Set(d, weights.key, v), a + v, e);
      } else {
        FillAppend(weights.rest, p, w, d, a, e);
      }
    }
  }

  lemma FillOne(p: Category, w: real, d: Dict<Category>, a: real, e: real)
    ensures Fill(Entry(p, w, Empty), d, a, e, false).0
         == if Get(d, p) <= 0.0 && Share(w, a, e) > 0.0 then Set(d, p, Share(w, a, e)) else d
  {
  }

  /** The listing with one category moved to the front, and moved to the end. */
  function Ahead(weights: Dict<Category>, p: Category): Dict<Category> {
    Entry(p, Get(weights, p), Without(weights, p))
  }

  function Behind(weights: Dict<Category>, p: Category): Dict<Category> {
    Set(Without(weights, p), p, Get(weights, p))
  }

  lemma MovesAreReorderings(weights: Dict<Category>, p: Category)
    requires Distinct(weights) && Has(weights, p)
    ensures Reorders(Ahead(weights, p), weights) && Reorders(Behind(weights, p), weights)
    ensures !Has(Without(weights, p), p)
  {
    WithoutDistinct(weights, p);
    WithoutFacts(weights, p, p);
    SetDistinct(Without(weights, p), p, Get(weights, p));
    forall k
      ensures (Has(Ahead(weights, p), k) <==> Has(weights, k)) && Get(Ahead(weights, p), k) == Get(weights, k)
      ensures (Has(Behind(weights, p), k) <==> Has(weights, k)) && Get(Behind(weights, p), k) == Get(weights, k)
    {
      WithoutFacts(weights, p, k);
      GetSet(Without(weights, p), p, Get(weights, p), k);
    }
  }

  /** A category that contends, put first. */
  lemma AmountAhead(weights: Dict<Category>, d: Dict<Category>, a: real, e: real, p: Category)
    requires Distinct(weights) && NonNegative(weights) && e > 0.0 && a < e && Contends(weights, d, p)
    ensures Get(Fill(Ahead(weights, p), d, a, e, false).0, p) == Share(Get(weights, p), a, e) > 0.0
  {
    var w := Get(weights, p);
    var v := Share(w, a, e);
    ShareIsZero(w, a, e);
    MovesAreReorderings(weights, p);
    hide Share;
    GetSet(d, p, v, p);
    PositiveAmountsAreKept(Without(weights, p), Set(d, p, v), a + v, e, false, p);
  }

  /** The same category, put last: it gets what the others leave. */
  lemma AmountBehind(weights: Dict<Category>, d: Dict<Category>, a: real, e: real, p: Category)
    requires Distinct(weights) && NonNegative(weights) && NonNegative(d) && e > 0.0 && Contends(weights, d, p)
    ensures var others := MissingWeight(Without(weights, p), d);
            Get(Fill(Behind(weights, p), d, a, e, false).0, p) ==
            Max(0.0, Share(Get(weights, p), RaisedTo(a, e, others), e))
  {
    var rest, w := Without(weights, p), Get(weights, p);
    MovesAreReorderings(weights, p);
    WithoutNonNegative(weights, p);
    WithoutDistinct(weights, p);
    FilledTotal(rest, d, a, e, false);
    FillAppend(rest, p, w, d, a, e);
    PositiveAmountsAreKept(rest, d, a, e, false, p);
    AmountFacts(d, p);
    var (before, total) := Fill(rest, d, a, e, false);
    FillOne(p, w, before, total, e);
    GetSet(before, p, Share(w, total, e), p);
    hide Fill, Share, RaisedTo, MissingWeight, Set, Get;
  }

  lemma {:induction false} WithoutNonNegative(d: Dict<Category>, k: Category)
    requires NonNegative(d)
    ensures NonNegative(Without(d, k))
  {
    if d.Entry? {
      WithoutNonNegative(d.rest, k);
    }
  }

  lemma {:induction false} MissingAtLeast(weights: Dict<Category>, d: Dict<Category>, q: Category)
    requires NonNegative(weights) && Contends(weights, d, q)
    ensures MissingWeight(weights, d) >= Get(weights, q)
  {
    MissingWeightNonNegative(weights.rest, d);
    if weights.key != q {
      MissingAtLeast(weights.rest, d, q);
    }
  }

  /** With another category contending and a budget that binds, the last place gets less than the first. */
  lemma LessBehind(a: real, e: real, w: real, others: real)
    requires e > 0.0 && w > 0.0 && others > 0.0 && a < e && !Covers(a, e, others + w)
    ensures Max(0.0, Share(w, RaisedTo(a, e, others), e)) < Share(w, a, e)
  {
    var p, q := e * w, e * others;
    assert e * (others + w) == p + q;
    assert p > 0.0 && q > 0.0;
  }

  lemma PlaceMatters(weights: Dict<Category>, d: Dict<Category>, a: real, e: real, p: Category, q: Category)
    requires Distinct(weights) && NonNegative(weights) && NonNegative(d) && e > 0.0
    requires a < e && !Covers(a, e, MissingWeight(weights, d))
    requires p != q && Contends(weights, d, p) && Contends(weights, d, q)
    ensures Get(Fill(Ahead(weights, p), d, a, e, false).0, p) != Get(Fill(Behind(weights, p), d, a, e, false).0, p)
  {
    hide Fill, Share, RaisedTo, Covers, Set;
    var others := MissingWeight(Without(weights, p), d);
    AmountAhead(weights, d, a, e, p);
    AmountBehind(weights, d, a, e, p);
    MissingWeightWithout(weights, p, d);
    WithoutFacts(weights, p, q);
    WithoutNonNegative(weights, p);
    MissingAtLeast(Without(weights, p), d, q);
    LessBehind(a, e, Get(weights, p), others);
  }

  // ---------------------------------------------------------------- the exact condition

  ghost predicate Reorders(other: Dict<Category>, weights: Dict<Category>) {
    Distinct(other) && SameEntries(weights, other)
  }

  /** Unrounded, both listings give this category the same amount. */
  predicate SameShare(
    weights: Dict<Category>, other: Dict<Category>, d: Dict<Category>, a: real, e: real, k: Category)
  {
    Get(Fill(weights, d, a, e, false).0, k) == Get(Fill(other, d, a, e, false).0, k)
  }

  lemma {:induction false} NonNegativeFromAmounts(d: Dict<Category>)
    requires Distinct(d) && forall k :: Get(d, k) >= 0.0
    ensures NonNegative(d)
  {
    if d.Entry? {
      assert Get(d, d.key) == d.amount;
      forall k ensures Get(d.rest, k) >= 0.0 {
        AbsentOrSame(d, k);
      }
      NonNegativeFromAmounts(d.rest);
    }
  }

  lemma AbsentOrSame(d: Dict<Category>, k: Category)
    requires d.Entry? && Distinct(d)
    ensures Get(d.rest, k) == if k == d.key then 0.0 else Get(d, k)
  {
    if k == d.key {
      AbsentIsZero(d.rest, k);
    }
  }

  lemma ReorderedFacts(weights: Dict<Category>, other: Dict<Category>, d: Dict<Category>)
    requires Distinct(weights) && NonNegative(weights) && Reorders(other, weights)
    ensures NonNegative(other) && MissingWeight(other, d) == MissingWeight(weights, d)
    ensures forall k :: Contends(other, d, k) <==> Contends(weights, d, k)
    ensures OneContends(weights, d) ==> OneContends(other, d)
  {
    forall k ensures Get(other, k) >= 0.0 {
      AmountFacts(weights, k);
      assert Get(weights, k) == Get(other, k);
    }
    NonNegativeFromAmounts(other);
    MissingWeightIgnoresOrder(weights, other, d);
    forall k ensures Contends(other, d, k) <==> Contends(weights, d, k) {
      assert (Has(weights, k) <==> Has(other, k)) && Get(weights, k) == Get(other, k);
    }
  }

  predicate OrderSettled(a: real, e: real, missing: real) {
    a >= e || Covers(a, e, missing)
  }

  lemma SameShareWhatever(
    weights: Dict<Category>, other: Dict<Category>, d: Dict<Category>, a: real, e: real, k: Category)
    requires Distinct(weights) && NonNegative(weights) && NonNegative(d) && e > 0.0 && Reorders(other, weights)
    requires OrderSettled(a, e, MissingWeight(weights, d)) || OneContends(weights, d)
    ensures SameShare(weights, other, d, a, e, k)
  {
    ReorderedFacts(weights, other, d);
    assert Get(weights, k) == Get(other, k) && (Contends(other, d, k) <==> Contends(weights, d, k));
    hide Fill, Share, Covers, Contends, OneContends, MissingWeight, Distinct, NonNegative, Get, FullShare;
    if a >= e {
      NothingLeft(weights, d, a, e, false);
      NothingLeft(other, d, a, e, false);
    } else if Covers(a, e, MissingWeight(weights, d)) {
      FullShares(weights, d, a, e, false, k);
      FullShares(other, d, a, e, false, k);
    } else {
      OneShare(weights, d, a, e, k);
      OneShare(other, d, a, e, k);
    }
    assert SameShare(weights, other, d, a, e, k);
  }

  /**
   Before rounding, every order of the industry's categories gives every category the same
   amount if and only if nothing is left to fill, or the estimate covers what is missing,
   or at most one category that is missing has any weight.
   */
  lemma OrderIsImmaterialIff(weights: Dict<Category>, d: Dict<Category>, a: real, e: real)
    requires Distinct(weights) && NonNegative(weights) && NonNegative(d) && e > 0.0
    ensures (forall other, k :: Reorders(other, weights) ==> SameShare(weights, other, d, a, e, k))
            <==> OrderSettled(a, e, MissingWeight(weights, d)) || OneContends(weights, d)
  {
    hide SameShare, Contends, Covers, MissingWeight, Distinct, NonNegative, Reorders;
    if OrderSettled(a, e, MissingWeight(weights, d)) || OneContends(weights, d) {
      forall other, k | Reorders(other, weights) ensures SameShare(weights, other, d, a, e, k) {
        SameShareWhatever(weights, other, d, a, e, k);
      }
    } else {
      var p, q :| Contends(weights, d, p) && Contends(weights, d, q) && p != q;
      SomeOrderDiffers(weights, d, a, e, p, q);
    }
  }

  lemma SomeOrderDiffers(weights: Dict<Category>, d: Dict<Category>, a: real, e: real, p: Category, q: Category)
    requires Distinct(weights) && NonNegative(weights) && NonNegative(d) && e > 0.0
    requires !OrderSettled(a, e, MissingWeight(weights, d))
    requires p != q && Contends(weights, d, p) && Contends(weights, d, q)
    ensures exists other, k :: Reorders(other, weights) && !SameShare(weights, other, d, a, e, k)
  {
    hide Fill, Covers, MissingWeight, Distinct, NonNegative, Reorders, Get, Has, Set, Without;
    PlaceMatters(weights, d, a, e, p, q);
    MovesAreReorderings(weights, p);
    assert !SameShare(weights, Ahead(weights, p), d, a, e, p) || !SameShare(weights, Behind(weights, p), d, a, e, p);
  }
}
