/**
 Insertion-ordered dictionaries from keys to amounts: assigning to a key that is there
 keeps its place, a new key goes last.
 */
module Dictionaries {
  import opened Rounding

  datatype Dict<K(==)> = Empty | Entry(key: K, amount: real, rest: Dict<K>)

  predicate Has<K(==)>(d: Dict<K>, k: K) {
    d.Entry? && (d.key == k || Has(d.rest, k))
  }

  /** No key twice. */
  predicate Distinct<K(==)>(d: Dict<K>) {
    d.Entry? ==> !Has(d.rest, d.key) && Distinct(d.rest)
  }

  /** The amount under a key, zero when there is none. */
  function Get<K(==)>(d: Dict<K>, k: K): real {
    match d
    case Empty => 0.0
    case Entry(key, amount, rest) => if key == k then amount else Get(rest, k)
  }

  function Set<K(==)>(d: Dict<K>, k: K, v: real): Dict<K> {
    match d
    case Empty => Entry(k, v, Empty)
    case Entry(key, amount, rest) => if key == k then Entry(k, v, rest) else Entry(key, amount, Set(rest, k, v))
  }

  function Sum<K(==)>(d: Dict<K>): real {
    match d
    case Empty => 0.0
    case Entry(_, amount, rest) => amount + Sum(rest)
  }

  function Scaled<K(==)>(d: Dict<K>, total: real): Dict<K>
    requires total > 0.0
  {
    match d
    case Empty => Empty
    case Entry(k, v, rest) => Entry(k, v / total, Scaled(rest, total))
  }

  predicate AllHundredths<K(==)>(d: Dict<K>) {
    d.Entry? ==> Hundredths(d.amount) && AllHundredths(d.rest)
  }

  predicate NonNegative<K(==)>(d: Dict<K>) {
    d.Entry? ==> d.amount >= 0.0 && NonNegative(d.rest)
  }

  lemma {:induction false} GetSet<K>(d: Dict<K>, k: K, v: real, other: K)
    ensures Get(Set(d, k, v), other) == if other == k then v else Get(d, other)
    ensures Has(Set(d, k, v), other) <==> other == k || Has(d, other)
  {
    if d.Entry? {
      GetSet(d.rest, k, v, other);
    }
  }

  lemma {:induction false} SumSet<K>(d: Dict<K>, k: K, v: real)
    ensures Sum(Set(d, k, v)) == Sum(d) - Get(d, k) + v
  {
    if d.Entry? {
      SumSet(d.rest, k, v);
    }
  }

  lemma {:induction false} SetDistinct<K>(d: Dict<K>, k: K, v: real)
    requires Distinct(d)
    ensures Distinct(Set(d, k, v))
  {
    if d.Entry? {
      SetDistinct(d.rest, k, v);
      GetSet(d.rest, k, v, d.key);
    }
  }

  lemma {:induction false} SetKeepsAmounts<K>(d: Dict<K>, k: K, v: real)
    ensures AllHundredths(d) && Hundredths(v) ==> AllHundredths(Set(d, k, v))
    ensures NonNegative(d) && v >= 0.0 ==> NonNegative(Set(d, k, v))
  {
    if d.Entry? {
      SetKeepsAmounts(d.rest, k, v);
    }
  }

  lemma {:induction false} AmountFacts<K>(d: Dict<K>, k: K)
    ensures NonNegative(d) ==> 0.0 <= Get(d, k) && Get(d, k) <= Sum(d)
    ensures AllHundredths(d) ==> Hundredths(Sum(d))
  {
    if d.Entry? {
      AmountFacts(d.rest, k);
      if AllHundredths(d) {
        HundredthsAdd(d.amount, Sum(d.rest));
      }
    }
  }

  lemma {:induction false} AbsentIsZero<K>(d: Dict<K>, k: K)
    requires !Has(d, k)
    ensures Get(d, k) == 0.0
  {
    if d.Entry? {
      AbsentIsZero(d.rest, k);
    }
  }

  lemma {:induction false} ScaledFacts<K(!new)>(d: Dict<K>, total: real)
    requires total > 0.0
    ensures Sum(Scaled(d, total)) == Sum(d) / total
    ensures NonNegative(d) ==> NonNegative(Scaled(d, total))
    ensures Distinct(d) ==> Distinct(Scaled(d, total))
    ensures forall k :: Has(Scaled(d, total), k) <==> Has(d, k)
  {
    if d.Entry? {
      ScaledFacts(d.rest, total);
      assert d.amount / total + Sum(d.rest) / total == (d.amount + Sum(d.rest)) / total;
    }
  }
}
