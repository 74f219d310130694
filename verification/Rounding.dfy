/**
 Rounding as the emission code does it: to the nearest multiple, ties to even.
 Amounts are exact reals, so a rounded amount is a whole number of hundredths.
 */
module Rounding {

  function Min(x: real, y: real): real { if x <= y then x else y }

  function Max(x: real, y: real): real { if x >= y then x else y }

  function Abs(x: real): real { if x >= 0.0 then x else -x }

  function HalfEven(x: real): (n: int)
    ensures x - 0.5 <= n as real <= x + 0.5
  {
    var down := x.Floor;
    var rest := x - down as real;
    if rest < 0.5 || (rest == 0.5 && down % 2 == 0) then down else down + 1
  }

  function Round1(x: real): (r: real)
    ensures x - 0.05 <= r <= x + 0.05
  {
    HalfEven(x * 10.0) as real / 10.0
  }

  function Round2(x: real): (r: real)
    ensures x - 0.005 <= r <= x + 0.005
  {
    HalfEven(x * 100.0) as real / 100.0
  }

  function Round4(x: real): (r: real)
    ensures x - 0.00005 <= r <= x + 0.00005
  {
    HalfEven(x * 10000.0) as real / 10000.0
  }

  /** A whole number of hundredths. */
  predicate Hundredths(x: real) {
    (x * 100.0).Floor as real == x * 100.0
  }

  lemma HalfEvenMonotone(x: real, y: real)
    requires x <= y
    ensures HalfEven(x) <= HalfEven(y)
  {
  }

  lemma HalfEvenOfWhole(n: int)
    ensures HalfEven(n as real) == n
  {
  }

  /** Half-way between two whole numbers the even one is taken. */
  lemma TiesGoToEven(n: int)
    ensures HalfEven(n as real + 0.5) == if n % 2 == 0 then n else n + 1
  {
  }

  lemma HalfEvenNear(x: real, n: int)
    requires n as real - 0.5 < x < n as real + 0.5
    ensures HalfEven(x) == n
  {
    assert HalfEven(x) as real - 1.0 < n as real < HalfEven(x) as real + 1.0;
  }

  lemma Round2Facts(x: real)
    ensures Hundredths(Round2(x))
    ensures Hundredths(x) ==> Round2(x) == x
    ensures x >= 0.0 ==> Round2(x) >= 0.0
    ensures x >= 0.0 ==> (Round2(x) == 0.0 <==> x <= 0.005)
  {
    var n := HalfEven(x * 100.0);
    assert Round2(x) * 100.0 == n as real;
    if x >= 0.0 {
      HalfEvenOfWhole(0);
      HalfEvenMonotone(0.0, x * 100.0);
    }
    if Hundredths(x) {
      HalfEvenOfWhole((x * 100.0).Floor);
    }
  }

  lemma Round2OfWhole(n: int)
    ensures Round2(n as real) == n as real
  {
    HalfEvenOfWhole(n * 100);
  }

  lemma HundredthsAdd(x: real, y: real)
    requires Hundredths(x) && Hundredths(y)
    ensures Hundredths(x + y)
  {
    assert (x + y) * 100.0 == ((x * 100.0).Floor + (y * 100.0).Floor) as real;
  }

  /** Rounding to four places keeps a score between whole bounds. */
  lemma Round4Between(x: real, lo: int, hi: int)
    requires lo as real <= x <= hi as real
    ensures lo as real <= Round4(x) <= hi as real
  {
    HalfEvenOfWhole(lo * 10000);
    HalfEvenOfWhole(hi * 10000);
    HalfEvenMonotone((lo * 10000) as real, x * 10000.0);
    HalfEvenMonotone(x * 10000.0, (hi * 10000) as real);
  }

  lemma Round1Monotone(x: real, y: real)
    requires x <= y
    ensures Round1(x) <= Round1(y)
  {
    HalfEvenMonotone(x * 10.0, y * 10.0);
  }

  lemma Round1OfWhole(n: int)
    ensures Round1(n as real) == n as real
  {
    HalfEvenOfWhole(n * 10);
  }

  lemma Round4Monotone(x: real, y: real)
    requires x <= y
    ensures Round4(x) <= Round4(y)
  {
    HalfEvenMonotone(x * 10000.0, y * 10000.0);
  }
}
