/** Division with a remainder, for divisors that are not constants. */
module Arithmetic {

  lemma Divided(v: int, d: int)
    requires d > 0
    ensures v / d * d <= v < v / d * d + d
    ensures v % d == v - v / d * d
    ensures v >= 0 ==> v / d >= 0
  {
  }

  lemma {:induction false} MultipleGrows(a: int, b: int, d: nat)
    requires a <= b
    ensures a * d <= b * d
    decreases b - a
  {
    if a < b {
      MultipleGrows(a, b - 1, d);
      assert b * d == (b - 1) * d + d;
    }
  }

  /** Quotient and remainder are unique. */
  lemma QuotientIs(v: int, d: int, q: int)
    requires d > 0 && q * d <= v < q * d + d
    ensures v / d == q && v % d == v - q * d
  {
    Divided(v, d);
    if v / d < q {
      MultipleGrows(v / d + 1, q, d);
    }
    if q < v / d {
      MultipleGrows(q + 1, v / d, d);
    }
  }

  lemma QuotientShrinks(a: nat, d: nat)
    requires d > 0
    ensures 0 <= a / d <= a
  {
    Divided(a, d);
    MultipleGrows(1, d, a / d);
  }

  lemma RemainderOfSum(a: int, b: int, d: int)
    requires d > 0
    ensures (a + b) % d == (a % d + b % d) % d
  {
    Divided(a, d);
    Divided(b, d);
    var r := a % d + b % d;
    Divided(r, d);
    assert (a / d + b / d + r / d) * d == a / d * d + b / d * d + r / d * d;
    QuotientIs(a + b, d, a / d + b / d + r / d);
  }

  lemma RemainderOfDifference(a: int, b: int, d: int)
    requires d > 0
    ensures (a - b) % d == (a % d - b % d) % d
  {
    Divided(a, d);
    Divided(b, d);
    var r := a % d - b % d;
    Divided(r, d);
    assert (a / d - b / d + r / d) * d == a / d * d - b / d * d + r / d * d;
    QuotientIs(a - b, d, a / d - b / d + r / d);
  }

  /** Reducing modulo a multiple first changes nothing. */
  lemma RemainderOfRemainder(v: int, d: int, k: int)
    requires d > 0 && k > 0 && d * k > 0
    ensures v % (d * k) % d == v % d
  {
    Divided(v, d * k);
    var q, r := v / (d * k), v % (d * k);
    Divided(r, d);
    assert (q * k + r / d) * d == q * (d * k) + r / d * d;
    QuotientIs(v, d, q * k + r / d);
  }
}
