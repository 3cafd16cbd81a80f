/** Go's 64-bit `int` arithmetic, as the placement formulas of imagick/process.go use it.
    Dafny integers are unbounded and its `/` is Euclidean; Go's `int` wraps modulo 2^64
    and its `/` truncates toward zero. */
module GoInt {

  const Int64Min: int := -0x8000_0000_0000_0000
  const Int64Max: int := 0x7fff_ffff_ffff_ffff
  const Modulus: int := 0x1_0000_0000_0000_0000

  predicate InInt64(x: int) {
    Int64Min <= x <= Int64Max
  }

  function Abs(x: int): nat {
    if x < 0 then -x else x
  }

  /** Two's-complement wrap-around of an exact integer into a Go `int`. */
  function Wrap(x: int): (r: int)
    ensures InInt64(r)
    ensures (x - r) % Modulus == 0
    ensures InInt64(x) ==> r == x
  {
    (x - Int64Min) % Modulus + Int64Min
  }

  /** Go's `a - b` on `int` operands. */
  function Sub(a: int, b: int): (r: int)
    ensures InInt64(r)
    ensures (a - b - r) % Modulus == 0
    ensures InInt64(a - b) ==> r == a - b
  {
    Wrap(a - b)
  }

  /** Go's `a / b` on integers: the quotient truncated toward zero. */
  function GoDiv(a: int, b: int): int
    requires b != 0
  {
    if (a < 0) == (b < 0) then Abs(a) / Abs(b) else -(Abs(a) / Abs(b))
  }

  /** The defining property of truncated division: `q * b` is the multiple of `b`
      closest to zero among those not further from zero than `a`, on `a`'s side. */
  ghost predicate TruncatedQuotient(a: int, b: int, q: int)
    requires b != 0
  {
    && Abs(q) * Abs(b) <= Abs(a) < Abs(q) * Abs(b) + Abs(b)
    && (q == 0 || ((q < 0) == ((a < 0) != (b < 0))))
  }

  /** Euclidean division of naturals has a unique quotient. */
  lemma EuclidUnique(n: nat, d: nat, k: nat)
    requires d > 0
    requires k * d <= n < k * d + d
    ensures k == n / d
  {
    var t := n / d;
    if k < t {
      MulMonotone(k + 1, t, d);
      assert false;
    } else if k > t {
      MulMonotone(t + 1, k, d);
      assert false;
    }
  }

  lemma MulMonotone(x: nat, y: nat, d: nat)
    requires x <= y
    ensures x * d <= y * d
  {
  }

  lemma GoDivMagnitude(a: int, b: int)
    requires b != 0
    ensures Abs(GoDiv(a, b)) == Abs(a) / Abs(b)
  {
  }

  lemma EuclidBounds(n: nat, d: nat)
    requires d > 0
    ensures (n / d) * d <= n < (n / d) * d + d
  {
  }

  /** GoDiv is exactly truncated division: it meets the defining property, and it is
      the only quotient that does. */
  lemma GoDivIsTruncation(a: int, b: int, q: int)
    requires b != 0
    ensures TruncatedQuotient(a, b, GoDiv(a, b))
    ensures TruncatedQuotient(a, b, q) <==> q == GoDiv(a, b)
  {
    GoDivMagnitude(a, b);
    EuclidBounds(Abs(a), Abs(b));
    if TruncatedQuotient(a, b, q) {
      EuclidUnique(Abs(a), Abs(b), Abs(q));
    }
  }

  /** Truncation is symmetric about zero, which Euclidean division is not. */
  lemma GoDivOdd(a: int, b: int)
    requires b != 0
    ensures GoDiv(-a, b) == -GoDiv(a, b)
  {
    assert Abs(-a) == Abs(a);
  }

  /** Go and Dafny agree on `/ 2` exactly when the dividend is non-negative or even. */
  lemma GoDivHalfAgreesWithEuclid(a: int)
    ensures GoDiv(a, 2) == a / 2 <==> a >= 0 || a % 2 == 0
  {
  }
}
