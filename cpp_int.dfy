/**
 * Integer semantics of C++ that differ from Dafny's mathematical integers:
 * `/` and `%` truncate toward zero (Dafny's are Euclidean), and unsigned
 * arithmetic wraps around.
 */
module CppInt {

  /** 2^32: the modulus of `unsigned int` arithmetic. */
  const U32: int := 0x1_0000_0000
  /** 2^64: the modulus of `size_t` arithmetic on a 64-bit target. */
  const U64: int := 0x1_0000_0000_0000_0000

  function Abs(x: int): (r: nat)
    ensures r == x || r == -x
  {
    if x < 0 then -x else x
  }

  /** C++ `a / b` on `int`: the quotient of the magnitudes, with the sign of the exact quotient. */
  function TruncDiv(a: int, b: int): int
    requires b != 0
  {
    if a >= 0 && b > 0 then a / b
    else if a < 0 && b < 0 then (-a) / (-b)
    else if a >= 0 then -(a / (-b))
    else -((-a) / b)
  }

  /** C++ `a % b` on `int`: the remainder that goes with TruncDiv. */
  function TruncRem(a: int, b: int): int
    requires b != 0
  {
    if a >= 0 && b > 0 then a % b
    else if a < 0 && b < 0 then -((-a) % (-b))
    else if a >= 0 then a % (-b)
    else -((-a) % b)
  }

  /**
   * The C++ guarantee for `/` and `%`: `(a / b) * b + a % b == a`, with a
   * remainder of the dividend's sign whose magnitude is below the divisor's.
   */
  lemma TruncDivRem(a: int, b: int)
    requires b != 0
    ensures a == b * TruncDiv(a, b) + TruncRem(a, b)
    ensures Abs(TruncRem(a, b)) < Abs(b)
    ensures a >= 0 ==> TruncRem(a, b) >= 0
    ensures a <= 0 ==> TruncRem(a, b) <= 0
  {
    if a >= 0 && b > 0 {
    } else if a < 0 && b < 0 {
      assert -a == (-b) * ((-a) / (-b)) + (-a) % (-b);
    } else if a >= 0 {
      assert a == (-b) * (a / (-b)) + a % (-b);
    } else {
      assert -a == b * ((-a) / b) + (-a) % b;
    }
  }

  /** On a non-negative dividend and a positive divisor both operators agree with Dafny's. */
  lemma TruncAgreesOnNonNegative(a: int, b: int)
    requires a >= 0 && b > 0
    ensures TruncDiv(a, b) == a / b && TruncRem(a, b) == a % b
  {
  }

  /** Unsigned 32-bit wrap-around of a mathematical value. */
  function WrapU32(x: int): (r: int)
    ensures 0 <= r < U32
    ensures 0 <= x < U32 ==> r == x
  {
    x % U32
  }

  /** Unsigned 64-bit wrap-around of a mathematical value. */
  function WrapU64(x: int): (r: int)
    ensures 0 <= r < U64
    ensures 0 <= x < U64 ==> r == x
  {
    x % U64
  }

  /** Wrapping an intermediate sum does not change the wrapped total. */
  lemma WrapU32Add(a: int, b: int)
    ensures WrapU32(WrapU32(a) + b) == WrapU32(a + b)
  {
    var q, s, t := a / U32, (a + b) % U32, (a + b) / U32;
    assert a % U32 + b == (t - q) * U32 + s;
    DivModUnique(a % U32 + b, U32, t - q, s);
  }

  /** Wrapping an intermediate sum does not change the wrapped total. */
  lemma WrapU64Add(a: int, b: int)
    ensures WrapU64(WrapU64(a) + b) == WrapU64(a + b)
  {
    var q, s, t := a / U64, (a + b) % U64, (a + b) / U64;
    assert a % U64 + b == (t - q) * U64 + s;
    DivModUnique(a % U64 + b, U64, t - q, s);
  }

  /** Multiplying both sides of an inequality by a natural number keeps it. */
  lemma MultiplyMonotone(a: int, b: int, c: nat)
    requires a >= b
    ensures a * c >= b * c
  {
  }

  /** The quotient and remainder of a division are the only such pair. */
  lemma DivModUnique(n: int, c: int, q: int, m: int)
    requires c > 0 && 0 <= m < c && n == q * c + m
    ensures n / c == q && n % c == m
  {
    var q', m' := n / c, n % c;
    assert (q - q') * c == m' - m;
    if q > q' {
      MultiplyMonotone(q - q', 1, c);
    } else if q < q' {
      MultiplyMonotone(q' - q, 1, c);
    }
  }
}
