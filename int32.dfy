/**
 * The 32-bit signed integers of the C++ source (`int`, `int32_t`):
 * the newtype, two's complement wrap-around, and division and remainder
 * truncating toward zero as C++ `/` and `%` do (Dafny's own are Euclidean).
 */
module Int32 {
  const Min: int := -0x8000_0000
  const Max: int := 0x7fff_ffff
  const Modulus: int := 0x1_0000_0000

  newtype int32 = x: int | -0x8000_0000 <= x < 0x8000_0000

  /** Two's complement wrap-around of an exact result into 32 bits. */
  function Wrap(x: int): (r: int32)
    ensures (x - r as int) % Modulus == 0
    ensures Min <= x <= Max ==> r as int == x
  {
    var m := x % Modulus;
    assert x == (x / Modulus) * Modulus + m;
    if m <= Max then m as int32 else (m - Modulus) as int32
  }

  function Abs(x: int): (r: nat)
    ensures r == x || r == -x
  {
    if x < 0 then -x else x
  }

  /** Euclid's division of naturals, with the bounds spelled out for the solver. */
  lemma NatDivBounds(x: nat, y: nat)
    requires y > 0
    ensures (x / y) * y <= x < (x / y + 1) * y
    ensures x == (x / y) * y + x % y
  {
    var q, r := x / y, x % y;
    assert x == q * y + r && 0 <= r < y;
    assert (q + 1) * y == q * y + y;
  }

  /** C++ `a / b`: the quotient rounded toward zero. */
  function TruncDiv(a: int, b: int): (q: int)
    requires b != 0
    ensures Abs(q) * Abs(b) <= Abs(a) < (Abs(q) + 1) * Abs(b)
    ensures q != 0 ==> ((q < 0) <==> ((a < 0) != (b < 0)))
  {
    var q0 := Abs(a) / Abs(b);
    NatDivBounds(Abs(a), Abs(b));
    if (a < 0) == (b < 0) then q0 else -q0
  }

  /** C++ `a % b`: the remainder takes the sign of the dividend. */
  function TruncMod(a: int, b: int): (r: int)
    requires b != 0
    ensures Abs(r) < Abs(b)
    ensures a >= 0 ==> r >= 0
    ensures a <= 0 ==> r <= 0
  {
    var r0 := Abs(a) % Abs(b);
    if a < 0 then -r0 else r0
  }

  /** A quotient is no larger in magnitude than its dividend. */
  lemma QuotientBound(a: int, b: int)
    requires b != 0
    ensures Abs(TruncDiv(a, b)) <= Abs(a)
  {
    NoSmallerThanOnce(Abs(TruncDiv(a, b)), Abs(b));
  }

  lemma NoSmallerThanOnce(x: nat, y: nat)
    requires y >= 1
    ensures x <= x * y
  {
    assert x * y == x * (y - 1) + x;
  }

  /** The identity C++ guarantees between its `/` and `%`. */
  lemma DivModIdentity(a: int, b: int)
    requires b != 0
    ensures TruncDiv(a, b) * b + TruncMod(a, b) == a
  {
    var q0, r0 := Abs(a) / Abs(b), Abs(a) % Abs(b);
    NatDivBounds(Abs(a), Abs(b));
    var q, bb: int := TruncDiv(a, b), Abs(b);
    if b < 0 {
      assert q * b == (-q) * bb;
    } else {
      assert q * b == q * bb;
    }
  }
}
