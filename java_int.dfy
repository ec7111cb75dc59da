/** Java `int` arithmetic that differs from Dafny's unbounded `int`:
    division that truncates toward zero, and the 32-bit range with its
    wrap-around. */
module JavaInt {

  /** The reference definition of Java's integer quotient by a positive
      divisor: `q * b` is the multiple of `b` nearest to `a` on the side of
      zero, so the quotient is rounded toward zero and the remainder
      `a - q * b` has the sign of `a` and is smaller than `b`. */
  predicate IsTruncatedQuotient(a: int, b: int, q: int) {
    b > 0 &&
    if a >= 0 then q * b <= a < q * b + b else q * b - b < a <= q * b
  }

  /** Java's `a / b` on `int` for a positive divisor (without overflow): the
      quotient truncated toward zero. Dafny's own `/` is Euclidean, so a
      negative dividend needs its sign handled by hand. */
  function Div(a: int, b: int): (q: int)
    requires b > 0
    ensures IsTruncatedQuotient(a, b, q)
  {
    if a >= 0 then
      assert a == (a / b) * b + a % b && 0 <= a % b < b;
      a / b
    else
      var e := (-a) / b;
      assert -a == e * b + (-a) % b && 0 <= (-a) % b < b;
      assert (-e) * b == -(e * b);
      -e
  }

  /** A multiple of a positive b strictly between -b and b is zero. */
  lemma SmallMultipleIsZero(k: int, b: int)
    requires b > 0 && -b < k * b < b
    ensures k == 0
  {
  }

  /** The reference definition pins the quotient down: Div is the only
      value that satisfies it. */
  lemma DivUnique(a: int, b: int, q: int)
    requires IsTruncatedQuotient(a, b, q)
    ensures q == Div(a, b)
  {
    var d := Div(a, b);
    assert (d - q) * b == d * b - q * b;
    SmallMultipleIsZero(d - q, b);
  }

  const MinInt32: int := -0x8000_0000
  const MaxInt32: int := 0x7fff_ffff

  predicate IsInt32(x: int) {
    MinInt32 <= x <= MaxInt32
  }

  /** The value a 32-bit `int` holds after an operation whose true result
      is `x`: Java keeps the low 32 bits in two's complement. */
  function Wrap32(x: int): (r: int)
    ensures IsInt32(r)
    ensures (x - r) % 0x1_0000_0000 == 0
    ensures IsInt32(x) ==> r == x
  {
    var m := x % 0x1_0000_0000;
    if m > MaxInt32 then m - 0x1_0000_0000 else m
  }
}
