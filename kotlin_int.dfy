/** Kotlin's 32-bit `Int`: values and the wrap-around of its arithmetic operators. */
module KotlinInt {

  const MIN: int := -0x8000_0000
  const MAX: int := 0x7fff_ffff
  const MODULUS: int := 0x1_0000_0000

  /** The values of a Kotlin `Int`. */
  type Int32 = x: int | MIN <= x <= MAX

  /** Two's-complement truncation of a mathematical integer to 32 bits. */
  function Wrap(x: int): (r: Int32)
    ensures (x - r) % MODULUS == 0
    ensures MIN <= x <= MAX ==> r == x
  {
    (x - MIN) % MODULUS + MIN
  }

  /** Two integers congruent modulo 2^32 truncate to the same `Int`. */
  lemma WrapCongruent(x: int, y: int)
    requires (x - y) % MODULUS == 0
    ensures Wrap(x) == Wrap(y)
  {
    var q := (x - y) / MODULUS;
    assert x - MIN == (y - MIN) + q * MODULUS;
    ModShift(y - MIN, q);
  }

  /** Adding a multiple of 2^32 does not change the truncation. */
  lemma WrapShift(x: int, q: int)
    ensures Wrap(x + q * MODULUS) == Wrap(x)
  {
    assert x + q * MODULUS - MIN == (x - MIN) + q * MODULUS;
    ModShift(x - MIN, q);
  }

  /** Truncating a factor before multiplying does not change the truncated product. */
  lemma WrapMul(x: int, k: int)
    ensures Wrap(Wrap(x) * k) == Wrap(x * k)
  {
    var q := (x - MIN) / MODULUS;
    assert Wrap(x) == x - q * MODULUS;
    assert Wrap(x) * k == x * k + (-(q * k)) * MODULUS;
    WrapShift(x * k, -(q * k));
  }

  /** Truncating the operands before adding does not change the truncated sum. */
  lemma WrapAdd(x: int, y: int)
    ensures Wrap(Wrap(x) + Wrap(y)) == Wrap(x + y)
  {
    var q := (x - MIN) / MODULUS;
    var t := (y - MIN) / MODULUS;
    assert Wrap(x) + Wrap(y) == x + y + (-(q + t)) * MODULUS;
    WrapShift(x + y, -(q + t));
  }

  lemma ModShift(a: int, q: int)
    ensures (a + q * MODULUS) % MODULUS == a % MODULUS
  {
    var r := a % MODULUS;
    var d := a / MODULUS;
    assert a + q * MODULUS == (d + q) * MODULUS + r;
  }

  /** Kotlin `a + b` on `Int`. */
  function Add(a: Int32, b: Int32): (r: Int32)
    ensures (a + b - r) % MODULUS == 0
    ensures MIN <= a + b <= MAX ==> r == a + b
  {
    Wrap(a + b)
  }

  /** Kotlin `a * b` on `Int`. */
  function Mul(a: Int32, b: Int32): (r: Int32)
    ensures (a * b - r) % MODULUS == 0
    ensures MIN <= a * b <= MAX ==> r == a * b
  {
    Wrap(a * b)
  }

  /** Kotlin unary `-a` on `Int`; `-Int.MIN_VALUE` is `Int.MIN_VALUE`. */
  function Neg(a: Int32): (r: Int32)
    ensures a != MIN ==> r == -a
    ensures a == MIN ==> r == MIN
  {
    Wrap(-(a as int))
  }

  lemma {:induction false} AddCommutative(a: Int32, b: Int32)
    ensures Add(a, b) == Add(b, a)
  {
  }

  /** `Int` addition is associative even when it overflows. */
  lemma {:induction false} AddAssociative(a: Int32, b: Int32, c: Int32)
    ensures Add(Add(a, b), c) == Add(a, Add(b, c))
  {
    var k1 := (a + b - MIN) / MODULUS;
    var k2 := (b + c - MIN) / MODULUS;
    assert Add(a, b) == a + b - k1 * MODULUS;
    assert Add(b, c) == b + c - k2 * MODULUS;
    WrapShift(a + b + c, -k1);
    WrapShift(a + b + c, -k2);
  }

  /** Negating an `Int` twice gives it back, `Int.MIN_VALUE` included. */
  lemma NegInvolutive(a: Int32)
    ensures Neg(Neg(a)) == a
  {
  }
}
