/**
 * Kotlin's 32-bit `Int`. Arithmetic on it wraps around in two's complement,
 * so the model reduces every sum it cannot prove in range back into the range.
 */
module KotlinInt {

  const MinInt: int := -0x8000_0000
  const MaxInt: int := 0x7FFF_FFFF
  const Modulus: int := 0x1_0000_0000

  newtype int32 = x: int | -0x8000_0000 <= x < 0x8000_0000

  /** The unique `Int` congruent to `x` modulo 2^32. */
  function Wrap(x: int): (r: int32)
    ensures (x - r as int) % Modulus == 0
    ensures MinInt <= x <= MaxInt ==> r as int == x
  {
    ((x - MinInt) % Modulus + MinInt) as int32
  }

  /** Kotlin's `a + b` on `Int`. */
  function Plus(a: int32, b: int32): (r: int32)
    ensures (a as int + b as int - r as int) % Modulus == 0
    ensures MinInt <= a as int + b as int <= MaxInt ==> r as int == a as int + b as int
  {
    Wrap(a as int + b as int)
  }

  /** Kotlin's `a - b` on `Int`. */
  function Minus(a: int32, b: int32): (r: int32)
    ensures (a as int - b as int - r as int) % Modulus == 0
    ensures MinInt <= a as int - b as int <= MaxInt ==> r as int == a as int - b as int
  {
    Wrap(a as int - b as int)
  }

  /** Stepping one down and one up again gives back every `Int`, `Int.MIN_VALUE` included. */
  lemma PlusOneAfterMinusOne(p: int32)
    ensures Plus(Minus(p, 1), 1) == p
  {
  }
}
