/**
  The few pieces of `java.lang` that the help-section code relies on:
  the 32-bit `int` with its two's-complement wrap-around, and the
  exception a list throws for a bad insertion index, modelled as an
  error value that the caller propagates.
 */
module JavaLang {

  const INT_MIN: int := -0x8000_0000
  const INT_MAX: int := 0x7fff_ffff
  const INT_MODULUS: int := 0x1_0000_0000

  /** The values a Java `int` can hold. */
  type int32 = x: int | -0x8000_0000 <= x <= 0x7fff_ffff

  /** The `int` that Java's `+` and `-` yield when the exact result is x:
      x reduced modulo 2^32 into the range of `int`. */
  function Int32(x: int): (r: int32)
    ensures (x - r) % INT_MODULUS == 0
    ensures INT_MIN <= x <= INT_MAX ==> r == x
  {
    (x - INT_MIN) % INT_MODULUS + INT_MIN
  }

  /** The exceptions the modelled code can raise. */
  datatype Exception =
    | IndexOutOfBounds(index: int, size: int)  // java.lang.IndexOutOfBoundsException

  /** A call that either returns a value or throws. */
  datatype Result<T> = Success(value: T) | Failure(error: Exception)

  /** A call returning `void` that either completes or throws. */
  datatype Outcome = Pass | Fail(error: Exception)
}
