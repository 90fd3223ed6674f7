/** Conversion of an ultrasonic echo time into a distance (src/ultrasonic.cpp).
    Only the arithmetic is modelled; triggering the pulse and timing the echo
    are hardware calls and stay outside the model. */
module Ultrasonic {

  /** Integer division as C++ performs it on `long`: the quotient is truncated
      toward zero, so the remainder takes the sign of the dividend. Dafny's own
      `/` is Euclidean and differs for a negative dividend. */
  function CDiv(a: int, b: int): (q: int)
    requires b > 0
    ensures a >= 0 ==> 0 <= q && q * b <= a < q * b + b
    ensures a < 0 ==> q <= 0 && q * b - b < a <= q * b
  {
    if a >= 0 then a / b else -((-a) / b)
  }

  /** Microseconds of echo round-trip to centimetres: sound travels about
      29 microseconds per centimetre, and the echo covers the distance twice. */
  function MicrosecondsToCentimeters(microseconds: int): (cm: int)
    ensures microseconds >= 0 ==> 0 <= cm && 58 * cm <= microseconds < 58 * cm + 58
    ensures microseconds < 0 ==> cm <= 0 && 58 * cm - 58 < microseconds <= 58 * cm
  {
    CDiv(CDiv(microseconds, 29), 2)
  }

  /** The two truncating divisions agree with one division by 58. */
  lemma NestedDivision(microseconds: int)
    ensures microseconds >= 0 ==> MicrosecondsToCentimeters(microseconds) == microseconds / 58
    ensures microseconds < 0 ==> MicrosecondsToCentimeters(microseconds) == -((-microseconds) / 58)
  {
  }

  /** A longer echo never reads as a shorter distance. */
  lemma Monotone(us1: int, us2: int)
    requires us1 <= us2
    ensures MicrosecondsToCentimeters(us1) <= MicrosecondsToCentimeters(us2)
  {
  }

  /** Truncation makes the conversion symmetric around zero. */
  lemma OddSymmetry(microseconds: int)
    ensures MicrosecondsToCentimeters(-microseconds) == -MicrosecondsToCentimeters(microseconds)
  {
  }

  /** Echoes shorter than one 58-microsecond step read as distance 0, and every
      echo up to the 10000-microsecond timeout passed to `pulseIn` reads as a
      distance between 0 and 172 cm. */
  lemma TimeoutRange(microseconds: int)
    ensures 0 <= microseconds <= 57 ==> MicrosecondsToCentimeters(microseconds) == 0
    ensures 0 <= microseconds <= 10000 ==> 0 <= MicrosecondsToCentimeters(microseconds) <= 172
    ensures MicrosecondsToCentimeters(10000) == 172
  {
  }
}
