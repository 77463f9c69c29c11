/**
 * The pure helpers of the scanner (utils.py): the 32-bit bounds, two guards
 * that decide whether a multiply or an add would leave the target range
 * without performing it, and the value of a digit character.
 */
module Utils {

  /** Upper bound of the unsigned tracks. It is 2^32, not 2^32 - 1. */
  const UNSIGNED_MAX_INT: int := 4294967296
  const MAX_INT: int := 2147483647
  const MIN_INT: int := -2147483648

  function Abs(x: int): nat
  {
    if x < 0 then -x else x
  }

  /** Python 2 `/` on integers: division rounding toward negative infinity. */
  function FloorDiv(a: int, b: int): int
    requires b != 0
  {
    if b > 0 then a / b else (-a) / (-b)
  }

  /** mult_will_overflow: would `a * b` leave the signed (or unsigned) range? */
  function MultWillOverflow(a: int, b: int, signed: bool): (r: bool)
    ensures b == 0 ==> !r
  {
    if signed then
      if a > 0 && b > 0 then b != 0 && a > FloorDiv(MAX_INT, b)
      else b != 0 && Abs(a) > FloorDiv(Abs(MIN_INT), Abs(b))
    else b != 0 && a > FloorDiv(UNSIGNED_MAX_INT, b)
  }

  /** add_will_overflow: would `a + b` leave the signed (or unsigned) range? */
  function AddWillOverflow(a: int, b: int, signed: bool): (r: bool)
    ensures b == 0 ==> !r
    ensures !signed ==> (r <==> b != 0 && a + b > UNSIGNED_MAX_INT)
  {
    if signed then
      if a > 0 && b > 0 then b != 0 && a > MAX_INT - b
      else b != 0 && Abs(a) > Abs(MIN_INT) - Abs(b)
    else b != 0 && a > UNSIGNED_MAX_INT - b
  }

  const LOWER_DIGIT: set<char> := {'0', '1', '2', '3', '4', '5', '6', '7'}
  const UPPER_DIGIT: set<char> := {'8', '9'}
  const ACF: set<char> := {'a', 'c', 'd', 'e', 'f'}
  /** Every character `get_char_value` is ever given: LOWER_DIGIT + UPPER_DIGIT + ACF + {'b'}, written out. */
  const HEX_DIGITS: set<char> := {'0', '1', '2', '3', '4', '5', '6', '7', '8', '9', 'a', 'b', 'c', 'd', 'e', 'f'}

  /** get_char_value: the digit value of '0'..'9' and 'a'..'f'. */
  function GetCharValue(c: char): (v: nat)
    requires c in HEX_DIGITS
    ensures v <= 15
    ensures v <= 7 <==> c in LOWER_DIGIT
    ensures '0' <= c <= '9' ==> v == c as int - '0' as int
    ensures 'a' <= c <= 'f' ==> v == c as int - 'a' as int + 10
  {
    if c == 'a' then 10
    else if c == 'b' then 11
    else if c == 'c' then 12
    else if c == 'd' then 13
    else if c == 'e' then 14
    else if c == 'f' then 15
    else c as int - '0' as int
  }

  lemma MulLeft(x: int, y: int, b: int)
    requires x <= y && b >= 0
    ensures x * b <= y * b
  {
    assert y * b - x * b == (y - x) * b;
  }

  /** For a positive divisor, `a > n / b` is the same test as `a * b > n`. */
  lemma DivGuard(a: int, n: int, b: int)
    requires b > 0
    ensures a > FloorDiv(n, b) <==> a * b > n
  {
    var q, r := n / b, n % b;
    assert n == q * b + r && 0 <= r < b;
    if a > q {
      MulLeft(q + 1, a, b);
      assert (q + 1) * b == q * b + b;
    } else {
      MulLeft(a, q, b);
    }
  }

  /**
   * The signed multiply guard: with both operands positive it compares the
   * product with 2^31 - 1; otherwise it compares the product of the
   * magnitudes with 2^31 (the magnitude of MIN_INT).
   */
  lemma MultGuardSigned(a: int, b: int)
    requires b != 0
    ensures MultWillOverflow(a, b, true) <==>
      if a > 0 && b > 0 then a * b > MAX_INT else Abs(a) * Abs(b) > -MIN_INT
  {
    if a > 0 && b > 0 {
      DivGuard(a, MAX_INT, b);
    } else {
      DivGuard(Abs(a), Abs(MIN_INT), Abs(b));
    }
  }

  /** The unsigned multiply guard is exact for a positive multiplier. */
  lemma MultGuardUnsigned(a: int, b: int)
    requires b > 0
    ensures MultWillOverflow(a, b, false) <==> a * b > UNSIGNED_MAX_INT
  {
    DivGuard(a, UNSIGNED_MAX_INT, b);
  }

  /** With a positive multiplier the signed guard fires exactly when the product leaves [MIN_INT, MAX_INT]. */
  lemma MultGuardInRange(a: int, b: int)
    requires b > 0
    ensures MultWillOverflow(a, b, true) <==> !(MIN_INT <= a * b <= MAX_INT)
  {
    MultGuardSigned(a, b);
    if a > 0 {
      MulLeft(0, a, b);
    } else {
      MulLeft(a, 0, b);
      assert Abs(a) * Abs(b) == -(a * b);
    }
  }

  /**
   * The signed add guard as written: with both operands positive it
   * compares the sum with 2^31 - 1; otherwise, for a non-zero `b`, it
   * compares the sum of the magnitudes with 2^31.
   */
  lemma AddGuardSigned(a: int, b: int)
    ensures AddWillOverflow(a, b, true) <==>
      b != 0 && if a > 0 && b > 0 then a + b > MAX_INT else Abs(a) + Abs(b) > -MIN_INT
  {
  }

  /**
   * Outside the operand signs the scanner uses, the signed multiply guard
   * can miss an overflow: -2 * -2^30 is 2^31, above MAX_INT, yet the guard
   * compares 2 with 2^31 / 2^30 and reports none.
   */
  lemma MultGuardMissesOverflow()
    ensures !MultWillOverflow(-2, -1073741824, true)
    ensures (-2) * (-1073741824) > MAX_INT
  {
  }

  /**
   * Outside those signs the signed add guard can also report an overflow
   * the sum does not have: 2^31 - 1 plus -2 is in range.
   */
  lemma AddGuardFalseAlarm()
    ensures AddWillOverflow(MAX_INT, -2, true)
    ensures MIN_INT <= MAX_INT + (-2) <= MAX_INT
  {
  }

  /**
   * The signed add guard, for a digit value `b` added with the sign of a
   * total `a` that already carries that sign, fires exactly when
   * `a + sign * b` leaves [MIN_INT, MAX_INT].
   */
  lemma AddGuardInRange(a: int, b: int, sign: int)
    requires MIN_INT <= a <= MAX_INT
    requires sign == 1 || sign == -1
    requires sign * a >= 0
    requires 0 <= b <= MAX_INT
    ensures AddWillOverflow(a, b, true) <==> !(MIN_INT <= a + sign * b <= MAX_INT)
  {
  }
}
