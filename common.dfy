/** Shared vocabulary of the inference service: optional and fallible values,
    Python's decimal rendering of integers (`str(i)`), the class-label keys
    "0".."9", and Python's `round(x, n)`. */
module Common {

  datatype Option<+T> = None | Some(value: T)

  datatype Result<+T, +E> = Ok(value: T) | Err(error: E)

  /** Number of digit classes the classifier distinguishes. */
  const NumClasses: nat := 10

  /** Side of the square MNIST image and its pixel count. */
  const Side: nat := 28
  const PixelCount: nat := 784

  // ---------------------------------------------------------------------------
  // Decimal rendering of natural numbers, as Python's str(i) and f"{i}"
  // ---------------------------------------------------------------------------

  function DigitChar(d: nat): (c: char)
    requires d < 10
    ensures '0' <= c <= '9'
    ensures c as int - '0' as int == d
  {
    ('0' as int + d) as char
  }

  predicate IsDigit(c: char) { '0' <= c <= '9' }

  /** The decimal digits of `n`, most significant first, without leading zeros. */
  function NatToString(n: nat): (s: string)
    ensures |s| >= 1
    ensures forall i :: 0 <= i < |s| ==> IsDigit(s[i])
    ensures n < 10 <==> |s| == 1
    ensures |s| > 1 ==> s[0] != '0'
    decreases n
  {
    if n < 10 then [DigitChar(n)] else NatToString(n / 10) + [DigitChar(n % 10)]
  }

  /** The value of a string of decimal digits (the inverse of NatToString). */
  function DigitsValue(s: string): nat
    requires forall i :: 0 <= i < |s| ==> IsDigit(s[i])
  {
    if s == [] then 0
    else
      assert IsDigit(s[|s| - 1]);
      10 * DigitsValue(s[..|s| - 1]) + (s[|s| - 1] as int - '0' as int)
  }

  /** Reading back what NatToString wrote gives the number again. */
  lemma {:induction false} DigitsValueOfNatToString(n: nat)
    ensures DigitsValue(NatToString(n)) == n
    decreases n
  {
    var s := NatToString(n);
    if n >= 10 {
      DigitsValueOfNatToString(n / 10);
      assert s[..|s| - 1] == NatToString(n / 10);
    }
  }

  /** Distinct numbers are rendered as distinct strings. */
  lemma NatToStringInjective(m: nat, n: nat)
    requires NatToString(m) == NatToString(n)
    ensures m == n
  {
    DigitsValueOfNatToString(m);
    DigitsValueOfNatToString(n);
  }

  // ---------------------------------------------------------------------------
  // Class labels "0".."9"
  // ---------------------------------------------------------------------------

  /** The dictionary key of class `i`, `str(i)`. */
  function ClassKey(i: nat): (k: string)
    requires i < NumClasses
    ensures |k| == 1 && IsDigit(k[0])
  {
    [DigitChar(i)]
  }

  /** The key of a class is its decimal rendering. */
  lemma ClassKeyIsDecimal(i: nat)
    requires i < NumClasses
    ensures ClassKey(i) == NatToString(i)
  {
  }

  /** The ten keys "0".."9". */
  function ClassKeys(): set<string>
  {
    set i | 0 <= i < NumClasses :: ClassKey(i)
  }

  lemma ClassKeyInjective(i: nat, j: nat)
    requires i < NumClasses && j < NumClasses
    requires ClassKey(i) == ClassKey(j)
    ensures i == j
  {
    assert DigitChar(i) == ClassKey(i)[0] == ClassKey(j)[0] == DigitChar(j);
  }

  // ---------------------------------------------------------------------------
  // Python's round(x, places), on exact reals
  // ---------------------------------------------------------------------------

  function Pow10(n: nat): (p: nat)
    ensures p >= 1
  {
    if n == 0 then 1 else 10 * Pow10(n - 1)
  }

  /** The integer nearest to `s`, a tie going to the even neighbour. */
  function RoundHalfEven(s: real): (n: int)
    ensures s - 0.5 <= n as real <= s + 0.5
    ensures s - s.Floor as real == 0.5 ==> n % 2 == 0
  {
    var f := s.Floor;
    var frac := s - f as real;
    if frac < 0.5 then f
    else if frac > 0.5 then f + 1
    else if f % 2 == 0 then f else f + 1
  }

  /** `round(x, places)`: `x` rounded to `places` decimals, ties to even. */
  function Round(x: real, places: nat): (r: real)
    ensures HasScale(r, Pow10(places))
  {
    RoundToScale(x, Pow10(places))
  }

  /** `x` rounded to the nearest multiple of `1 / scale`, ties to even. */
  function RoundToScale(x: real, scale: nat): (r: real)
    requires scale >= 1
    ensures HasScale(r, scale)
  {
    var n := RoundHalfEven(x * scale as real);
    var r := Unscale(n, scale);
    var m := r * scale as real;
    assert m == n as real;
    assert m.Floor == n;
    assert HasScale(r, scale);
    r
  }

  /** The value `n / scale`. */
  function Unscale(n: int, scale: nat): (r: real)
    requires scale >= 1
    ensures r * scale as real == n as real
    ensures 0 <= n ==> 0.0 <= r
    ensures 0 <= n <= scale ==> r <= 1.0
  {
    n as real / scale as real
  }

  /** `r` is a whole multiple of `1 / scale`: it has no digits past that place. */
  predicate HasScale(r: real, scale: nat)
  {
    (r * scale as real).Floor as real == r * scale as real
  }

  /** `r` is within half a unit of the last place of `x` at `1 / scale`. */
  predicate WithinHalfUnit(x: real, r: real, scale: nat)
  {
    x * scale as real - 0.5 <= r * scale as real <= x * scale as real + 0.5
  }

  /** A rounded value lies within half a unit of the last decimal place of the value. */
  lemma RoundError(x: real, places: nat)
    ensures WithinHalfUnit(x, Round(x, places), Pow10(places))
  {
    RoundToScaleError(x, Pow10(places));
  }

  lemma RoundToScaleError(x: real, scale: nat)
    requires scale >= 1
    ensures WithinHalfUnit(x, RoundToScale(x, scale), scale)
  {
  }

  lemma ScaleWithinBound(x: real, scale: real)
    requires 0.0 <= x <= 1.0 && 1.0 <= scale
    ensures 0.0 <= x * scale <= scale
  {
    assert x * scale <= 1.0 * scale;
  }

  /** The nearest integer to a value of [0, k] lies in [0, k]. */
  lemma RoundHalfEvenWithin(s: real, k: nat)
    requires 0.0 <= s <= k as real
    ensures 0 <= RoundHalfEven(s) <= k
  {
    var f := s.Floor;
    if f == k {
      assert s - f as real == 0.0;
    }
  }

  /** Rounding keeps a value of the unit interval inside it. */
  lemma RoundUnitInterval(x: real, places: nat)
    requires 0.0 <= x <= 1.0
    ensures 0.0 <= Round(x, places) <= 1.0
  {
    RoundToScaleUnitInterval(x, Pow10(places));
  }

  lemma RoundToScaleUnitInterval(x: real, scale: nat)
    requires 0.0 <= x <= 1.0 && scale >= 1
    ensures 0.0 <= RoundToScale(x, scale) <= 1.0
  {
    ScaleWithinBound(x, scale as real);
    RoundHalfEvenWithin(x * scale as real, scale);
  }

  /** Rounding a non-negative value gives a non-negative value. */
  lemma RoundNonNegative(x: real, places: nat)
    requires 0.0 <= x
    ensures 0.0 <= Round(x, places)
  {
    RoundToScaleNonNegative(x, Pow10(places));
  }

  lemma RoundToScaleNonNegative(x: real, scale: nat)
    requires 0.0 <= x && scale >= 1
    ensures 0.0 <= RoundToScale(x, scale)
  {
    assert 0.0 <= x * scale as real;
  }
}
