/**
 * Java's 64-bit `long`, as far as the lock uses it: the range of the type, the
 * wrap-around of `+`, `String.valueOf(long)` (decimal rendering) and
 * `Long.parseLong(String)` (decimal parsing, `None` standing for the
 * `NumberFormatException` it throws).
 */
module JavaLong {
  import opened Wrappers

  const LongMin: int := -0x8000_0000_0000_0000
  const LongMax: int := 0x7FFF_FFFF_FFFF_FFFF
  const TwoTo64: int := 0x1_0000_0000_0000_0000

  type Long = x: int | LongMin <= x <= LongMax

  /** The value of a `long` addition whose mathematical result is `x` (two's-complement wrap-around). */
  function Wrap(x: int): (r: Long)
    ensures LongMin <= x <= LongMax ==> r == x
    ensures x > LongMax && x - TwoTo64 <= LongMax ==> r == x - TwoTo64
  {
    (x - LongMin) % TwoTo64 + LongMin
  }

  predicate IsDigit(c: char) {
    '0' <= c <= '9'
  }

  function DigitChar(d: int): (c: char)
    requires 0 <= d < 10
    ensures IsDigit(c) && c as int - '0' as int == d
  {
    ('0' as int + d) as char
  }

  /** The number a string of decimal digits denotes, most significant digit first; `None` if a character is not a digit. */
  function DigitsValue(s: string): (r: Option<nat>)
    ensures r.Some? <==> forall i :: 0 <= i < |s| ==> IsDigit(s[i])
  {
    if |s| == 0 then Some(0)
    else
      match DigitsValue(s[..|s| - 1])
      case None => None
      case Some(v) =>
        if IsDigit(s[|s| - 1]) then Some(v * 10 + (s[|s| - 1] as int - '0' as int)) else None
  }

  /** The shortest decimal rendering of a natural number: no sign, no leading zero. */
  function ShowNat(n: nat): (s: string)
    ensures 1 <= |s| && IsDigit(s[0])
    ensures |s| > 1 ==> s[0] != '0'
    decreases n
  {
    if n < 10 then [DigitChar(n)] else ShowNat(n / 10) + [DigitChar(n % 10)]
  }

  /** `String.valueOf(long)`: a leading '-' for negative values, then the digits of the magnitude. */
  function Show(n: Long): (s: string)
    ensures 1 <= |s|
    ensures s[0] == '-' <==> n < 0
  {
    if n < 0 then "-" + ShowNat(-(n as int)) else ShowNat(n)
  }

  /**
   * `Long.parseLong(String)`: an optional '+' or '-', then one or more decimal
   * digits (leading zeros allowed), denoting a value inside the `long` range.
   * Anything else is a `NumberFormatException`, here `None`.
   */
  function Parse(s: string): (r: Option<Long>)
    ensures r.Some? ==> 1 <= |s| && (IsDigit(s[0]) || (2 <= |s| && (s[0] == '-' || s[0] == '+')))
    ensures r.Some? ==> forall i :: 1 <= i < |s| ==> IsDigit(s[i])
    ensures r.Some? && r.value < 0 ==> s[0] == '-'
    ensures r.Some? && s[0] == '-' ==> r.value <= 0
  {
    if |s| == 0 then None
    else if s[0] == '-' || s[0] == '+' then
      var digits := s[1..];
      if |digits| == 0 then None
      else
        match DigitsValue(digits)
        case None => None
        case Some(magnitude) =>
          var v: int := if s[0] == '-' then -(magnitude as int) else magnitude;
          if LongMin <= v <= LongMax then Some(v) else None
    else
      match DigitsValue(s)
      case None => None
      case Some(v) => if v <= LongMax then Some(v) else None
  }

  /** Reading back the digits `ShowNat` wrote gives the number. */
  lemma {:induction false} DigitsValueShowNat(n: nat)
    ensures DigitsValue(ShowNat(n)) == Some(n)
    decreases n
  {
    if n >= 10 {
      var s := ShowNat(n);
      assert s[..|s| - 1] == ShowNat(n / 10);
      DigitsValueShowNat(n / 10);
    }
  }

  /** `Long.parseLong(String.valueOf(n)) == n` for every `long` n. */
  lemma ParseShow(n: Long)
    ensures Parse(Show(n)) == Some(n)
  {
    DigitsValueShowNat(if n < 0 then -(n as int) else n);
    if n < 0 {
      assert Show(n)[1..] == ShowNat(-(n as int));
    } else {
      assert IsDigit(Show(n)[0]);
    }
  }

  /** Distinct `long` values render as distinct strings. */
  lemma ShowInjective(a: Long, b: Long)
    ensures Show(a) == Show(b) <==> a == b
  {
    ParseShow(a);
    ParseShow(b);
  }
}
