/**
 * Kotlin's 32-bit `Int`, its decimal rendering `Int.toString()` and the
 * parse-back `String.toIntOrNull()` (radix 10).
 */
module Numerals {
  import opened Wrappers

  const MinInt: int := -0x8000_0000
  const MaxInt: int := 0x7FFF_FFFF

  /** Values of Kotlin's `Int`. */
  type Int32 = x: int | MinInt <= x <= MaxInt

  predicate IsDigit(c: char) {
    '0' <= c <= '9'
  }

  predicate AllDigits(s: string) {
    forall i :: 0 <= i < |s| ==> IsDigit(s[i])
  }

  function DigitChar(d: nat): (c: char)
    requires d < 10
    ensures IsDigit(c) && c as int - '0' as int == d
  {
    ('0' as int + d) as char
  }

  /** The decimal digits of `n`, most significant first, without leading zeros. */
  function NatDigits(n: nat): (s: string)
    ensures |s| > 0 && AllDigits(s)
    ensures |s| > 1 ==> s[0] != '0'
    decreases n
  {
    if n < 10 then [DigitChar(n)] else NatDigits(n / 10) + [DigitChar(n % 10)]
  }

  /** The number a non-empty run of decimal digits denotes. */
  function ValueOf(s: string): nat
    requires AllDigits(s)
  {
    if s == [] then 0 else 10 * ValueOf(s[..|s| - 1]) + (s[|s| - 1] as int - '0' as int)
  }

  lemma {:induction false} ValueOfNatDigits(n: nat)
    ensures ValueOf(NatDigits(n)) == n
    decreases n
  {
    if n >= 10 {
      var s := NatDigits(n);
      assert s[..|s| - 1] == NatDigits(n / 10);
      ValueOfNatDigits(n / 10);
    }
  }

  /**
   * `Int.toString()`: a minus sign for negative values, then the digits of
   * the magnitude, with no leading zero; the text denotes `n`.
   */
  function Show(n: int): (s: string)
    ensures |s| > 0
    ensures s[0] == '-' <==> n < 0
    ensures forall i :: 0 <= i < |s| ==> IsDigit(s[i]) || (i == 0 && s[i] == '-')
    ensures n >= 0 && |s| > 1 ==> s[0] != '0'
    ensures n < 0 ==> |s| > 1 && s[1] != '0'
    ensures n >= 0 ==> ValueOf(s) == n
    ensures n < 0 ==> ValueOf(s[1..]) == -n
  {
    if n < 0 then
      ValueOfNatDigits(-n);
      assert ("-" + NatDigits(-n))[1..] == NatDigits(-n);
      "-" + NatDigits(-n)
    else
      ValueOfNatDigits(n);
      NatDigits(n)
  }

  /** The shape `toIntOrNull` accepts: an optional sign followed by at least one digit. */
  predicate WellFormed(s: string) {
    || (|s| > 0 && AllDigits(s))
    || (|s| > 1 && (s[0] == '-' || s[0] == '+') && AllDigits(s[1..]))
  }

  /** The number a well-formed text denotes, sign included, before the range check. */
  function SignedValue(s: string): int
    requires WellFormed(s)
  {
    if s[0] == '-' then -(ValueOf(s[1..]) as int)
    else if s[0] == '+' then ValueOf(s[1..])
    else ValueOf(s)
  }

  function InRange(v: int): (r: Option<Int32>)
    ensures r.Some? <==> MinInt <= v <= MaxInt
    ensures r.Some? ==> r.value == v
  {
    if MinInt <= v <= MaxInt then Some(v) else None
  }

  /**
   * `String.toIntOrNull()`: `null` for the empty string, a lone sign, any
   * non-digit after the optional sign, or a value outside `Int`.
   */
  function ParseInt(s: string): (r: Option<Int32>)
    ensures !WellFormed(s) ==> r == None
    ensures WellFormed(s) ==> r == InRange(SignedValue(s))
  {
    if |s| == 0 then None
    else if s[0] == '-' || s[0] == '+' then
      if |s| == 1 || !AllDigits(s[1..]) then None
      else InRange(if s[0] == '-' then -(ValueOf(s[1..]) as int) else ValueOf(s[1..]))
    else if AllDigits(s) then InRange(ValueOf(s))
    else None
  }

  /** Parsing the rendering of an `Int` gives the `Int` back. */
  lemma ParseShow(n: Int32)
    ensures ParseInt(Show(n)) == Some(n)
  {
  }

  /** Distinct integers have distinct renderings. */
  lemma ShowInjective(a: int, b: int)
    requires Show(a) == Show(b)
    ensures a == b
  {
  }
}
