/**
 * Kotlin's `String.toInt()` on the JVM, which the interceptor applies to
 * the `role` request parameter: an optional leading `+` or `-`, then one or
 * more decimal digits, and a value that fits a 32-bit signed `Int`.
 * Anything else raises a NumberFormatException, modelled here as `None`.
 * Only ASCII digits are modelled.
 */
module IntParse {
  import opened Wrappers

  const IntMin: int := -0x8000_0000
  const IntMax: int := 0x7FFF_FFFF

  predicate IsDigit(c: char) {
    '0' <= c <= '9'
  }

  predicate AllDigits(s: string) {
    forall i | 0 <= i < |s| :: IsDigit(s[i])
  }

  /** The value of a run of decimal digits, most significant first (0 for the empty run). */
  function DigitsValue(s: string): nat
    requires AllDigits(s)
    decreases |s|
  {
    if s == [] then 0
    else DigitsValue(s[..|s| - 1]) * 10 + (s[|s| - 1] as int - '0' as int)
  }

  /** `s.toInt()`: `Some(n)` when it returns `n`, `None` when it throws. */
  function ParseInt(s: string): (r: Option<int>)
    ensures r.Some? ==> IntMin <= r.value <= IntMax
    ensures r.Some? ==> |s| > 0 && (IsDigit(s[0]) || s[0] == '+' || s[0] == '-')
  {
    if |s| == 0 then None
    else
      var signed := s[0] == '+' || s[0] == '-';
      var digits := if signed then s[1..] else s;
      if digits == [] || !AllDigits(digits) then None
      else
        var magnitude: int := DigitsValue(digits);
        var n := if s[0] == '-' then -magnitude else magnitude;
        if IntMin <= n <= IntMax then Some(n) else None
  }

  function DigitChar(d: nat): (c: char)
    requires d < 10
    ensures IsDigit(c) && c as int - '0' as int == d
  {
    ('0' as int + d) as char
  }

  /** The shortest decimal spelling of `n`, without sign or leading zeros. */
  function ShowNat(n: nat): (s: string)
    ensures |s| > 0 && AllDigits(s)
    ensures DigitsValue(s) == n
    decreases n
  {
    if n < 10 then [DigitChar(n)]
    else
      var prefix := ShowNat(n / 10);
      var s := prefix + [DigitChar(n % 10)];
      assert s[..|s| - 1] == prefix;
      s
  }

  /** The decimal spelling of `n` as Kotlin's `Int.toString()` writes it. */
  function Show(n: int): (s: string)
    ensures |s| > 0
    ensures IsDigit(s[0]) <==> n >= 0
  {
    if n < 0 then "-" + ShowNat(-n) else ShowNat(n)
  }

  /** Every 32-bit integer survives printing and parsing back. */
  lemma ParseShow(n: int)
    requires IntMin <= n <= IntMax
    ensures ParseInt(Show(n)) == Some(n)
  {
  }

  /** Parsing a canonical decimal spelling gives back a value outside
      the 32-bit range as a failure, never as a wrapped-around number. */
  lemma ParseRejectsOverflow(n: int)
    requires n < IntMin || IntMax < n
    ensures ParseInt(Show(n)) == None
  {
  }

  /** A string holding a character that is neither a digit nor a leading
      sign never parses. */
  lemma ParseRejectsNonDigit(s: string, k: nat)
    requires k < |s| && !IsDigit(s[k])
    requires k > 0 || (s[0] != '+' && s[0] != '-')
    ensures ParseInt(s) == None
  {
  }

  /** The missing-digits cases: the empty string and a lone sign. */
  lemma ParseRejectsNoDigits()
    ensures ParseInt("") == None
    ensures ParseInt("+") == None
    ensures ParseInt("-") == None
  {
  }
}
