/** The java.lang string operations the extractor relies on, over ASCII digits and letters. */
module Text {
  import opened Wrappers
  import opened Numbers

  predicate IsDigit(c: char)
  {
    '0' <= c <= '9'
  }

  predicate AllDigits(s: string)
  {
    forall i :: 0 <= i < |s| ==> IsDigit(s[i])
  }

  /** The value of a string of decimal digits, most significant first. */
  function DigitsValue(s: string): nat
    requires AllDigits(s)
  {
    if s == [] then 0 else DigitsValue(s[..|s| - 1]) * 10 + (s[|s| - 1] - '0') as int
  }

  /** Writing b after a multiplies the value of a by 10^|b| and adds the value of b. */
  lemma {:induction false} DigitsValueAppend(a: string, b: string)
    requires AllDigits(a) && AllDigits(b)
    ensures AllDigits(a + b)
    ensures DigitsValue(a + b) == DigitsValue(a) * Pow10(|b|) + DigitsValue(b)
  {
    assert AllDigits(a + b) by {
      forall i | 0 <= i < |a + b| ensures IsDigit((a + b)[i]) {
        if i < |a| { assert (a + b)[i] == a[i]; } else { assert (a + b)[i] == b[i - |a|]; }
      }
    }
    if b == [] {
      assert a + b == a;
    } else {
      var b' := b[..|b| - 1];
      var last := (b[|b| - 1] - '0') as int;
      assert AllDigits(b');
      assert (a + b)[..|a + b| - 1] == a + b';
      assert b[..|b| - 1] == b';
      DigitsValueAppend(a, b');
      ShiftStep(DigitsValue(a), Pow10(|b'|), DigitsValue(b'), last);
    }
  }

  lemma ShiftStep(x: int, p: int, y: int, d: int)
    ensures (x * p + y) * 10 + d == x * (p * 10) + (y * 10 + d)
  {
  }

  function DigitChar(d: nat): (c: char)
    requires d < 10
    ensures IsDigit(c) && (c - '0') as int == d
  {
    "0123456789"[d]
  }

  /** Decimal notation of a natural number without leading zeros. */
  function NatToString(n: nat): (s: string)
    ensures |s| > 0 && AllDigits(s)
    ensures DigitsValue(s) == n
  {
    if n < 10 then [DigitChar(n)]
    else
      var s := NatToString(n / 10) + [DigitChar(n % 10)];
      assert s[..|s| - 1] == NatToString(n / 10);
      s
  }

  /** `Integer.toString`. */
  function IntToString(n: int): string
  {
    if n < 0 then "-" + NatToString(-n) else NatToString(n)
  }

  const IntMin: int := -0x8000_0000
  const IntMax: int := 0x7FFF_FFFF

  /**
   * `Integer.parseInt`: an optional sign and at least one digit whose value fits
   * in 32 bits; anything else (including a missing value) throws.
   */
  function ParseInt(s: string): (r: Option<int>)
    ensures r.Some? ==> IntMin <= r.value <= IntMax
    ensures AllDigits(s) && 0 < |s| && DigitsValue(s) <= IntMax ==> r == Some(DigitsValue(s))
  {
    var neg := 0 < |s| && s[0] == '-';
    var body := if 0 < |s| && (s[0] == '-' || s[0] == '+') then s[1..] else s;
    if body == [] || !AllDigits(body) then None
    else
      var v: int := if neg then -(DigitsValue(body) as int) else DigitsValue(body);
      if IntMin <= v <= IntMax then Some(v) else None
  }

  /** Integer.toString and Integer.parseInt are inverse on the 32-bit range. */
  lemma IntToStringRoundTrip(n: int)
    requires IntMin <= n <= IntMax
    ensures ParseInt(IntToString(n)) == Some(n)
  {
    if n < 0 {
      var s := IntToString(n);
      assert s[1..] == NatToString(-n);
    }
  }

  /** 32-bit two's-complement wrap-around of Java `int` arithmetic. */
  function WrapInt(x: int): (r: int)
    ensures IntMin <= r <= IntMax
    ensures IntMin <= x <= IntMax ==> r == x
    ensures (r - x) % 0x1_0000_0000 == 0
  {
    (x - IntMin) % 0x1_0000_0000 + IntMin
  }

  /** ASCII letter case folding (Character.toLowerCase on A..Z). */
  function LowerAscii(c: char): char
  {
    if 'A' <= c <= 'Z' then (c as int + 32) as char else c
  }

  /**
   * `Boolean.parseBoolean` / `Boolean.valueOf(String)`: true exactly for a
   * non-null value equal to "true" ignoring case.
   */
  function ParseBoolean(s: Option<string>): (b: bool)
    ensures b <==> s.Some? && |s.value| == 4 && forall i :: 0 <= i < 4 ==> LowerAscii(s.value[i]) == "true"[i]
    ensures s == Some("true") || s == Some("TRUE") || s == Some("True") ==> b
    ensures s.None? || s == Some("false") || s == Some("") ==> !b
  {
    s.Some? && |s.value| == 4
    && LowerAscii(s.value[0]) == 't' && LowerAscii(s.value[1]) == 'r'
    && LowerAscii(s.value[2]) == 'u' && LowerAscii(s.value[3]) == 'e'
  }

  /**
   * `s.equalsIgnoreCase("Stück")` as Java decides it character by character:
   * two characters match when equal, when their upper cases are equal, or when
   * the lower cases of their upper cases are equal. Besides the plain upper and
   * lower case letters this admits the long s (U+017F, upper case 'S') and the
   * Kelvin sign (U+212A, lower case 'k').
   */
  predicate IsStueck(s: string)
  {
    |s| == 5
    && s[0] in {'S', 's', 'ſ'}
    && s[1] in {'T', 't'}
    && s[2] in {'Ü', 'ü'}
    && s[3] in {'C', 'c'}
    && s[4] in {'K', 'k', 'K'}
  }
}
