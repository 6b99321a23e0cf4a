/**
 * The few pieces of java.lang the formatter relies on: the width of `long`,
 * the decimal rendering of integral values (`String.valueOf`), `String.trim`
 * and `String.contains`.
 */
module JavaText {
  import opened Wrappers

  const LONG_MIN: int := -0x8000_0000_0000_0000
  const LONG_MAX: int := 0x7FFF_FFFF_FFFF_FFFF

  predicate IsLong(n: int) {
    LONG_MIN <= n <= LONG_MAX
  }

  /** `n++` on a Java `long`: two's-complement wrap-around at the top. */
  function LongIncrement(n: int): (r: int)
    requires IsLong(n)
    ensures IsLong(r)
    ensures n < LONG_MAX ==> r == n + 1
    ensures n == LONG_MAX ==> r == LONG_MIN
  {
    if n == LONG_MAX then LONG_MIN else n + 1
  }

  // ---------------------------------------------------------------------
  // Decimal rendering (Long.toString / Integer.toString) and its inverse
  // ---------------------------------------------------------------------

  predicate IsDigit(c: char) {
    '0' <= c <= '9'
  }

  function DigitChar(d: int): (c: char)
    requires 0 <= d < 10
    ensures IsDigit(c)
  {
    (d + '0' as int) as char
  }

  function DigitValue(c: char): (d: int)
    requires IsDigit(c)
    ensures 0 <= d < 10
  {
    c as int - '0' as int
  }

  /** Digits of a natural number, most significant first, no leading zero. */
  function NatDigits(n: nat): string
    decreases n
  {
    if n < 10 then [DigitChar(n)] else NatDigits(n / 10) + [DigitChar(n % 10)]
  }

  /** `String.valueOf(n)` for an integral `n`: a minus sign for negatives, then the digits. */
  function Decimal(n: int): string {
    if n < 0 then "-" + NatDigits(-n) else NatDigits(n)
  }

  /** A non-empty digit string without a superfluous leading zero. */
  predicate IsCanonicalDigits(s: string) {
    && |s| > 0
    && (forall i | 0 <= i < |s| :: IsDigit(s[i]))
    && (s[0] == '0' ==> |s| == 1)
  }

  function DigitsValue(s: string): nat
    requires forall i | 0 <= i < |s| :: IsDigit(s[i])
    decreases |s|
  {
    if s == [] then 0 else DigitsValue(s[..|s| - 1]) * 10 + DigitValue(s[|s| - 1])
  }

  /** Reads back a canonical decimal (`Long.parseLong` restricted to canonical text). */
  function ParseDecimal(s: string): Option<int> {
    if |s| > 0 && s[0] == '-' then
      if IsCanonicalDigits(s[1..]) && s[1..] != "0" then Some(0 - DigitsValue(s[1..])) else None
    else if IsCanonicalDigits(s) then Some(DigitsValue(s))
    else None
  }

  lemma {:induction false} NatDigitsCanonical(n: nat)
    ensures IsCanonicalDigits(NatDigits(n))
    ensures DigitsValue(NatDigits(n)) == n
    ensures NatDigits(n) == "0" <==> n == 0
    decreases n
  {
    if n >= 10 {
      NatDigitsCanonical(n / 10);
      var s := NatDigits(n);
      assert s[..|s| - 1] == NatDigits(n / 10);
      assert s[0] == NatDigits(n / 10)[0];
    }
  }

  /** Reading the rendering back yields the number: the decimal is faithful. */
  lemma DecimalRoundTrip(n: int)
    ensures ParseDecimal(Decimal(n)) == Some(n)
  {
    var s := Decimal(n);
    if n < 0 {
      var digits := NatDigits(-n);
      NatDigitsCanonical(-n);
      assert s == "-" + digits;
      assert s[1..] == digits;
      assert ParseDecimal(s) == Some(0 - DigitsValue(digits));
    } else {
      NatDigitsCanonical(n);
      assert s == NatDigits(n);
      assert IsDigit(s[0]);
      assert ParseDecimal(s) == Some(DigitsValue(s));
    }
  }

  /** Distinct numbers render differently. */
  lemma DecimalInjective(a: int, b: int)
    requires Decimal(a) == Decimal(b)
    ensures a == b
  {
    DecimalRoundTrip(a);
    DecimalRoundTrip(b);
  }

  // ---------------------------------------------------------------------
  // String.trim and String.contains
  // ---------------------------------------------------------------------

  /** Java's whitespace for `trim`: every character up to U+0020. */
  predicate IsTrimmable(c: char) {
    c <= ' '
  }

  predicate IsBlank(s: string) {
    forall i | 0 <= i < |s| :: IsTrimmable(s[i])
  }

  function TrimStart(s: string): string
    decreases |s|
  {
    if |s| > 0 && IsTrimmable(s[0]) then TrimStart(s[1..]) else s
  }

  function TrimEnd(s: string): string
    decreases |s|
  {
    if |s| > 0 && IsTrimmable(s[|s| - 1]) then TrimEnd(s[..|s| - 1]) else s
  }

  /** `String.trim`: drops leading and trailing characters up to U+0020. */
  function Trim(s: string): string {
    TrimEnd(TrimStart(s))
  }

  lemma {:induction false} TrimStartBlank(s: string)
    ensures TrimStart(s) == "" <==> IsBlank(s)
    ensures TrimStart(s) != "" ==> !IsTrimmable(TrimStart(s)[0])
    decreases |s|
  {
    if |s| > 0 && IsTrimmable(s[0]) {
      TrimStartBlank(s[1..]);
      assert IsBlank(s) <==> IsBlank(s[1..]) by {
        if IsBlank(s[1..]) {
          forall i | 0 <= i < |s| ensures IsTrimmable(s[i]) {
            if i > 0 { assert s[i] == s[1..][i - 1]; }
          }
        }
        if IsBlank(s) {
          forall i | 0 <= i < |s| - 1 ensures IsTrimmable(s[1..][i]) {
            assert s[1..][i] == s[i + 1];
          }
        }
      }
    } else if |s| > 0 {
      assert !IsTrimmable(s[0]);
    }
  }

  lemma {:induction false} TrimEndKeepsHead(s: string)
    requires |s| > 0 && !IsTrimmable(s[0])
    ensures TrimEnd(s) != ""
    decreases |s|
  {
    if IsTrimmable(s[|s| - 1]) {
      assert |s| > 1;
      TrimEndKeepsHead(s[..|s| - 1]);
    }
  }

  /** `s.trim().equals("")` holds exactly when every character of `s` is at most U+0020. */
  lemma TrimEmptyIffBlank(s: string)
    ensures Trim(s) == "" <==> IsBlank(s)
  {
    TrimStartBlank(s);
    if TrimStart(s) != "" {
      TrimEndKeepsHead(TrimStart(s));
    }
  }

  /** `sub` occurs in `s` starting at index `i`. */
  predicate OccursAt(s: string, sub: string, i: int) {
    0 <= i && i + |sub| <= |s| && s[i..i + |sub|] == sub
  }

  /** `s.contains(sub)`. */
  predicate Contains(s: string, sub: string) {
    exists i | 0 <= i <= |s| - |sub| :: OccursAt(s, sub, i)
  }
}
