/**
 * The JavaScript string and number built-ins that the modelled code relies on,
 * restricted to integers and to the characters the code actually inspects:
 * integer `toString`, `parseInt`, `String.prototype.replace` with a string
 * pattern, `includes`, `startsWith`, `split(',')[0]` and ASCII `toLowerCase`.
 */
module JsText {
  import opened Wrappers

  // ---------------------------------------------------------------------------
  // Digits and decimal rendering
  // ---------------------------------------------------------------------------

  predicate IsDigit(c: char) { '0' <= c <= '9' }

  predicate AllDigits(s: string) { forall i :: 0 <= i < |s| ==> IsDigit(s[i]) }

  /** Only digits and minus signs, the characters integer `toString` produces. */
  predicate NumberChars(s: string) { forall i :: 0 <= i < |s| ==> IsDigit(s[i]) || s[i] == '-' }

  function DigitChar(d: nat): (c: char)
    requires d < 10
    ensures IsDigit(c)
  {
    (('0' as int) + d) as char
  }

  /** Decimal text of a natural number, as `Number.prototype.toString()` renders it. */
  function NatToString(n: nat): (s: string)
    ensures |s| > 0 && AllDigits(s)
    ensures s[0] == '0' ==> n == 0 && s == "0"
    decreases n
  {
    if n < 10 then [DigitChar(n)] else NatToString(n / 10) + [DigitChar(n % 10)]
  }

  /** Decimal text of an integer: a minus sign before the digits of a negative one. */
  function IntToString(n: int): (s: string)
    ensures |s| > 0
    ensures NumberChars(s)
    ensures IsDigit(s[|s| - 1])
    ensures n >= 0 <==> IsDigit(s[0])
  {
    if n < 0 then "-" + NatToString(-n) else NatToString(n)
  }

  // ---------------------------------------------------------------------------
  // parseInt (radix omitted)
  // ---------------------------------------------------------------------------

  /** The white-space characters `parseInt` skips (the ASCII ones and the common Unicode ones). */
  predicate IsWhiteSpace(c: char)
  {
    c == ' ' || c == '\t' || c == '\n' || c == '\r' || c == '\U{000B}' || c == '\U{000C}'
    || c == '\U{00A0}' || c == '\U{FEFF}' || c == '\U{2028}' || c == '\U{2029}'
  }

  predicate IsHexLetter(c: char) { 'a' <= c <= 'f' || 'A' <= c <= 'F' }

  predicate IsRadixDigit(c: char, hex: bool) { IsDigit(c) || (hex && IsHexLetter(c)) }

  function RadixDigitValue(c: char, hex: bool): (v: nat)
    requires IsRadixDigit(c, hex)
    ensures v < (if hex then 16 else 10)
  {
    if IsDigit(c) then (c as int) - ('0' as int)
    else if 'a' <= c <= 'f' then (c as int) - ('a' as int) + 10
    else (c as int) - ('A' as int) + 10
  }

  /** Length of the longest prefix of `s` made of digits of the radix. */
  function DigitPrefixLength(s: string, hex: bool): (k: nat)
    ensures k <= |s|
    ensures forall i :: 0 <= i < k ==> IsRadixDigit(s[i], hex)
    ensures k < |s| ==> !IsRadixDigit(s[k], hex)
  {
    if |s| > 0 && IsRadixDigit(s[0], hex) then 1 + DigitPrefixLength(s[1..], hex) else 0
  }

  /** Positional value of a string of digits, most significant first. */
  function DigitsValue(s: string, hex: bool): nat
    requires forall i :: 0 <= i < |s| ==> IsRadixDigit(s[i], hex)
  {
    if |s| == 0 then 0
    else DigitsValue(s[..|s| - 1], hex) * (if hex then 16 else 10) + RadixDigitValue(s[|s| - 1], hex)
  }

  /** The unsigned part of `parseInt`: a `0x`/`0X` prefix selects base 16, then the longest run of digits. */
  function ParseMagnitude(u: string): Option<nat>
  {
    var hex := |u| >= 2 && u[0] == '0' && (u[1] == 'x' || u[1] == 'X');
    var v := if hex then u[2..] else u;
    var k := DigitPrefixLength(v, hex);
    if k == 0 then None else Some(DigitsValue(v[..k], hex))
  }

  /**
   * `parseInt(s)` without a radix: skip leading white space, read one optional
   * sign, then the magnitude; `None` is NaN (no digit at all).
   */
  function ParseInt(s: string): Option<int>
  {
    if |s| > 0 && IsWhiteSpace(s[0]) then ParseInt(s[1..])
    else if |s| > 0 && s[0] == '-' then WithSign(ParseMagnitude(s[1..]), true)
    else if |s| > 0 && s[0] == '+' then WithSign(ParseMagnitude(s[1..]), false)
    else WithSign(ParseMagnitude(s), false)
  }

  function WithSign(magnitude: Option<nat>, negative: bool): Option<int>
  {
    match magnitude
    case None => None
    case Some(m) => Some(if negative then 0 - m else m)
  }

  lemma {:induction false} DigitPrefixOfDigits(s: string, rest: string)
    requires AllDigits(s)
    requires |rest| == 0 || !IsDigit(rest[0])
    ensures DigitPrefixLength(s + rest, false) == |s|
    decreases |s|
  {
    if |s| > 0 {
      assert (s + rest)[1..] == s[1..] + rest;
      DigitPrefixOfDigits(s[1..], rest);
    } else {
      assert s + rest == rest;
    }
  }

  lemma {:induction false} NatToStringValue(n: nat)
    ensures DigitsValue(NatToString(n), false) == n
    decreases n
  {
    var s := NatToString(n);
    if n >= 10 {
      var front := NatToString(n / 10);
      assert s[..|s| - 1] == front;
      NatToStringValue(n / 10);
    }
  }

  lemma MagnitudeOfDigits(digits: string, rest: string)
    requires |digits| > 0 && AllDigits(digits)
    requires digits[0] == '0' ==> |digits| == 1
    requires |rest| == 0 || (!IsDigit(rest[0]) && rest[0] != 'x' && rest[0] != 'X')
    ensures ParseMagnitude(digits + rest) == Some(DigitsValue(digits, false))
  {
    var u := digits + rest;
    assert u[0] == '0' && |u| >= 2 ==> u[1] == rest[0];
    DigitPrefixOfDigits(digits, rest);
    assert u[..|digits|] == digits;
  }

  /**
   * Reading the decimal text back when it is followed by anything that starts
   * with neither a digit nor an `x` (which would turn a lone `0` into a `0x` prefix).
   */
  lemma ParseIntPrefix(n: int, rest: string)
    requires |rest| == 0 || (!IsDigit(rest[0]) && rest[0] != 'x' && rest[0] != 'X')
    ensures ParseInt(IntToString(n) + rest) == Some(n)
  {
    if n < 0 {
      NegativePrefix(n, rest);
    } else {
      NonNegativePrefix(n, rest);
    }
  }

  lemma NonNegativePrefix(n: nat, rest: string)
    requires |rest| == 0 || (!IsDigit(rest[0]) && rest[0] != 'x' && rest[0] != 'X')
    ensures ParseInt(IntToString(n) + rest) == Some(n)
  {
    var digits := NatToString(n);
    MagnitudeOfDigits(digits, rest);
    NatToStringValue(n);
    ParseIntUnsigned(digits, rest, n);
    assert IntToString(n) == digits;
  }

  lemma NegativePrefix(n: int, rest: string)
    requires n < 0
    requires |rest| == 0 || (!IsDigit(rest[0]) && rest[0] != 'x' && rest[0] != 'X')
    ensures ParseInt(IntToString(n) + rest) == Some(n)
  {
    NegatedDigits(n, rest);
    assert IntToString(n) == "-" + NatToString(-n);
  }

  lemma NegatedDigits(n: int, rest: string)
    requires n < 0
    requires |rest| == 0 || (!IsDigit(rest[0]) && rest[0] != 'x' && rest[0] != 'X')
    ensures ParseInt("-" + NatToString(-n) + rest) == Some(n)
  {
    var m: nat := -n;
    MagnitudeOfDigits(NatToString(m), rest);
    NatToStringValue(m);
    ParseIntNegative(NatToString(m), rest, m);
  }

  lemma ParseIntUnsigned(digits: string, rest: string, m: nat)
    requires |digits| > 0 && AllDigits(digits)
    requires ParseMagnitude(digits + rest) == Some(m)
    ensures ParseInt(digits + rest) == Some(m)
  {
    assert (digits + rest)[0] == digits[0];
  }

  lemma ParseIntNegative(digits: string, rest: string, m: nat)
    requires |digits| > 0 && AllDigits(digits)
    requires ParseMagnitude(digits + rest) == Some(m)
    ensures ParseInt("-" + digits + rest) == Some(0 - m)
  {
    var s := "-" + digits + rest;
    assert s[1..] == digits + rest;
    ParseIntMinus(s);
  }

  /** A leading `-` negates the magnitude that follows it. */
  lemma ParseIntMinus(s: string)
    requires |s| > 0 && s[0] == '-'
    ensures ParseInt(s) == WithSign(ParseMagnitude(s[1..]), true)
  {
  }

  /** `parseInt` inverts integer `toString`. */
  lemma ParseIntToString(n: int)
    ensures ParseInt(IntToString(n)) == Some(n)
  {
    ParseIntPrefix(n, "");
    assert IntToString(n) + "" == IntToString(n);
  }

  // ---------------------------------------------------------------------------
  // Searching and replacing
  // ---------------------------------------------------------------------------

  predicate StartsWith(s: string, prefix: string) { |prefix| <= |s| && s[..|prefix|] == prefix }

  predicate EndsWith(s: string, suffix: string) { |suffix| <= |s| && s[|s| - |suffix|..] == suffix }

  /** `p` occurs in `s` starting at index `i`. */
  predicate OccursAt(s: string, p: string, i: nat) { i + |p| <= |s| && s[i..i + |p|] == p }

  function IndexFrom(s: string, p: string, from: nat): (r: Option<nat>)
    requires from <= |s|
    ensures r.Some? ==> from <= r.value && OccursAt(s, p, r.value)
    ensures r.Some? ==> forall j :: from <= j < r.value ==> !OccursAt(s, p, j)
    ensures r.None? ==> forall j :: from <= j <= |s| ==> !OccursAt(s, p, j)
    decreases |s| - from
  {
    if OccursAt(s, p, from) then Some(from)
    else if from == |s| then None
    else IndexFrom(s, p, from + 1)
  }

  /** `s.indexOf(p)`: the first index at which `p` occurs, if any. */
  function IndexOf(s: string, p: string): (r: Option<nat>)
    ensures r.Some? ==> OccursAt(s, p, r.value) && forall j :: 0 <= j < r.value ==> !OccursAt(s, p, j)
    ensures r.None? ==> forall j :: 0 <= j <= |s| ==> !OccursAt(s, p, j)
  {
    IndexFrom(s, p, 0)
  }

  /** `s.includes(p)`. */
  predicate Includes(s: string, p: string) { IndexOf(s, p).Some? }

  /**
   * `s.replace(p, r)` with a string pattern: only the first occurrence is replaced
   * (the replacements used here contain no `$` patterns).
   */
  function ReplaceFirst(s: string, p: string, r: string): string
  {
    match IndexOf(s, p)
    case None => s
    case Some(i) => s[..i] + r + s[i + |p|..]
  }

  /** When `p` first occurs in `a + p + b` right after `a`, `replace` cuts out exactly that occurrence. */
  lemma {:induction false} IndexOfAfterPrefix(a: string, p: string, b: string)
    requires |p| > 0
    requires forall i :: 0 <= i < |a| ==> a[i] != p[0]
    ensures IndexOf(a + p + b, p) == Some(|a|)
  {
    var s := a + p + b;
    assert s[|a|..|a| + |p|] == p;
    forall j | 0 <= j < |a|
      ensures !OccursAt(s, p, j)
    {
      assert s[j] == a[j];
      if j + |p| <= |s| {
        assert s[j..j + |p|][0] == s[j];
      }
    }
    assert OccursAt(s, p, |a|);
  }

  // ---------------------------------------------------------------------------
  // Case and splitting
  // ---------------------------------------------------------------------------

  function LowerChar(c: char): char
  {
    if 'A' <= c <= 'Z' then ((c as int) + 32) as char else c
  }

  /** `s.toLowerCase()` on ASCII letters; every other character is kept. */
  function ToLower(s: string): (t: string)
    ensures |t| == |s|
    ensures forall i :: 0 <= i < |s| ==> t[i] == LowerChar(s[i])
  {
    seq(|s|, i requires 0 <= i < |s| => LowerChar(s[i]))
  }

  lemma ToLowerIdempotent(s: string)
    ensures ToLower(ToLower(s)) == ToLower(s)
  {
  }

  /** `s.split(sep)[0]`: everything before the first `sep`, or all of `s`. */
  function FirstSegment(s: string, sep: char): (t: string)
    ensures |t| <= |s| && t == s[..|t|]
    ensures forall i :: 0 <= i < |t| ==> t[i] != sep
    ensures |t| < |s| ==> s[|t|] == sep
  {
    if |s| == 0 || s[0] == sep then "" else [s[0]] + FirstSegment(s[1..], sep)
  }
}
