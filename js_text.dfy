/**
 * The string and number primitives the catalogue code relies on, written out:
 * JavaScript's `trim`, `length`, `toLowerCase`, `includes`, `parseInt` and integer
 * `toString`, and Go's `strings.TrimSpace`.
 *
 * Letters are folded to lower case over ASCII only; numbers are integers
 * or NaN (no fractions, no precision loss above 2^53).
 */
module JsText {

  /** A JavaScript number as far as the catalogue uses it: an integer, or NaN. */
  datatype Num = NaN | Int(value: int)

  /** JavaScript truthiness of a number: `0` and `NaN` are falsy. */
  predicate NumTruthy(n: Num) {
    n.Int? && n.value != 0
  }

  /* ---------------------------------------------------------------- whitespace */

  /**
   * JavaScript's WhiteSpace and LineTerminator characters: what `String.prototype.trim`
   * removes, what `parseInt` skips, and what the regular-expression class `\s` matches.
   */
  predicate IsJsSpace(c: char) {
    c == '\t' || c == '\n' || c == '\U{B}' || c == '\U{C}' || c == '\r' || c == ' ' ||
    c == '\U{A0}' || c == '\U{1680}' || ('\U{2000}' <= c <= '\U{200A}') ||
    c == '\U{2028}' || c == '\U{2029}' || c == '\U{202F}' || c == '\U{205F}' ||
    c == '\U{3000}' || c == '\U{FEFF}'
  }

  /** Go's `unicode.IsSpace`: what `strings.TrimSpace` removes (U+0085 but not U+FEFF). */
  predicate IsGoSpace(c: char) {
    c == '\t' || c == '\n' || c == '\U{B}' || c == '\U{C}' || c == '\r' || c == ' ' ||
    c == '\U{85}' || c == '\U{A0}' || c == '\U{1680}' || ('\U{2000}' <= c <= '\U{200A}') ||
    c == '\U{2028}' || c == '\U{2029}' || c == '\U{202F}' || c == '\U{205F}' ||
    c == '\U{3000}'
  }

  /** The two whitespace classes in use: JavaScript's and Go's. */
  datatype SpaceClass = JsSpace | GoSpace

  predicate IsSpace(c: char, cls: SpaceClass) {
    match cls
    case JsSpace => IsJsSpace(c)
    case GoSpace => IsGoSpace(c)
  }

  /** `s` without its leading whitespace of class `cls`. */
  function TrimStart(s: string, cls: SpaceClass): (r: string)
    ensures |r| <= |s|
    ensures r == [] || !IsSpace(r[0], cls)
  {
    if s != [] && IsSpace(s[0], cls) then TrimStart(s[1..], cls) else s
  }

  /** `TrimStart` drops a prefix of whitespace and keeps the rest of `s` as it is. */
  lemma {:induction false} TrimStartDrops(s: string, cls: SpaceClass)
    ensures TrimStart(s, cls) == s[|s| - |TrimStart(s, cls)|..]
    ensures forall k :: 0 <= k < |s| - |TrimStart(s, cls)| ==> IsSpace(s[k], cls)
  {
    if s != [] && IsSpace(s[0], cls) {
      TrimStartDrops(s[1..], cls);
    }
  }

  /** `s` without its trailing whitespace of class `cls`. */
  function TrimEnd(s: string, cls: SpaceClass): (r: string)
    ensures |r| <= |s|
    ensures r == [] || !IsSpace(r[|r| - 1], cls)
    ensures r == [] || r[0] == s[0]
  {
    if s != [] && IsSpace(s[|s| - 1], cls) then TrimEnd(s[..|s| - 1], cls) else s
  }

  /** `TrimEnd` drops a suffix of whitespace and keeps the rest of `s` as it is. */
  lemma {:induction false} TrimEndDrops(s: string, cls: SpaceClass)
    ensures TrimEnd(s, cls) == s[..|TrimEnd(s, cls)|]
    ensures forall k :: |TrimEnd(s, cls)| <= k < |s| ==> IsSpace(s[k], cls)
  {
    if s != [] && IsSpace(s[|s| - 1], cls) {
      TrimEndDrops(s[..|s| - 1], cls);
    }
  }

  /** `s` without leading and trailing whitespace of class `cls`. */
  function TrimBy(s: string, cls: SpaceClass): (r: string)
    ensures |r| <= |s|
    ensures r != [] ==> !IsSpace(r[0], cls) && !IsSpace(r[|r| - 1], cls)
  {
    TrimEnd(TrimStart(s, cls), cls)
  }

  /** Trimming leaves nothing exactly when every character is whitespace. */
  lemma TrimByBlank(s: string, cls: SpaceClass)
    ensures TrimBy(s, cls) == [] <==> forall k :: 0 <= k < |s| ==> IsSpace(s[k], cls)
  {
    var t := TrimStart(s, cls);
    TrimStartDrops(s, cls);
    TrimEndDrops(t, cls);
    if TrimBy(s, cls) == [] {
      forall k | 0 <= k < |s| ensures IsSpace(s[k], cls) {
        if k >= |s| - |t| {
          assert s[k] == t[k - (|s| - |t|)];
        }
      }
    }
  }

  /** JavaScript's `String.prototype.trim`. */
  function Trim(s: string): string {
    TrimBy(s, JsSpace)
  }

  /** Go's `strings.TrimSpace`. */
  function TrimSpace(s: string): string {
    TrimBy(s, GoSpace)
  }

  /** A string with no whitespace at either end is its own trimmed form. */
  lemma TrimUntouched(s: string, cls: SpaceClass)
    requires s != [] && !IsSpace(s[0], cls) && !IsSpace(s[|s| - 1], cls)
    ensures TrimBy(s, cls) == s
  {
    assert TrimStart(s, cls) == s;
  }

  /* ---------------------------------------------------------------- length */

  /** A character outside the Basic Multilingual Plane, which UTF-16 stores as a surrogate pair. */
  predicate IsAstral(c: char) {
    c as int > 0xFFFF
  }

  /**
   * A JavaScript string's `length`: its UTF-16 code units, two for each
   * character outside the Basic Multilingual Plane and one for every other.
   */
  function Utf16Length(s: string): (n: nat)
    ensures |s| <= n <= 2 * |s|
  {
    if s == [] then 0 else (if IsAstral(s[0]) then 2 else 1) + Utf16Length(s[1..])
  }

  /** `length` counts characters exactly when none lies outside the Basic Multilingual Plane. */
  lemma {:induction false} Utf16LengthCountsCharacters(s: string)
    ensures Utf16Length(s) == |s| <==> forall i :: 0 <= i < |s| ==> !IsAstral(s[i])
  {
    if s != [] {
      Utf16LengthCountsCharacters(s[1..]);
      assert forall i :: 1 <= i < |s| ==> s[i] == s[1..][i - 1];
    }
  }

  /** Fewer than two code units: empty, or one character of the Basic Multilingual Plane. */
  lemma Utf16LengthBelowTwo(s: string)
    ensures Utf16Length(s) < 2 <==> s == [] || (|s| == 1 && !IsAstral(s[0]))
  {
    if s != [] {
      assert Utf16Length(s) == (if IsAstral(s[0]) then 2 else 1) + Utf16Length(s[1..]);
    }
  }

  /* ---------------------------------------------------------------- case */

  /** Lower-case of one character; only the ASCII letters A-Z are folded. */
  function LowerChar(c: char): char {
    if 'A' <= c <= 'Z' then (c as int + 32) as char else c
  }

  /** JavaScript's `toLowerCase` and Go's `strings.ToLower`, over ASCII letters. */
  function ToLower(s: string): (r: string)
    ensures |r| == |s|
    ensures forall i :: 0 <= i < |s| ==> r[i] == LowerChar(s[i])
  {
    if s == [] then [] else [LowerChar(s[0])] + ToLower(s[1..])
  }

  /** Lower-casing twice is lower-casing once. */
  lemma ToLowerIdempotent(s: string)
    ensures ToLower(ToLower(s)) == ToLower(s)
  {
  }

  /* ---------------------------------------------------------------- substrings */

  /** `q` occurs in `s` starting at index `i`. */
  predicate OccursAt(s: string, q: string, i: int) {
    0 <= i <= |s| - |q| && s[i..i + |q|] == q
  }

  /** JavaScript's `String.prototype.includes`. */
  predicate Includes(s: string, q: string) {
    exists i | 0 <= i <= |s| - |q| :: OccursAt(s, q, i)
  }

  /* ---------------------------------------------------------------- digits */

  predicate IsDecimalDigit(c: char) {
    '0' <= c <= '9'
  }

  predicate IsHexDigit(c: char) {
    IsDecimalDigit(c) || 'a' <= c <= 'f' || 'A' <= c <= 'F'
  }

  /** `c` is a digit in base 16 (when `base` is 16) or base 10 (otherwise). */
  predicate IsDigitOf(c: char, base: nat) {
    if base == 16 then IsHexDigit(c) else IsDecimalDigit(c)
  }

  function DigitValue(c: char): nat {
    if IsDecimalDigit(c) then c as int - '0' as int
    else if 'a' <= c <= 'f' then c as int - 'a' as int + 10
    else if 'A' <= c <= 'F' then c as int - 'A' as int + 10
    else 0
  }

  /** The length of the longest prefix of `s` made of base-`base` digits. */
  function DigitPrefixLength(s: string, base: nat): (n: nat)
    ensures n <= |s|
    ensures forall k :: 0 <= k < n ==> IsDigitOf(s[k], base)
    ensures n < |s| ==> !IsDigitOf(s[n], base)
  {
    if s != [] && IsDigitOf(s[0], base) then 1 + DigitPrefixLength(s[1..], base) else 0
  }

  /** The value of a digit string in base `base`, most significant digit first. */
  function DigitsValue(ds: string, base: nat): nat {
    if ds == [] then 0 else DigitsValue(ds[..|ds| - 1], base) * base + DigitValue(ds[|ds| - 1])
  }

  /** The radix argument of `parseInt`: absent, or 10. */
  datatype Radix = Auto | Decimal

  /** `parseInt`'s text after the leading whitespace and the optional sign. */
  function Unsigned(s: string): string {
    var t := TrimStart(s, JsSpace);
    if t != [] && (t[0] == '-' || t[0] == '+') then t[1..] else t
  }

  /** `parseInt` reads a minus sign after the leading whitespace. */
  predicate IsNegative(s: string) {
    var t := TrimStart(s, JsSpace);
    t != [] && t[0] == '-'
  }

  /** `u` starts with `0x` or `0X`. */
  predicate HasHexPrefix(u: string) {
    |u| >= 2 && u[0] == '0' && (u[1] == 'x' || u[1] == 'X')
  }

  /** The longest base-`base` digit prefix of `body`, or NaN when there is none. */
  function ReadDigits(body: string, base: nat, negative: bool): Num {
    var n := DigitPrefixLength(body, base);
    if n == 0 then NaN
    else
      var v: int := DigitsValue(body[..n], base);
      Int(if negative then -v else v)
  }

  /**
   * JavaScript's `parseInt(s)` (radix `Auto`) and `parseInt(s, 10)` (radix `Decimal`):
   * leading whitespace is skipped, then one optional sign; without a radix a
   * `0x`/`0X` prefix switches to base 16; the longest digit prefix is read, and
   * no digit at all gives NaN. Anything after the digits is ignored.
   */
  function ParseInt(s: string, radix: Radix): Num {
    var u := Unsigned(s);
    if radix == Auto && HasHexPrefix(u) then ReadDigits(u[2..], 16, IsNegative(s))
    else ReadDigits(u, 10, IsNegative(s))
  }

  /** A blank string has no digits, so `parseInt` gives NaN. */
  lemma ParseIntBlank(s: string, radix: Radix)
    requires forall k :: 0 <= k < |s| ==> IsJsSpace(s[k])
    ensures ParseInt(s, radix) == NaN
  {
    var t := TrimStart(s, JsSpace);
    TrimStartDrops(s, JsSpace);
    assert t == [];
  }

  /** In base 10, a hexadecimal prefix `0x` reads as the number 0. */
  lemma HexPrefixReadsZero(u: string, negative: bool)
    requires HasHexPrefix(u)
    ensures ReadDigits(u, 10, negative) == Int(0)
  {
    assert DigitPrefixLength(u[1..], 10) == 0;
    assert DigitPrefixLength(u, 10) == 1;
    assert DigitsValue(u[..1], 10) == DigitsValue(u[..1][..0], 10) * 10 + DigitValue(u[0]);
    assert u[..1][..0] == [];
  }

  /**
   * Where `parseInt(s, 10)` reads a non-zero number, `parseInt(s)` reads the same
   * one: a hexadecimal prefix `0x` reads as the number 0 in base 10.
   */
  lemma DecimalAgreesWithAuto(s: string)
    requires NumTruthy(ParseInt(s, Decimal))
    ensures ParseInt(s, Auto) == ParseInt(s, Decimal)
  {
    if HasHexPrefix(Unsigned(s)) {
      HexPrefixReadsZero(Unsigned(s), IsNegative(s));
    }
  }

  /* ---------------------------------------------------------------- toString */

  function DigitChar(d: nat): char
    requires d < 10
  {
    ('0' as int + d) as char
  }

  /** The decimal numeral of a natural number, without leading zeros. */
  function NatToString(n: nat): (r: string)
    ensures |r| >= 1
    ensures forall k :: 0 <= k < |r| ==> IsDecimalDigit(r[k])
    ensures |r| > 1 ==> r[0] != '0'
  {
    if n < 10 then [DigitChar(n)] else NatToString(n / 10) + [DigitChar(n % 10)]
  }

  /** JavaScript's `Number.prototype.toString` on an integer (below 10^21 in size). */
  function IntToString(n: int): string {
    if n < 0 then "-" + NatToString(-n) else NatToString(n)
  }

  /** Reading back a numeral gives the number it was printed from. */
  lemma {:induction false} NatToStringValue(n: nat)
    ensures DigitsValue(NatToString(n), 10) == n
  {
    var r := NatToString(n);
    if n < 10 {
      assert r[..0] == [];
    } else {
      NatToStringValue(n / 10);
      assert r[..|r| - 1] == NatToString(n / 10);
    }
  }

  /** A string made only of digits is read whole. */
  lemma AllDigitsPrefix(s: string, base: nat)
    requires forall k :: 0 <= k < |s| ==> IsDigitOf(s[k], base)
    ensures DigitPrefixLength(s, base) == |s|
  {
  }

  /** After whitespace and sign, the numeral of `n` is the numeral of `|n|`, without hex prefix. */
  lemma IntToStringShape(n: int)
    ensures Unsigned(IntToString(n)) == NatToString(if n < 0 then -n else n)
    ensures IsNegative(IntToString(n)) <==> n < 0
    ensures !HasHexPrefix(NatToString(if n < 0 then -n else n))
  {
    var s := IntToString(n);
    assert !IsSpace(s[0], JsSpace);
    assert TrimStart(s, JsSpace) == s;
  }

  /** The digits of a numeral read back as its number. */
  lemma ReadNatToString(m: nat, negative: bool)
    ensures ReadDigits(NatToString(m), 10, negative) == Int(if negative then -(m as int) else m)
  {
    var digits := NatToString(m);
    AllDigitsPrefix(digits, 10);
    assert digits[..|digits|] == digits;
    NatToStringValue(m);
  }

  /** `parseInt(String(n))` is `n`, with or without radix 10. */
  lemma ParseIntOfIntToString(n: int, radix: Radix)
    ensures ParseInt(IntToString(n), radix) == Int(n)
  {
    IntToStringShape(n);
    ReadNatToString(if n < 0 then -n else n, n < 0);
  }

  /** Lower-casing leaves no upper-case ASCII letter. */
  lemma ToLowerHasNoUpper(s: string)
    ensures forall i :: 0 <= i < |s| ==> !('A' <= ToLower(s)[i] <= 'Z')
  {
  }
}
