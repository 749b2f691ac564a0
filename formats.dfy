/** Character classes and string measures of JavaScript, and the six anchored
    patterns of the form validator written out as predicates over strings.

    A Dafny `char` is a Unicode scalar value; a JavaScript string is a sequence
    of UTF-16 code units. A character of the Basic Multilingual Plane outside
    the surrogate range U+D800-U+DFFF is one code unit in both. A character
    above U+FFFF is one `char` here and two code units (a surrogate pair) in
    JavaScript: `Utf16Length` counts it twice, and no pattern below accepts it,
    just as no class of the source's patterns accepts either half of the pair.
    An unpaired surrogate, which a JavaScript string may hold, has no `char`. */
module Formats {

  /** `\d` and `[0-9]`: ASCII digits only, in every ECMAScript mode. */
  predicate IsAsciiDigit(c: char) {
    '0' <= c <= '9'
  }

  /** `[A-Z]` */
  predicate IsAsciiUpper(c: char) {
    'A' <= c <= 'Z'
  }

  /** `[a-z]` */
  predicate IsAsciiLower(c: char) {
    'a' <= c <= 'z'
  }

  /** `\s`: the ECMAScript WhiteSpace and LineTerminator characters, with the
      space separators (category Zs) of the current Unicode standard written
      out as a fixed list. */
  predicate IsJsSpace(c: char) {
    || c == '\t' || c == '\n' || c == '\U{000B}' || c == '\U{000C}' || c == '\r'
    || c == ' ' || c == '\U{00A0}' || c == '\U{1680}'
    || ('\U{2000}' <= c <= '\U{200A}')
    || c == '\U{2028}' || c == '\U{2029}' || c == '\U{202F}' || c == '\U{205F}'
    || c == '\U{3000}' || c == '\U{FEFF}'
  }

  predicate AllDigits(s: string) {
    forall i :: 0 <= i < |s| ==> IsAsciiDigit(s[i])
  }

  /** `/^[a-zA-Z\s]+$/`: one or more ASCII letters or whitespace characters. */
  predicate IsContactName(s: string) {
    && |s| >= 1
    && forall i :: 0 <= i < |s| ==> IsAsciiLower(s[i]) || IsAsciiUpper(s[i]) || IsJsSpace(s[i])
  }

  /** `/^\d{10}$/` */
  predicate IsMobile(s: string) {
    |s| == 10 && AllDigits(s)
  }

  /** `/^\d{6}$/` */
  predicate IsPincode(s: string) {
    |s| == 6 && AllDigits(s)
  }

  /** `/^[A-Z]{5}[0-9]{4}[A-Z]{1}$/`: a PAN such as RTGHP2345G. */
  predicate IsPan(s: string) {
    && |s| == 10
    && (forall i :: 0 <= i < 5 ==> IsAsciiUpper(s[i]))
    && (forall i :: 5 <= i < 9 ==> IsAsciiDigit(s[i]))
    && IsAsciiUpper(s[9])
  }

  /** `/^[A-Z]{4}0[A-Z0-9]{6}$/`: an IFSC bank branch code such as SBIN0001234. */
  predicate IsIfsc(s: string) {
    && |s| == 11
    && (forall i :: 0 <= i < 4 ==> IsAsciiUpper(s[i]))
    && s[4] == '0'
    && (forall i :: 5 <= i < 11 ==> IsAsciiUpper(s[i]) || IsAsciiDigit(s[i]))
  }

  /** `/^\d{10,18}$/` */
  predicate IsAccountNumber(s: string) {
    10 <= |s| <= 18 && AllDigits(s)
  }

  /** The formats the validator tests a present value against. */
  datatype Format = NameFormat | MobileFormat | PincodeFormat | PanFormat | IfscFormat | AccountNumberFormat

  predicate Accepts(format: Format, s: string) {
    match format
    case NameFormat => IsContactName(s)
    case MobileFormat => IsMobile(s)
    case PincodeFormat => IsPincode(s)
    case PanFormat => IsPan(s)
    case IfscFormat => IsIfsc(s)
    case AccountNumberFormat => IsAccountNumber(s)
  }

  /** JavaScript's `s.length`: the number of UTF-16 code units of `s`. It equals
      the number of characters exactly when none lies above U+FFFF. */
  function Utf16Length(s: string): (n: nat)
    ensures |s| <= n <= 2 * |s|
    ensures n == |s| <==> forall i :: 0 <= i < |s| ==> s[i] <= '\U{FFFF}'
  {
    if s == [] then 0
    else
      var rest := Utf16Length(s[1..]);
      assert forall i :: 1 <= i < |s| ==> s[i] == s[1..][i - 1];
      (if s[0] <= '\U{FFFF}' then 1 else 2) + rest
  }
}
