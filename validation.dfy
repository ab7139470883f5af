/**
 * Text checks applied to user input by the conversation handlers:
 * `str.strip()`, the phone pattern `^7\d{10}$` as `re.match` applies it, and
 * the cancel token test `text.lower() in (...)`.
 */
module Validation {

  /** Python's `str.isspace()`: the characters `str.strip()` removes. */
  predicate IsSpace(c: char) {
    ('\t' <= c <= '\r') || ('\U{1C}' <= c <= '\U{1F}') || c == ' '
    || c == '\U{85}' || c == '\U{A0}' || c == '\U{1680}'
    || ('\U{2000}' <= c <= '\U{200A}') || c == '\U{2028}' || c == '\U{2029}'
    || c == '\U{202F}' || c == '\U{205F}' || c == '\U{3000}'
  }

  /** `s.lstrip()`: the longest suffix of `s` that does not start with whitespace. */
  function StripLeft(s: string): (r: string)
    ensures |r| <= |s| && r == s[|s| - |r|..]
    ensures r == [] || !IsSpace(r[0])
    ensures forall i :: 0 <= i < |s| - |r| ==> IsSpace(s[i])
  {
    if s != [] && IsSpace(s[0]) then StripLeft(s[1..]) else s
  }

  /** `s.rstrip()`: the longest prefix of `s` that does not end with whitespace. */
  function StripRight(s: string): (r: string)
    ensures |r| <= |s| && r == s[..|r|]
    ensures r == [] || !IsSpace(r[|r| - 1])
    ensures forall i :: |r| <= i < |s| ==> IsSpace(s[i])
  {
    if s != [] && IsSpace(s[|s| - 1]) then StripRight(s[..|s| - 1]) else s
  }

  lemma PrefixOfSuffix(s: string, a: nat, k: nat)
    requires a + k <= |s|
    ensures s[a..][..k] == s[a..a + k]
  {
  }

  /** `s.strip()`: `s` without its leading and trailing whitespace. */
  function Strip(s: string): (r: string)
    ensures exists a, b ::
              && 0 <= a <= b <= |s| && r == s[a..b]
              && (forall i :: 0 <= i < a ==> IsSpace(s[i]))
              && (forall i :: b <= i < |s| ==> IsSpace(s[i]))
    ensures r == [] || (!IsSpace(r[0]) && !IsSpace(r[|r| - 1]))
    ensures r == [] ==> forall i :: 0 <= i < |s| ==> IsSpace(s[i])
  {
    var l := StripLeft(s);
    var r := StripRight(l);
    PrefixOfSuffix(s, |s| - |l|, |r|);
    r
  }

  /** A text with nothing to strip at either end is its own `strip()`. */
  lemma {:induction false} StripOfTrimmed(t: string)
    requires t == [] || (!IsSpace(t[0]) && !IsSpace(t[|t| - 1]))
    ensures Strip(t) == t
  {
    assert StripLeft(t) == t;
    assert StripRight(t) == t;
  }

  /** Stripping twice is stripping once. */
  lemma StripIdempotent(s: string)
    ensures Strip(Strip(s)) == Strip(s)
  {
    StripOfTrimmed(Strip(s));
  }

  /** `c` is one of the ten digits of the block starting at code point `zero`. */
  predicate InDigitBlock(c: char, zero: int) {
    zero <= c as int < zero + 10
  }

  /**
   * `\d` in a Python `str` pattern: any Unicode decimal digit (general
   * category Nd), not only ASCII. The blocks below are those of Unicode 15.0
   * and 15.1, which have the same decimal digits: the character database of
   * Python 3.12 and 3.13. Python 3.14 (Unicode 16.0) adds blocks not listed.
   */
  predicate IsDecimalDigit(c: char) {
    InDigitBlock(c, 0x30) || InDigitBlock(c, 0x660) || InDigitBlock(c, 0x6F0) || InDigitBlock(c, 0x7C0) || InDigitBlock(c, 0x966) || InDigitBlock(c, 0x9E6)
    || InDigitBlock(c, 0xA66) || InDigitBlock(c, 0xAE6) || InDigitBlock(c, 0xB66) || InDigitBlock(c, 0xBE6) || InDigitBlock(c, 0xC66) || InDigitBlock(c, 0xCE6)
    || InDigitBlock(c, 0xD66) || InDigitBlock(c, 0xDE6) || InDigitBlock(c, 0xE50) || InDigitBlock(c, 0xED0) || InDigitBlock(c, 0xF20) || InDigitBlock(c, 0x1040)
    || InDigitBlock(c, 0x1090) || InDigitBlock(c, 0x17E0) || InDigitBlock(c, 0x1810) || InDigitBlock(c, 0x1946) || InDigitBlock(c, 0x19D0) || InDigitBlock(c, 0x1A80)
    || InDigitBlock(c, 0x1A90) || InDigitBlock(c, 0x1B50) || InDigitBlock(c, 0x1BB0) || InDigitBlock(c, 0x1C40) || InDigitBlock(c, 0x1C50) || InDigitBlock(c, 0xA620)
    || InDigitBlock(c, 0xA8D0) || InDigitBlock(c, 0xA900) || InDigitBlock(c, 0xA9D0) || InDigitBlock(c, 0xA9F0) || InDigitBlock(c, 0xAA50) || InDigitBlock(c, 0xABF0)
    || InDigitBlock(c, 0xFF10) || InDigitBlock(c, 0x104A0) || InDigitBlock(c, 0x10D30) || InDigitBlock(c, 0x11066) || InDigitBlock(c, 0x110F0) || InDigitBlock(c, 0x11136)
    || InDigitBlock(c, 0x111D0) || InDigitBlock(c, 0x112F0) || InDigitBlock(c, 0x11450) || InDigitBlock(c, 0x114D0) || InDigitBlock(c, 0x11650) || InDigitBlock(c, 0x116C0)
    || InDigitBlock(c, 0x11730) || InDigitBlock(c, 0x118E0) || InDigitBlock(c, 0x11950) || InDigitBlock(c, 0x11C50) || InDigitBlock(c, 0x11D50) || InDigitBlock(c, 0x11DA0)
    || InDigitBlock(c, 0x11F50) || InDigitBlock(c, 0x16A60) || InDigitBlock(c, 0x16AC0) || InDigitBlock(c, 0x16B50) || InDigitBlock(c, 0x1D7CE) || InDigitBlock(c, 0x1D7D8)
    || InDigitBlock(c, 0x1D7E2) || InDigitBlock(c, 0x1D7EC) || InDigitBlock(c, 0x1D7F6) || InDigitBlock(c, 0x1E140) || InDigitBlock(c, 0x1E2F0) || InDigitBlock(c, 0x1E4F0)
    || InDigitBlock(c, 0x1E950) || InDigitBlock(c, 0x1FBF0)
  }

  predicate IsAsciiDigit(c: char) {
    '0' <= c <= '9'
  }

  /**
   * `re.match(r'^7\d{10}$', t)`: a `7`, ten decimal digits, then the end of
   * the text or a single newline that ends it (Python's `$` matches there too).
   */
  predicate PhonePatternMatches(t: string) {
    && (|t| == 11 || (|t| == 12 && t[11] == '\n'))
    && t[0] == '7'
    && forall i :: 1 <= i < 11 ==> IsDecimalDigit(t[i])
  }

  /** The phone shape the bot stores: exactly `7` followed by ten decimal digits. */
  predicate IsValidPhone(t: string) {
    |t| == 11 && t[0] == '7' && forall i :: 1 <= i < 11 ==> IsDecimalDigit(t[i])
  }

  /**
   * The handlers apply the pattern to stripped text, where the newline
   * alternative of `$` cannot occur: a stripped text matches exactly when it
   * is a valid phone.
   */
  lemma PatternOnStrippedText(s: string)
    ensures PhonePatternMatches(Strip(s)) <==> IsValidPhone(Strip(s))
  {
    var t := Strip(s);
    if |t| == 12 {
      assert !IsSpace(t[11]);
    }
  }

  /**
   * `\d` is strictly wider than ASCII: every ASCII digit is a decimal digit,
   * and `7` followed by ten Arabic-Indic digits (U+0660..U+0669), none of
   * them ASCII, is a valid phone.
   */
  lemma ValidPhoneNotAsciiOnly()
    ensures forall c :: IsAsciiDigit(c) ==> IsDecimalDigit(c)
    ensures IsValidPhone("7\U{660}\U{661}\U{662}\U{663}\U{664}\U{665}\U{666}\U{667}\U{668}\U{669}")
    ensures !IsAsciiDigit('\U{660}')
  {
    var t := "7\U{660}\U{661}\U{662}\U{663}\U{664}\U{665}\U{666}\U{667}\U{668}\U{669}";
    forall i | 1 <= i < 11 ensures IsDecimalDigit(t[i]) {
      assert InDigitBlock(t[i], 0x660);
    }
  }

  /**
   * `str.lower()` on one character, for A-Z and U+0400-U+042F only; every
   * other character, other cased letters included, is left as it is.
   */
  function LowerChar(c: char): (r: char)
    ensures !('A' <= r <= 'Z') && !('\U{400}' <= r <= '\U{42F}')
  {
    if 'A' <= c <= 'Z' then (c as int + 0x20) as char
    else if '\U{410}' <= c <= '\U{42F}' then (c as int + 0x20) as char
    else if '\U{400}' <= c <= '\U{40F}' then (c as int + 0x50) as char
    else c
  }

  /** `s.lower()`, character by character. */
  function Lower(s: string): (r: string)
    ensures |r| == |s|
    ensures forall i :: 0 <= i < |s| ==> r[i] == LowerChar(s[i])
  {
    seq(|s|, i requires 0 <= i < |s| => LowerChar(s[i]))
  }

  /** The tuple tested at main.py:101, while the old phone is awaited. */
  const OldPhoneCancelTokens: set<string> := {"x", "\U{445}", "X", "\U{425}"}
  /** The tuple tested at main.py:127, while the new phone is awaited. */
  const NewPhoneCancelTokens: set<string> := {"x", "\U{445}"}

  /** `text.lower() in tokens`. */
  predicate IsCancel(t: string, tokens: set<string>) {
    Lower(t) in tokens
  }

  /** The texts that cancel: Latin `x` or Cyrillic `х`, in either case. */
  const CancelTexts: set<string> := {"x", "X", "\U{445}", "\U{425}"}

  /**
   * Both cancel tests accept exactly Latin or Cyrillic `x` in either case, so
   * they agree; the upper-case entries of the first tuple can never match,
   * because the lowered text is never `X` or `Х`.
   */
  lemma CancelTokensAgree(t: string)
    ensures IsCancel(t, OldPhoneCancelTokens) <==> t in CancelTexts
    ensures IsCancel(t, NewPhoneCancelTokens) <==> t in CancelTexts
    ensures Lower(t) != "X" && Lower(t) != "\U{425}"
  {
    var l := Lower(t);
    if |t| == 1 {
      assert l == [LowerChar(t[0])];
      assert l != "X" && l != "\U{425}";
      if t in CancelTexts {
        assert l == "x" || l == "\U{445}";
      }
      if l == "x" || l == "\U{445}" {
        assert t[0] == 'x' || t[0] == 'X' || t[0] == '\U{445}' || t[0] == '\U{425}';
        assert t == [t[0]];
      }
    } else {
      assert |l| != 1;
    }
  }
}
