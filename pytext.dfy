/** The pieces of Python's string built-ins that the survey bot relies on:
    `s.split(sep)[0]`, `int(s)` for a `str` in base 10, and `str(n)` as its
    inverse. Digits are the ASCII ones (see README). */
module PyText {

  datatype Option<+T> = None | Some(value: T)

  /** The characters for which Python's `str.isspace()` holds, which
      `str.split()` splits on: TAB, LF, VT, FF, CR, the separators
      U+001C..U+001F, SPACE, NEL, NO-BREAK SPACE, and the Unicode space
      separators and line and paragraph separators. */
  predicate IsSpace(c: char) {
    || c == ' ' || '\t' <= c <= '\r' || '\U{1C}' <= c <= '\U{1F}'
    || c == '\U{85}' || c == '\U{A0}' || c == '\U{1680}'
    || '\U{2000}' <= c <= '\U{200A}' || c == '\U{2028}' || c == '\U{2029}'
    || c == '\U{202F}' || c == '\U{205F}' || c == '\U{3000}'
  }

  /** The whitespace `int()` strips around its digits. CPython first turns
      every non-ASCII whitespace character into a space and then skips only
      TAB, LF, VT, FF, CR and SPACE, so the ASCII separators U+001C..U+001F
      are not whitespace to `int()`. */
  predicate IsIntSpace(c: char) {
    IsSpace(c) && !('\U{1C}' <= c <= '\U{1F}')
  }

  predicate IsDigit(c: char) {
    '0' <= c <= '9'
  }

  /** A character that can occur in a string `int()` accepts. */
  predicate IsNumeral(c: char) {
    IsIntSpace(c) || IsDigit(c) || c == '_' || c == '+' || c == '-'
  }

  /** Drops the longest prefix of characters that are `space`. */
  function TrimStart(s: string, space: char -> bool): string {
    if s != [] && space(s[0]) then TrimStart(s[1..], space) else s
  }

  /** `TrimStart` keeps a suffix of `s`, drops only `space` characters and
      drops all of the leading ones. */
  lemma {:induction false} TrimStartSpec(s: string, space: char -> bool)
    ensures |TrimStart(s, space)| <= |s| && TrimStart(s, space) == s[|s| - |TrimStart(s, space)|..]
    ensures forall i :: 0 <= i < |s| - |TrimStart(s, space)| ==> space(s[i])
    ensures TrimStart(s, space) == [] || !space(TrimStart(s, space)[0])
  {
    if s != [] && space(s[0]) {
      var rest := s[1..];
      TrimStartSpec(rest, space);
      assert TrimStart(s, space) == TrimStart(rest, space);
      assert rest[|rest| - |TrimStart(rest, space)|..] == s[|s| - |TrimStart(s, space)|..];
    }
  }

  /** Drops the longest suffix of characters that are `space`. */
  function TrimEnd(s: string, space: char -> bool): string {
    if s != [] && space(s[|s| - 1]) then TrimEnd(s[..|s| - 1], space) else s
  }

  /** `TrimEnd` keeps a prefix of `s`, drops only `space` characters and
      drops all of the trailing ones. */
  lemma {:induction false} TrimEndSpec(s: string, space: char -> bool)
    ensures |TrimEnd(s, space)| <= |s| && TrimEnd(s, space) == s[..|TrimEnd(s, space)|]
    ensures forall i :: |TrimEnd(s, space)| <= i < |s| ==> space(s[i])
    ensures TrimEnd(s, space) == [] || !space(TrimEnd(s, space)[|TrimEnd(s, space)| - 1])
  {
    if s != [] && space(s[|s| - 1]) {
      TrimEndSpec(s[..|s| - 1], space);
    }
  }

  /** `s.split(sep)[0]` for a one-character separator. */
  function PrefixBefore(s: string, sep: char): string {
    if s == [] || s[0] == sep then [] else [s[0]] + PrefixBefore(s[1..], sep)
  }

  /** `PrefixBefore` is the part of `s` before the first `sep`, or all of
      `s` when there is none. */
  lemma {:induction false} PrefixBeforeSpec(s: string, sep: char)
    ensures |PrefixBefore(s, sep)| <= |s| && PrefixBefore(s, sep) == s[..|PrefixBefore(s, sep)|]
    ensures sep !in PrefixBefore(s, sep)
    ensures |PrefixBefore(s, sep)| < |s| ==> s[|PrefixBefore(s, sep)|] == sep
  {
    if s != [] && s[0] != sep {
      PrefixBeforeSpec(s[1..], sep);
    }
  }

  /** The digit groups `int()` accepts in base 10: ASCII digits, with single
      underscores allowed between two digits; leading zeros are allowed. */
  predicate IsDigitGroups(s: string)
    decreases |s|
  {
    && |s| > 0
    && IsDigit(s[0])
    && (|s| == 1 || IsDigitGroups(if s[1] == '_' then s[2..] else s[1..]))
  }

  /** Digit groups hold only digits and underscores, and end in a digit. */
  lemma {:induction false} DigitGroupsChars(s: string)
    requires IsDigitGroups(s)
    ensures forall i :: 0 <= i < |s| ==> IsDigit(s[i]) || s[i] == '_'
    ensures IsDigit(s[|s| - 1])
    decreases |s|
  {
    if |s| > 1 {
      var k := if s[1] == '_' then 2 else 1;
      DigitGroupsChars(s[k..]);
      assert forall i :: k <= i < |s| ==> s[i] == s[k..][i - k];
    }
  }

  /** A non-empty run of digits is one digit group. */
  lemma {:induction false} DigitsAreGroups(s: string)
    requires |s| > 0 && forall i :: 0 <= i < |s| ==> IsDigit(s[i])
    ensures IsDigitGroups(s)
    decreases |s|
  {
    if |s| > 1 {
      assert IsDigit(s[1]);
      DigitsAreGroups(s[1..]);
    }
  }

  /** The value of a string of digits and underscores, underscores ignored. */
  function DigitsValue(s: string): nat
    requires forall i :: 0 <= i < |s| ==> IsDigit(s[i]) || s[i] == '_'
  {
    if s == [] then 0
    else if s[|s| - 1] == '_' then DigitsValue(s[..|s| - 1])
    else
      assert IsDigit(s[|s| - 1]);
      DigitsValue(s[..|s| - 1]) * 10 + (s[|s| - 1] as int - '0' as int)
  }

  /** The default of `sys.get_int_max_str_digits()`: `int()` refuses a
      decimal string of more digits, and `str()` an integer of more. */
  const MaxStrDigits: nat := 4300

  /** The number of digits in a string of digits and underscores. */
  function DigitCount(s: string): nat {
    if s == [] then 0 else (if s[0] == '_' then 0 else 1) + DigitCount(s[1..])
  }

  lemma {:induction false} DigitCountOfDigits(s: string)
    requires forall i :: 0 <= i < |s| ==> IsDigit(s[i])
    ensures DigitCount(s) == |s|
  {
    if s != [] {
      DigitCountOfDigits(s[1..]);
    }
  }

  /** `int(s)`: `None` where Python raises `ValueError`. Surrounding
      whitespace is ignored, one sign may precede the digits, nothing may
      stand between the sign and the first digit, and there may be at most
      `MaxStrDigits` digits. */
  function ParseInt(s: string): Option<int>
  {
    var t := TrimEnd(TrimStart(s, IsIntSpace), IsIntSpace);
    var signed := |t| > 0 && (t[0] == '+' || t[0] == '-');
    var digits := if signed then t[1..] else t;
    if IsDigitGroups(digits) && DigitCount(digits) <= MaxStrDigits then
      DigitGroupsChars(digits);
      Some(if signed && t[0] == '-' then -(DigitsValue(digits) as int) else DigitsValue(digits))
    else
      None
  }

  function DigitChar(d: nat): (c: char)
    requires d < 10
    ensures IsDigit(c) && c as int - '0' as int == d
  {
    ('0' as int + d) as char
  }

  /** `str(n)` for a non-negative integer: its shortest decimal numeral. */
  function NatToDecimal(n: nat): string
    decreases n
  {
    if n < 10 then [DigitChar(n)] else NatToDecimal(n / 10) + [DigitChar(n % 10)]
  }

  /** `str(n)`. */
  function IntToDecimal(n: int): string {
    if n < 0 then "-" + NatToDecimal(-n) else NatToDecimal(n)
  }

  lemma {:induction false} NatToDecimalDigits(n: nat)
    ensures |NatToDecimal(n)| > 0
    ensures forall i :: 0 <= i < |NatToDecimal(n)| ==> IsDigit(NatToDecimal(n)[i])
    ensures DigitsValue(NatToDecimal(n)) == n
    decreases n
  {
    if n >= 10 {
      NatToDecimalDigits(n / 10);
      var s := NatToDecimal(n);
      assert s[..|s| - 1] == NatToDecimal(n / 10);
    }
  }

  function Abs(n: int): nat {
    if n < 0 then -n else n
  }

  /** `int(str(n)) == n` for every integer of at most `MaxStrDigits`
      digits; `int()` refuses the numeral of any longer one. */
  lemma ParseIntDecimal(n: int)
    ensures ParseInt(IntToDecimal(n)) == if |NatToDecimal(Abs(n))| <= MaxStrDigits then Some(n) else None
  {
    var m: nat := Abs(n);
    var ds := NatToDecimal(m);
    NatToDecimalDigits(m);
    DigitsAreGroups(ds);
    DigitCountOfDigits(ds);
    var s := IntToDecimal(n);
    assert s == if n < 0 then "-" + ds else ds;
    assert s[|s| - 1] == ds[|ds| - 1];
    var t := TrimEnd(TrimStart(s, IsIntSpace), IsIntSpace);
    assert TrimStart(s, IsIntSpace) == s;
    assert t == s;
    var signed := |t| > 0 && (t[0] == '+' || t[0] == '-');
    if n < 0 {
      assert t[0] == '-' && t[1..] == ds;
    } else {
      assert IsDigit(t[0]);
    }
    var digits := if signed then t[1..] else t;
    assert digits == ds;
    if |ds| <= MaxStrDigits {
      assert ParseInt(s) == Some(if signed && t[0] == '-' then -(DigitsValue(digits) as int) else DigitsValue(digits));
    }
  }

  /** `int()` does not skip the ASCII separators U+001C..U+001F, though
      `str.split()` does: a digit next to one is refused. */
  lemma SeparatorsAreNotIntSpace(c: char, d: char)
    requires '\U{1C}' <= c <= '\U{1F}' && IsDigit(d)
    ensures ParseInt([c, d]) == None && ParseInt([d, c]) == None
    ensures IsSpace(c)
  {
    ParseIntRejectsForeign([c, d], 0);
    ParseIntRejectsForeign([d, c], 1);
  }

  /** `int()` accepts nothing that holds a character outside digits,
      whitespace, signs and underscores. */
  lemma ParseIntRejectsForeign(s: string, i: nat)
    requires i < |s| && !IsNumeral(s[i])
    ensures ParseInt(s) == None
  {
    var u := TrimStart(s, IsIntSpace);
    var t := TrimEnd(u, IsIntSpace);
    TrimStartSpec(s, IsIntSpace);
    TrimEndSpec(u, IsIntSpace);
    var a := |s| - |u|;
    assert a <= i < a + |t|;
    var j := i - a;
    assert t[j] == u[j] == s[i];
    var signed := |t| > 0 && (t[0] == '+' || t[0] == '-');
    var digits := if signed then t[1..] else t;
    var k := if signed then j - 1 else j;
    assert 0 <= k < |digits| && digits[k] == s[i];
    if IsDigitGroups(digits) {
      DigitGroupsChars(digits);
    }
  }
}
