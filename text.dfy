/**
 * The three string primitives of the JavaScript runtime that the modelled code
 * relies on: `String.prototype.trim`, `parseInt(text, 10)` and the decimal
 * rendering of an integer in a template literal.
 */
module Text {
  import opened Wrappers

  /**
   * JavaScript's WhiteSpace and LineTerminator characters, which `trim` and
   * `parseInt` skip: tab, vertical tab, form feed, the byte-order mark, every
   * space separator of Unicode category Zs (space, no-break space, ogham
   * space mark, the en quad to hair space range, narrow no-break space,
   * medium mathematical space, ideographic space), line feed, carriage
   * return, line separator and paragraph separator.
   */
  predicate IsSpace(c: char) {
    || c == '\t' || c == '\U{000B}' || c == '\U{000C}' || c == '\U{FEFF}'
    || c == ' ' || c == '\U{00A0}' || c == '\U{1680}' || ('\U{2000}' <= c <= '\U{200A}')
    || c == '\U{202F}' || c == '\U{205F}' || c == '\U{3000}'
    || c == '\n' || c == '\r' || c == '\U{2028}' || c == '\U{2029}'
  }

  predicate IsDigit(c: char) {
    '0' <= c <= '9'
  }

  /** The first position at or after `k` that holds no white space, or `|s|`. */
  function SkipSpaces(s: string, k: nat): (n: nat)
    requires k <= |s|
    ensures k <= n <= |s|
    ensures forall j :: k <= j < n ==> IsSpace(s[j])
    ensures n < |s| ==> !IsSpace(s[n])
    decreases |s| - k
  {
    if k == |s| || !IsSpace(s[k]) then k else SkipSpaces(s, k + 1)
  }

  /** The position just after the last character before `e`, and not before `lo`, that is not white space, or `lo`. */
  function SkipSpacesBack(s: string, lo: nat, e: nat): (n: nat)
    requires lo <= e <= |s|
    ensures lo <= n <= e
    ensures forall j :: n <= j < e ==> IsSpace(s[j])
    ensures n > lo ==> !IsSpace(s[n - 1])
    decreases e
  {
    if e == lo || !IsSpace(s[e - 1]) then e else SkipSpacesBack(s, lo, e - 1)
  }

  /**
   * `s.trim()`: the slice of `s` that starts at its first character that is
   * not white space; only white space lies before and after it, and it
   * neither starts nor ends with white space.
   */
  function Trim(s: string): (r: string)
    ensures var i := SkipSpaces(s, 0);
            i + |r| <= |s| && r == s[i..i + |r|]
            && (forall j :: 0 <= j < i ==> IsSpace(s[j]))
            && (forall j :: i + |r| <= j < |s| ==> IsSpace(s[j]))
    ensures r == [] || (!IsSpace(r[0]) && !IsSpace(r[|r| - 1]))
  {
    var i := SkipSpaces(s, 0);
    s[i..SkipSpacesBack(s, i, |s|)]
  }

  function DigitValue(c: char): (d: nat)
    requires IsDigit(c)
    ensures d < 10
  {
    (c - '0') as nat
  }

  function DigitChar(d: nat): (c: char)
    requires d < 10
    ensures IsDigit(c) && DigitValue(c) == d
  {
    ('0' as int + d) as char
  }

  /** The longest prefix of `s` made of decimal digits. */
  function DigitPrefix(s: string): (r: string)
    ensures |r| <= |s| && r == s[..|r|]
    ensures forall i :: 0 <= i < |r| ==> IsDigit(r[i])
    ensures |r| < |s| ==> !IsDigit(s[|r|])
  {
    if s != [] && IsDigit(s[0]) then [s[0]] + DigitPrefix(s[1..]) else []
  }

  /** The value of a run of decimal digits, most significant first. */
  function DigitsValue(ds: string): nat
    requires forall i :: 0 <= i < |ds| ==> IsDigit(ds[i])
  {
    if ds == [] then 0 else DigitsValue(ds[..|ds| - 1]) * 10 + DigitValue(ds[|ds| - 1])
  }

  /**
   * `parseInt(s, 10)`: leading white space, an optional sign, then as many
   * digits as follow; `None` stands for `NaN` (no digit at all).
   */
  function ParseInt(s: string): (r: Option<int>)
    ensures r.None? <==> DigitPrefix(SignFree(s[SkipSpaces(s, 0)..])) == []
  {
    var t := s[SkipSpaces(s, 0)..];
    var negative := t != [] && t[0] == '-';
    var ds := DigitPrefix(SignFree(t));
    if ds == [] then None
    else if negative then Some(-(DigitsValue(ds) as int))
    else Some(DigitsValue(ds))
  }

  /** `t` without its leading `+` or `-`, if it has one. */
  function SignFree(t: string): (r: string)
    ensures r == t || (t != [] && (t[0] == '+' || t[0] == '-') && r == t[1..])
  {
    if t != [] && (t[0] == '+' || t[0] == '-') then t[1..] else t
  }

  function NatToString(n: nat): (r: string)
    ensures r != [] && forall i :: 0 <= i < |r| ==> IsDigit(r[i])
  {
    if n < 10 then [DigitChar(n)] else NatToString(n / 10) + [DigitChar(n % 10)]
  }

  /** `${n}` for an integer `n`. */
  function IntToString(n: int): (r: string)
    ensures r != []
  {
    if n < 0 then "-" + NatToString(-n) else NatToString(n)
  }

  lemma {:induction false} NatToStringValue(n: nat)
    ensures DigitsValue(NatToString(n)) == n
  {
    var r := NatToString(n);
    if n >= 10 {
      NatToStringValue(n / 10);
      assert r[..|r| - 1] == NatToString(n / 10);
    }
  }

  lemma DigitPrefixOfDigits(s: string)
    requires forall i :: 0 <= i < |s| ==> IsDigit(s[i])
    ensures DigitPrefix(s) == s
  {
  }

  /** Rendering an integer and parsing it back gives the same integer. */
  lemma IntToStringParses(n: int)
    ensures ParseInt(IntToString(n)) == Some(n)
  {
    var r := IntToString(n);
    var digits := NatToString(if n < 0 then -n else n);
    assert SkipSpaces(r, 0) == 0 && r[0..] == r;
    assert SignFree(r) == digits by {
      if n < 0 {
        assert r[1..] == digits;
      }
    }
    DigitPrefixOfDigits(digits);
    NatToStringValue(if n < 0 then -n else n);
  }
}
