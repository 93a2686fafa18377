/**
 * The few Ruby string operations the aggregator relies on: `strip`, Rails'
 * `blank?`, ASCII case folding, `Integer#to_s`, `String#to_i` and the byte-wise
 * ordering that `sort_by` uses on strings.
 */
module Text {

  /** Characters `String#strip` removes at either end. */
  predicate IsStripSpace(c: char) {
    c == '\0' || c == '\t' || c == '\n' || c == '\U{B}' || c == '\U{C}' || c == '\r' || c == ' '
  }

  predicate AllStripSpace(s: string) {
    forall i :: 0 <= i < |s| ==> IsStripSpace(s[i])
  }

  function LStrip(s: string): string {
    if s != [] && IsStripSpace(s[0]) then LStrip(s[1..]) else s
  }

  function RStrip(s: string): string {
    if s != [] && IsStripSpace(s[|s| - 1]) then RStrip(s[..|s| - 1]) else s
  }

  /** `String#strip`. */
  function Strip(s: string): string {
    RStrip(LStrip(s))
  }

  lemma {:induction false} LStripEmpty(s: string)
    ensures LStrip(s) == [] <==> AllStripSpace(s)
    ensures LStrip(s) != [] ==> !IsStripSpace(LStrip(s)[0])
  {
    if s != [] && IsStripSpace(s[0]) {
      LStripEmpty(s[1..]);
      assert AllStripSpace(s) <==> AllStripSpace(s[1..]) by {
        if AllStripSpace(s[1..]) {
          forall i | 0 <= i < |s| ensures IsStripSpace(s[i]) {
            if i > 0 { assert s[i] == s[1..][i - 1]; }
          }
        }
      }
    }
  }

  lemma {:induction false} RStripEmpty(s: string)
    ensures RStrip(s) == [] <==> AllStripSpace(s)
  {
    if s != [] && IsStripSpace(s[|s| - 1]) {
      var t := s[..|s| - 1];
      RStripEmpty(t);
      assert AllStripSpace(s) <==> AllStripSpace(t) by {
        if AllStripSpace(t) {
          forall i | 0 <= i < |s| ensures IsStripSpace(s[i]) {
            if i < |s| - 1 { assert s[i] == t[i]; }
          }
        }
      }
    }
  }

  /** `s.strip.empty?` holds exactly when every character of `s` is one `strip` removes. */
  lemma StripEmptyIffAllSpace(s: string)
    ensures Strip(s) == [] <==> AllStripSpace(s)
  {
    LStripEmpty(s);
    RStripEmpty(LStrip(s));
  }

  /** `s[sub]` is not nil: `sub` occurs in `s`. */
  predicate HasSubstring(s: string, sub: string)
    decreases |s|
  {
    |sub| <= |s| && (s[..|sub|] == sub || HasSubstring(s[1..], sub))
  }

  /** Characters of the POSIX class [[:space:]] in a Unicode regexp, which Rails' `blank?` uses. */
  predicate IsBlankSpace(c: char) {
    c == '\t' || c == '\n' || c == '\U{B}' || c == '\U{C}' || c == '\r' || c == ' '
    || c == '\U{85}' || c == '\U{A0}' || c == '\U{1680}'
    || ('\U{2000}' <= c <= '\U{200A}')
    || c == '\U{2028}' || c == '\U{2029}' || c == '\U{202F}' || c == '\U{205F}' || c == '\U{3000}'
  }

  /** Rails' `String#blank?`: empty or whitespace only. */
  predicate BlankString(s: string) {
    forall i :: 0 <= i < |s| ==> IsBlankSpace(s[i])
  }

  function AsciiDown(c: char): char {
    if 'A' <= c <= 'Z' then (c as int + 32) as char else c
  }

  /** Downcasing restricted to ASCII, which is also what `casecmp` folds. */
  function Downcase(s: string): (r: string)
    ensures |r| == |s|
    ensures forall i :: 0 <= i < |s| ==> r[i] == AsciiDown(s[i])
  {
    if s == [] then [] else [AsciiDown(s[0])] + Downcase(s[1..])
  }

  function AsciiUp(c: char): char {
    if 'a' <= c <= 'z' then (c as int - 32) as char else c
  }

  function Upcase(s: string): (r: string)
    ensures |r| == |s|
    ensures forall i :: 0 <= i < |s| ==> r[i] == AsciiUp(s[i])
  {
    if s == [] then [] else [AsciiUp(s[0])] + Upcase(s[1..])
  }

  lemma {:induction false} LStripUpcase(s: string)
    ensures LStrip(Upcase(s)) == Upcase(LStrip(s))
  {
    if s != [] {
      assert Upcase(s)[1..] == Upcase(s[1..]);
      if IsStripSpace(s[0]) {
        LStripUpcase(s[1..]);
      }
    }
  }

  lemma {:induction false} RStripUpcase(s: string)
    ensures RStrip(Upcase(s)) == Upcase(RStrip(s))
  {
    if s != [] {
      assert Upcase(s)[..|s| - 1] == Upcase(s[..|s| - 1]);
      if IsStripSpace(s[|s| - 1]) {
        RStripUpcase(s[..|s| - 1]);
      }
    }
  }

  lemma AsciiDownUp(c: char)
    ensures AsciiDown(AsciiUp(c)) == AsciiDown(c)
  {
  }

  lemma DowncaseUpcase(t: string)
    ensures Downcase(Upcase(t)) == Downcase(t)
  {
    var a, b := Downcase(Upcase(t)), Downcase(t);
    forall i | 0 <= i < |t| ensures a[i] == b[i] {
      AsciiDownUp(t[i]);
    }
  }

  /** Upcasing before stripping and downcasing changes nothing. */
  lemma StripDowncaseUpcase(s: string)
    ensures Downcase(Strip(Upcase(s))) == Downcase(Strip(s))
  {
    LStripUpcase(s);
    RStripUpcase(LStrip(s));
    DowncaseUpcase(Strip(s));
  }

  /** `a.casecmp(b).zero?`: equality up to ASCII case. */
  predicate CaseCmpEqual(a: string, b: string) {
    Downcase(a) == Downcase(b)
  }

  predicate IsDigit(c: char) {
    '0' <= c <= '9'
  }

  function DigitChar(d: nat): char
    requires d < 10
  {
    ('0' as int + d) as char
  }

  function NatToString(n: nat): (r: string)
    ensures r != [] && forall i :: 0 <= i < |r| ==> IsDigit(r[i])
  {
    if n < 10 then [DigitChar(n)] else NatToString(n / 10) + [DigitChar(n % 10)]
  }

  /** `Integer#to_s`. */
  function IntToString(n: int): string {
    if n < 0 then "-" + NatToString(-n) else NatToString(n)
  }

  /** Characters `String#to_i` skips before the number. */
  predicate IsCSpace(c: char) {
    c == ' ' || c == '\t' || c == '\n' || c == '\U{B}' || c == '\U{C}' || c == '\r'
  }

  function SkipCSpace(s: string): string {
    if s != [] && IsCSpace(s[0]) then SkipCSpace(s[1..]) else s
  }

  /**
   * The digits of the longest prefix of `s` made of digits, where a single
   * underscore may stand between two digits; the underscores are dropped.
   */
  function LeadingDigits(s: string): (r: string)
    ensures |r| <= |s|
    ensures r != [] <==> s != [] && IsDigit(s[0])
    ensures r != [] ==> r[0] == s[0]
    ensures forall i :: 0 <= i < |r| ==> IsDigit(r[i])
  {
    if s != [] && IsDigit(s[0]) then
      if |s| >= 3 && s[1] == '_' && IsDigit(s[2]) then [s[0]] + LeadingDigits(s[2..])
      else [s[0]] + LeadingDigits(s[1..])
    else []
  }

  function DigitsValue(d: string): nat
    requires forall i :: 0 <= i < |d| ==> IsDigit(d[i])
  {
    if d == [] then 0
    else
      assert IsDigit(d[|d| - 1]);
      DigitsValue(d[..|d| - 1]) * 10 + (d[|d| - 1] as int - '0' as int) as nat
  }

  /** `String#to_i` for base ten: leading C whitespace, an optional sign, then digits. */
  function StrToI(s: string): int {
    var t := SkipCSpace(s);
    if t != [] && t[0] == '-' then 0 - DigitsValue(LeadingDigits(t[1..])) as int
    else if t != [] && t[0] == '+' then DigitsValue(LeadingDigits(t[1..]))
    else DigitsValue(LeadingDigits(t))
  }

  lemma {:induction false} LeadingDigitsOfDigits(s: string)
    requires forall i :: 0 <= i < |s| ==> IsDigit(s[i])
    ensures LeadingDigits(s) == s
  {
    if s != [] {
      LeadingDigitsOfDigits(s[1..]);
    }
  }

  lemma {:induction false} NatToStringValue(n: nat)
    ensures DigitsValue(NatToString(n)) == n
  {
    if n >= 10 {
      NatToStringValue(n / 10);
      var r := NatToString(n);
      assert r[..|r| - 1] == NatToString(n / 10);
    }
  }

  /** `n.to_s.to_i == n`: the decimal rendering and the parser agree. */
  lemma IntToStringRoundTrip(n: int)
    ensures StrToI(IntToString(n)) == n
  {
    var m := if n < 0 then -n else n;
    var d := NatToString(m);
    LeadingDigitsOfDigits(d);
    NatToStringValue(m);
    var t := IntToString(n);
    assert IsDigit(d[0]);
    assert SkipCSpace(t) == t by { assert !IsCSpace(t[0]); }
    if n < 0 {
      assert t[0] == '-' && t[1..] == d;
    } else {
      assert t == d && t[0] != '-' && t[0] != '+';
    }
  }

  /** A single underscore between digits is skipped: `"1_0".to_i == 10`. */
  lemma StrToIUnderscore()
    ensures StrToI("1_0") == 10
  {
    assert SkipCSpace("1_0") == "1_0";
    assert LeadingDigits("0") == "0";
    assert LeadingDigits("1_0") == "10";
    assert DigitsValue("1") == 1;
  }

  /** A doubled underscore ends the number: `"1__0".to_i == 1`. */
  lemma StrToIDoubleUnderscore()
    ensures StrToI("1__0") == 1
  {
    assert SkipCSpace("1__0") == "1__0";
    assert LeadingDigits("__0") == "";
    assert LeadingDigits("1__0") == "1";
  }

  /** Byte-wise string comparison, `a <= b` in Ruby (UTF-8 preserves code point order). */
  predicate StrLe(a: string, b: string) {
    a == [] || (b != [] && (a[0] < b[0] || (a[0] == b[0] && StrLe(a[1..], b[1..]))))
  }

  lemma {:induction false} StrLeTotal(a: string, b: string)
    ensures StrLe(a, b) || StrLe(b, a)
  {
    if a != [] && b != [] && a[0] == b[0] {
      StrLeTotal(a[1..], b[1..]);
    }
  }

  lemma {:induction false} StrLeTransitive(a: string, b: string, c: string)
    requires StrLe(a, b) && StrLe(b, c)
    ensures StrLe(a, c)
  {
    if a != [] && a[0] == b[0] && b[0] == c[0] {
      StrLeTransitive(a[1..], b[1..], c[1..]);
    }
  }

  lemma {:induction false} StrLeAntisymmetric(a: string, b: string)
    requires StrLe(a, b) && StrLe(b, a)
    ensures a == b
  {
    if a != [] && b != [] {
      StrLeAntisymmetric(a[1..], b[1..]);
      assert a == [a[0]] + a[1..];
      assert b == [b[0]] + b[1..];
    }
  }
}
