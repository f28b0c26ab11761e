/**
 * The JavaScript string operations the pages use, with their JavaScript meaning:
 * `trim`, `toLowerCase` (over ASCII), `includes`, the regular expressions
 * `\S+@\S+\.\S+`, `^\d+$` and `^\d{10}$`, `replace(/\D/g, '')`, `Number.toString`
 * and `parseInt`.
 */
module Text {
  import opened Wrappers

  /** The characters of the `\s` class, which are also the ones `trim` removes. */
  predicate IsWhitespace(c: char) {
    || c == ' ' || c == '\t' || c == '\n' || c == '\U{B}' || c == '\U{C}' || c == '\r'
    || c == '\U{A0}' || c == '\U{1680}' || ('\U{2000}' <= c <= '\U{200A}')
    || c == '\U{2028}' || c == '\U{2029}' || c == '\U{202F}' || c == '\U{205F}'
    || c == '\U{3000}' || c == '\U{FEFF}'
  }

  predicate IsBlank(s: string) {
    forall i :: 0 <= i < |s| ==> IsWhitespace(s[i])
  }

  /** `\d`: the ten ASCII digits. */
  predicate IsDigit(c: char) {
    '0' <= c <= '9'
  }

  predicate AllDigitChars(s: string) {
    forall i :: 0 <= i < |s| ==> IsDigit(s[i])
  }

  /** `/^\d+$/.test(s)` */
  predicate IsDigitString(s: string) {
    |s| > 0 && AllDigitChars(s)
  }

  // ---------------------------------------------------------------- trim

  /** Removes the leading whitespace: what is left is a suffix that starts with a non-blank. */
  function TrimStart(s: string): (r: string)
    ensures |r| <= |s| && r == s[|s| - |r|..]
    ensures IsBlank(s[..|s| - |r|])
    ensures r == [] || !IsWhitespace(r[0])
  {
    if s != [] && IsWhitespace(s[0]) then
      var r := TrimStart(s[1..]);
      assert s[..|s| - |r|] == [s[0]] + s[1..][..|s| - 1 - |r|];
      r
    else
      s
  }

  /** Removes the trailing whitespace: what is left is a prefix that ends with a non-blank. */
  function TrimEnd(s: string): (r: string)
    ensures |r| <= |s| && r == s[..|r|]
    ensures IsBlank(s[|r|..])
    ensures r == [] || !IsWhitespace(r[|r| - 1])
  {
    if s != [] && IsWhitespace(s[|s| - 1]) then
      var r := TrimEnd(s[..|s| - 1]);
      assert s[|r|..] == s[..|s| - 1][|r|..] + [s[|s| - 1]];
      r
    else
      s
  }

  /** `s.trim()` */
  function Trim(s: string): string {
    TrimEnd(TrimStart(s))
  }

  /** `!s.trim()` holds exactly for the strings made only of whitespace, the empty one included. */
  lemma TrimEmptyIffBlank(s: string)
    ensures Trim(s) == [] <==> IsBlank(s)
  {
    var t := TrimStart(s);
    var k := |s| - |t|;
    if Trim(s) == [] {
      assert IsBlank(t[0..]);
      assert t == [];
      forall i | 0 <= i < |s| ensures IsWhitespace(s[i]) {
        assert s[..k][i] == s[i];
      }
    }
  }

  // ----------------------------------------------------------- lower case

  /** `toLowerCase` on one character, over the ASCII letters. */
  function LowerChar(c: char): (r: char)
    ensures IsDigit(r) <==> IsDigit(c)
    ensures IsWhitespace(r) <==> IsWhitespace(c)
  {
    if 'A' <= c <= 'Z' then (c as int - 'A' as int + 'a' as int) as char else c
  }

  /** `s.toLowerCase()` */
  function Lower(s: string): (r: string)
    ensures |r| == |s|
    ensures forall i :: 0 <= i < |s| ==> r[i] == LowerChar(s[i])
  {
    seq(|s|, i requires 0 <= i < |s| => LowerChar(s[i]))
  }

  /** Lower-casing twice is lower-casing once. */
  lemma LowerIdempotent(s: string)
    ensures Lower(Lower(s)) == Lower(s)
  {
  }

  // ------------------------------------------------------------- includes

  /** `t` occurs in `s` starting at index `i`. */
  predicate OccursAt(s: string, t: string, i: int) {
    0 <= i && i + |t| <= |s| && s[i..i + |t|] == t
  }

  /** `s.includes(t)` */
  predicate Contains(s: string, t: string) {
    exists i | 0 <= i <= |s| - |t| :: OccursAt(s, t, i)
  }

  /** An occurrence survives putting text around the string. */
  lemma ContainsInContext(a: string, s: string, b: string, t: string)
    requires Contains(s, t)
    ensures Contains(a + s + b, t)
  {
    var i :| 0 <= i <= |s| - |t| && OccursAt(s, t, i);
    assert (a + s + b)[|a| + i..|a| + i + |t|] == s[i..i + |t|];
    assert OccursAt(a + s + b, t, |a| + i);
  }

  // ---------------------------------------------------------- email regex

  /**
   * `/\S+@\S+\.\S+/.test(s)`. The pattern is not anchored, so it matches when some
   * part of `s` reads X@Y.Z with X, Y and Z non-empty runs of non-whitespace
   * (which may themselves hold '@' or '.'). Since one character on each side is
   * enough for X and Z, a match is an '@' at `at` and a '.' at `dot` with a
   * non-blank just before `at`, a non-blank just after `dot`, and at least one
   * character between them, none of them blank.
   */
  predicate MatchesEmailPattern(s: string) {
    exists at, dot | 1 <= at < dot < |s| - 1 :: EmailMatchAt(s, at, dot)
  }

  /** The '@' at `at` and the '.' at `dot` frame a match of the email pattern. */
  predicate EmailMatchAt(s: string, at: int, dot: int) {
    && 1 <= at && at + 1 < dot && dot < |s| - 1
    && s[at] == '@' && s[dot] == '.'
    && !IsWhitespace(s[at - 1]) && !IsWhitespace(s[dot + 1])
    && !HasBlank(s[at + 1..dot])
  }

  predicate HasBlank(s: string) {
    exists i | 0 <= i < |s| :: IsWhitespace(s[i])
  }

  /** Anything that matches has an '@' followed, later, by a '.', and at least five characters. */
  lemma EmailPatternShape(s: string)
    requires MatchesEmailPattern(s)
    ensures |s| >= 5
    ensures exists at, dot :: 0 <= at < dot < |s| && s[at] == '@' && s[dot] == '.'
  {
  }

  /** The pattern is unanchored: text around a matching string does not stop it matching. */
  lemma EmailPatternInContext(a: string, s: string, b: string)
    requires MatchesEmailPattern(s)
    ensures MatchesEmailPattern(a + s + b)
  {
    var at, dot :| 1 <= at < dot < |s| - 1 && EmailMatchAt(s, at, dot);
    var w := a + s + b;
    assert w[|a| + at + 1..|a| + dot] == s[at + 1..dot];
    assert w[|a| + at - 1] == s[at - 1] && w[|a| + dot + 1] == s[dot + 1];
    assert EmailMatchAt(w, |a| + at, |a| + dot);
  }

  /** The usual address matches, and so does one inside other text. */
  lemma EmailPatternAccepts()
    ensures MatchesEmailPattern("john@example.com")
    ensures MatchesEmailPattern("mail: a@b.c !")
  {
    var good := "john@example.com";
    assert !HasBlank(good[5..12]);
    assert EmailMatchAt(good, 4, 12);
    var inText := "mail: a@b.c !";
    assert inText[8..9] == "b";
    assert EmailMatchAt(inText, 7, 9);
  }

  /** No dot after the '@', nothing between '@' and '.', or a blank just before the '@':
      each of these fails. */
  lemma EmailPatternRejects()
    ensures !MatchesEmailPattern("john@example")
    ensures !MatchesEmailPattern("john@.com")
    ensures !MatchesEmailPattern("a @b.c")
  {
  }

  // ---------------------------------------------------------------- phone

  /** `s.replace(/\D/g, '')`: the digits of `s`, in order. */
  function Digits(s: string): (r: string)
    ensures |r| <= |s|
    ensures AllDigitChars(r)
    ensures AllDigitChars(s) ==> r == s
  {
    if s == [] then []
    else if IsDigit(s[0]) then [s[0]] + Digits(s[1..])
    else Digits(s[1..])
  }

  /** Stripping works piece by piece. */
  lemma {:induction false} DigitsAppend(a: string, b: string)
    ensures Digits(a + b) == Digits(a) + Digits(b)
  {
    if a == [] {
      assert a + b == b;
    } else {
      assert (a + b)[1..] == a[1..] + b;
      DigitsAppend(a[1..], b);
    }
  }

  /** Separators do not count: inserting non-digits anywhere leaves the digits unchanged. */
  lemma DigitsIgnoreSeparators(a: string, sep: string, b: string)
    requires forall i :: 0 <= i < |sep| ==> !IsDigit(sep[i])
    ensures Digits(a + sep + b) == Digits(a + b)
  {
    DigitsAppend(a + sep, b);
    DigitsAppend(a, sep);
    DigitsAppend(a, b);
    NoDigits(sep);
  }

  lemma {:induction false} NoDigits(s: string)
    requires forall i :: 0 <= i < |s| ==> !IsDigit(s[i])
    ensures Digits(s) == []
  {
    if s != [] {
      NoDigits(s[1..]);
    }
  }

  /** `/^\d{10}$/.test(t)` */
  predicate IsTenDigits(t: string) {
    |t| == 10 && AllDigitChars(t)
  }

  /** After stripping, the anchored ten-digit test is a count of the digits. */
  lemma TenDigitsAfterStripping(s: string)
    ensures IsTenDigits(Digits(s)) <==> |Digits(s)| == 10
  {
  }

  // ------------------------------------------------- numbers and strings

  function DigitChar(d: int): (c: char)
    requires 0 <= d < 10
    ensures IsDigit(c)
  {
    ('0' as int + d) as char
  }

  function DigitValue(c: char): (d: int)
    requires IsDigit(c)
    ensures 0 <= d < 10 && DigitChar(d) == c
  {
    c as int - '0' as int
  }

  /** Decimal notation of a natural number, without leading zeros. */
  function NatToString(n: nat): (r: string)
    ensures IsDigitString(r)
    ensures |r| >= 1
    ensures r == "0" <==> n == 0
    ensures r[0] != '0' || r == "0"
    decreases n
  {
    if n < 10 then [DigitChar(n)] else NatToString(n / 10) + [DigitChar(n % 10)]
  }

  /** `n.toString()` for an integer `n`. */
  function IntToString(n: int): string {
    if n < 0 then "-" + NatToString(-n) else NatToString(n)
  }

  /** Value of a string of decimal digits. */
  function DecimalValue(ds: string): nat
    requires AllDigitChars(ds)
  {
    if ds == [] then 0 else DecimalValue(ds[..|ds| - 1]) * 10 + DigitValue(ds[|ds| - 1])
  }

  /** The longest prefix of `s` made of digits. */
  function DigitPrefix(s: string): (r: string)
    ensures |r| <= |s| && r == s[..|r|]
    ensures AllDigitChars(r)
    ensures |r| == |s| || !IsDigit(s[|r|])
  {
    if s != [] && IsDigit(s[0]) then [s[0]] + DigitPrefix(s[1..]) else []
  }

  /**
   * `parseInt(s)` in base ten: leading whitespace is skipped, then an optional sign,
   * then the longest run of digits is read; no digits at all gives `NaN`, here `None`.
   */
  function ParseInt(s: string): Option<int> {
    ReadSigned(TrimStart(s))
  }

  /** What `parseInt` reads once the leading whitespace is skipped: an optional sign, then digits. */
  function ReadSigned(t: string): Option<int> {
    var negative := t != [] && t[0] == '-';
    var rest := if t != [] && (t[0] == '-' || t[0] == '+') then t[1..] else t;
    var ds := DigitPrefix(rest);
    if ds == [] then None
    else
      var value: int := DecimalValue(ds);
      Some(if negative then -value else value)
  }

  lemma {:induction false} DecimalValueOfNatToString(n: nat)
    ensures DecimalValue(NatToString(n)) == n
    decreases n
  {
    var r := NatToString(n);
    if n >= 10 {
      DecimalValueOfNatToString(n / 10);
      assert r[..|r| - 1] == NatToString(n / 10);
    }
  }

  lemma {:induction false} DigitPrefixOfDigits(s: string)
    requires AllDigitChars(s)
    ensures DigitPrefix(s) == s
  {
    if s != [] {
      DigitPrefixOfDigits(s[1..]);
    }
  }

  lemma TrimStartNoBlank(s: string)
    requires s == [] || !IsWhitespace(s[0])
    ensures TrimStart(s) == s
  {
  }

  /** `parseInt` of a non-empty digit string reads all of it. */
  lemma ParseIntOfDigits(ds: string)
    requires ds != [] && AllDigitChars(ds)
    ensures ParseInt(ds) == Some(DecimalValue(ds) as int)
  {
    assert IsDigit(ds[0]);
    TrimStartNoBlank(ds);
    DigitPrefixOfDigits(ds);
  }

  /** Text that starts with a minus sign is not trimmed. */
  lemma TrimStartMinus(t: string)
    requires t != [] && t[0] == '-'
    ensures TrimStart(t) == t
  {
    assert !IsWhitespace('-');
    TrimStartNoBlank(t);
  }

  /** After the sign is read, a minus sign followed by digits reads the negated value. */
  lemma ReadSignedNegative(t: string, ds: string)
    requires ds != [] && AllDigitChars(ds)
    requires t != [] && t[0] == '-' && t[1..] == ds
    ensures ReadSigned(t) == Some(-(DecimalValue(ds) as int))
  {
    DigitPrefixOfDigits(ds);
  }

  /** `parseInt` of a minus sign followed by a non-empty digit string reads the negated value. */
  lemma ParseIntOfNegativeDigits(ds: string)
    requires ds != [] && AllDigitChars(ds)
    ensures ParseInt("-" + ds) == Some(-(DecimalValue(ds) as int))
  {
    var t := "-" + ds;
    assert t != [] && t[0] == '-' && t[1..] == ds;
    TrimStartMinus(t);
    ReadSignedNegative(t, ds);
  }

  /** `parseInt` reads back what `toString` wrote, for every integer. */
  lemma ParseIntToString(n: int)
    ensures ParseInt(IntToString(n)) == Some(n)
  {
    var m: nat := if n < 0 then -n else n;
    DecimalValueOfNatToString(m);
    if n < 0 {
      ParseIntOfNegativeDigits(NatToString(m));
    } else {
      ParseIntOfDigits(NatToString(m));
    }
  }
}
