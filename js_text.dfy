/**
 * The JavaScript string operations the save path and the editor rely on:
 * `String.prototype.trim` (and the truthiness of its result), the global
 * newline replacement `s.replace(/\n/g, '<br>')`, and the decimal rendering
 * of a non-negative integer `Number` inside a template literal.
 */
module JsText {

  datatype Option<+T> = None | Some(value: T)

  // ---------------------------------------------------------------------------
  // trim
  // ---------------------------------------------------------------------------

  /** The code points `trim` strips: ECMAScript WhiteSpace (TAB, VT, FF, ZWNBSP
      and every space separator) and LineTerminator (LF, CR, LS, PS). */
  predicate IsWhitespace(c: char) {
    || c == '\t' || c == '\n' || c == '\U{000B}' || c == '\U{000C}' || c == '\r'
    || c == ' ' || c == '\U{00A0}' || c == '\U{1680}'
    || ('\U{2000}' <= c <= '\U{200A}')
    || c == '\U{2028}' || c == '\U{2029}' || c == '\U{202F}' || c == '\U{205F}'
    || c == '\U{3000}' || c == '\U{FEFF}'
  }

  /** `s` contains a character that `trim` would keep. */
  ghost predicate HasVisibleChar(s: string) {
    exists i :: 0 <= i < |s| && !IsWhitespace(s[i])
  }

  /** Strips leading whitespace: the result is a suffix of `s`, everything cut
      off is whitespace, and the result does not start with whitespace. */
  function TrimStart(s: string): (r: string)
    ensures |r| <= |s| && r == s[|s| - |r|..]
    ensures forall i :: 0 <= i < |s| - |r| ==> IsWhitespace(s[i])
    ensures r == [] || !IsWhitespace(r[0])
  {
    if |s| > 0 && IsWhitespace(s[0]) then TrimStart(s[1..]) else s
  }

  /** Strips trailing whitespace: the result is a prefix of `s`, everything cut
      off is whitespace, and the result does not end with whitespace. */
  function TrimEnd(s: string): (r: string)
    ensures |r| <= |s| && r == s[..|r|]
    ensures forall i :: |r| <= i < |s| ==> IsWhitespace(s[i])
    ensures r == [] || !IsWhitespace(r[|r| - 1])
  {
    if |s| > 0 && IsWhitespace(s[|s| - 1]) then TrimEnd(s[..|s| - 1]) else s
  }

  /** `s.trim()`: with `k` leading whitespace characters cut off, the first
      `|r|` characters of what remains, where only whitespace lies outside
      that part and the part neither starts nor ends with whitespace. */
  function Trim(s: string): (r: string)
    ensures var k := |s| - |TrimStart(s)|;
            && k + |r| <= |s| && s[k..][..|r|] == r
            && (forall i :: 0 <= i < k ==> IsWhitespace(s[i]))
            && (forall i :: k + |r| <= i < |s| ==> IsWhitespace(s[i]))
    ensures r == [] || (!IsWhitespace(r[0]) && !IsWhitespace(r[|r| - 1]))
  {
    var t := TrimStart(s);
    var r := TrimEnd(t);
    TrimOfParts(s, |s| - |t|, t, r);
    r
  }

  /** Cutting leading whitespace (up to `k`) and then trailing whitespace
      leaves a part of `s` with only whitespace around it. */
  lemma TrimOfParts(s: string, k: nat, t: string, r: string)
    requires k <= |s| && t == s[k..] && |r| <= |t| && r == t[..|r|]
    requires forall i :: |r| <= i < |t| ==> IsWhitespace(t[i])
    requires t == [] || !IsWhitespace(t[0])
    ensures k + |r| <= |s| && s[k..][..|r|] == r
    ensures forall i :: k + |r| <= i < |s| ==> IsWhitespace(s[i])
    ensures r == [] || !IsWhitespace(r[0])
  {
    forall i | k + |r| <= i < |s|
      ensures IsWhitespace(s[i])
    {
      assert s[i] == t[i - k];
    }
    assert r != [] ==> r[0] == t[0];
  }

  /** `!s.trim()`: the trimmed string is empty, hence falsy. That happens
      exactly when `s` has no character `trim` would keep. */
  predicate IsBlank(s: string)
    ensures IsBlank(s) <==> !HasVisibleChar(s)
  {
    var r := Trim(s);
    var k := |s| - |TrimStart(s)|;
    assert r != [] ==> s[k] == s[k..][..|r|][0] == r[0] && !IsWhitespace(s[k]);
    r == []
  }

  // ---------------------------------------------------------------------------
  // content.replace(/\n/g, '<br>')
  // ---------------------------------------------------------------------------

  const BreakTag: string := "<br>"

  /** Number of occurrences of `c` in `s`. */
  function Occurrences(s: string, c: char): nat {
    if s == [] then 0 else (if s[0] == c then 1 else 0) + Occurrences(s[1..], c)
  }

  /** `s` contains the four characters `<br>` somewhere. */
  predicate HasBreakTag(s: string) {
    |s| >= 4 && (s[..4] == BreakTag || HasBreakTag(s[1..]))
  }

  /** `s.replace(/\n/g, '<br>')`: no newline is left, each newline grew into
      four characters, and a string without newlines comes back unchanged
      (HTML-significant characters such as `<` and `&` are not escaped). */
  function ReplaceNewlines(s: string): (r: string)
    ensures '\n' !in r
    ensures |r| == |s| + 3 * Occurrences(s, '\n')
    ensures '\n' !in s ==> r == s
  {
    if s == [] then []
    else (if s[0] == '\n' then BreakTag else [s[0]]) + ReplaceNewlines(s[1..])
  }

  /** The replacement works character by character, so it distributes over
      concatenation: every non-newline character stays in place and in order. */
  lemma {:induction false} ReplaceNewlinesAppend(a: string, b: string)
    ensures ReplaceNewlines(a + b) == ReplaceNewlines(a) + ReplaceNewlines(b)
  {
    if a != [] {
      var head := if a[0] == '\n' then BreakTag else [a[0]];
      assert (a + b)[0] == a[0];
      assert (a + b)[1..] == a[1..] + b;
      assert ReplaceNewlines(a + b) == head + ReplaceNewlines(a[1..] + b);
      assert ReplaceNewlines(a) == head + ReplaceNewlines(a[1..]);
      ReplaceNewlinesAppend(a[1..], b);
    } else {
      assert a + b == b;
    }
  }

  /** Two newline-free lines joined by a newline come out joined by `<br>`. */
  lemma ReplaceNewlinesJoin(a: string, b: string)
    requires '\n' !in a && '\n' !in b
    ensures ReplaceNewlines(a + "\n" + b) == a + BreakTag + b
  {
    var nl := "\n";
    ReplaceNewlinesAppend(a + nl, b);
    ReplaceNewlinesAppend(a, nl);
    assert nl[1..] == [];
    assert ReplaceNewlines(nl) == BreakTag;
    assert ReplaceNewlines(a) == a;
    assert ReplaceNewlines(b) == b;
  }

  /** The inverse reading: every `<br>` becomes a newline again, scanning from
      the left. */
  function RestoreNewlines(t: string): string {
    if |t| >= 4 && t[..4] == BreakTag then "\n" + RestoreNewlines(t[4..])
    else if t == [] then []
    else [t[0]] + RestoreNewlines(t[1..])
  }

  /** A newline-free prefix passes through the replacement unchanged. */
  lemma ReplaceNewlinesPrefix(s: string, k: nat)
    requires k <= |s| && forall i :: 0 <= i < k ==> s[i] != '\n'
    ensures ReplaceNewlines(s) == s[..k] + ReplaceNewlines(s[k..])
  {
    assert s == s[..k] + s[k..];
    ReplaceNewlinesAppend(s[..k], s[k..]);
    assert '\n' !in s[..k];
  }

  /** When `s` neither contains `<br>` nor starts with a newline, its
      replacement does not start with `<br>` either: a newline among the next
      three characters puts a `<` where `b`, `r` or `>` would have to be. */
  lemma NoBreakAtStart(s: string)
    requires s != [] && s[0] != '\n' && !HasBreakTag(s)
    ensures !(|ReplaceNewlines(s)| >= 4 && ReplaceNewlines(s)[..4] == BreakTag)
  {
    var r := ReplaceNewlines(s);
    var p := NewlineFreePrefix(s);
    if p < 4 && p < |s| {
      // the first newline sits at 1, 2 or 3 and becomes a `<`
      ReplaceNewlinesPrefix(s, p);
      assert s[p..][0] == '\n';
      assert ReplaceNewlines(s[p..]) == BreakTag + ReplaceNewlines(s[p + 1..]) by {
        assert s[p..][1..] == s[p + 1..];
      }
      assert r[p] == '<';
      assert |r| >= 4 ==> r[..4][p] == r[p] != BreakTag[p];
    } else {
      var n := if |s| < 4 then |s| else 4;
      ReplaceNewlinesPrefix(s, n);
      if |s| >= 4 {
        assert s[..4] != BreakTag;
        assert r[..4] == s[..4];
      } else {
        assert s[n..] == [];
      }
    }
  }

  /** The length of the longest newline-free prefix of `s`. */
  ghost function NewlineFreePrefix(s: string): (p: nat)
    ensures p <= |s| && (forall i :: 0 <= i < p ==> s[i] != '\n')
    ensures p < |s| ==> s[p] == '\n'
  {
    if s == [] || s[0] == '\n' then 0 else 1 + NewlineFreePrefix(s[1..])
  }

  /** Round trip: for content that does not already contain `<br>`, restoring
      the replaced text gives the content back. ReplaceNewlinesNotInjective
      shows why the precondition is needed. */
  lemma {:induction false} RestoreReplaceNewlines(s: string)
    requires !HasBreakTag(s)
    ensures RestoreNewlines(ReplaceNewlines(s)) == s
  {
    if s != [] {
      var rest := ReplaceNewlines(s[1..]);
      assert !HasBreakTag(s[1..]);
      RestoreReplaceNewlines(s[1..]);
      if s[0] == '\n' {
        assert ReplaceNewlines(s) == BreakTag + rest;
        assert (BreakTag + rest)[4..] == rest;
      } else {
        assert ReplaceNewlines(s) == [s[0]] + rest;
        NoBreakAtStart(s);
        assert ([s[0]] + rest)[1..] == rest;
        assert s == [s[0]] + s[1..];
      }
    }
  }

  /** A string that does contain `<br>` is not recovered: the replacement loses
      the difference between a newline and a literal `<br>`, which is why
      RestoreReplaceNewlines (and the HTML round trip built on it) requires
      content free of `<br>`. */
  lemma ReplaceNewlinesNotInjective()
    ensures ReplaceNewlines("\n") == ReplaceNewlines(BreakTag)
  {
    assert ReplaceNewlines("\n") == BreakTag + ReplaceNewlines([]);
  }

  // ---------------------------------------------------------------------------
  // `${n}` for a non-negative integer Number
  // ---------------------------------------------------------------------------

  predicate IsDigit(c: char) {
    '0' <= c <= '9'
  }

  function DigitChar(d: nat): (c: char)
    requires d < 10
    ensures IsDigit(c) && DigitValue(c) == d
  {
    ('0' as int + d) as char
  }

  function DigitValue(c: char): (d: nat)
    requires IsDigit(c)
    ensures d < 10
  {
    c as int - '0' as int
  }

  lemma DigitCharOfValue(c: char)
    requires IsDigit(c)
    ensures DigitChar(DigitValue(c)) == c
  {
  }

  /** A numeral as `${n}` writes one: at least one digit, digits only, and no
      leading zero unless it is "0" itself. */
  predicate IsCanonicalNumeral(s: string) {
    && |s| >= 1
    && (forall i :: 0 <= i < |s| ==> IsDigit(s[i]))
    && (s[0] == '0' ==> |s| == 1)
  }

  /** The shortest decimal numeral of `n`: digits only, no leading zero. */
  function Decimal(n: nat): (s: string)
    ensures |s| >= 1
    ensures forall i :: 0 <= i < |s| ==> IsDigit(s[i])
    ensures s[0] == '0' ==> n == 0 && s == "0"
    decreases n
  {
    if n < 10 then [DigitChar(n)] else Decimal(n / 10) + [DigitChar(n % 10)]
  }

  /** The value of a string of decimal digits. */
  function DecimalValue(s: string): nat
    requires forall i :: 0 <= i < |s| ==> IsDigit(s[i])
  {
    if s == [] then 0
    else 10 * DecimalValue(s[..|s| - 1]) + DigitValue(s[|s| - 1])
  }

  /** Reading the numeral back gives the number. */
  lemma {:induction false} DecimalValueOfDecimal(n: nat)
    ensures DecimalValue(Decimal(n)) == n
    decreases n
  {
    var s := Decimal(n);
    if n >= 10 {
      DecimalValueOfDecimal(n / 10);
      assert s[..|s| - 1] == Decimal(n / 10);
    }
  }

  /** A numeral without a leading zero has a non-zero leading digit's worth. */
  lemma {:induction false} CanonicalNumeralPositive(s: string)
    requires IsCanonicalNumeral(s) && s[0] != '0'
    ensures DecimalValue(s) > 0
    decreases |s|
  {
    if |s| > 1 {
      var p := s[..|s| - 1];
      assert p[0] == s[0];
      CanonicalNumeralPositive(p);
    }
  }

  /** The converse round trip: a canonical numeral is the numeral of its
      value, so each number has exactly one canonical numeral. */
  lemma {:induction false} DecimalOfDecimalValue(s: string)
    requires IsCanonicalNumeral(s)
    ensures Decimal(DecimalValue(s)) == s
    decreases |s|
  {
    var n := DecimalValue(s);
    var d := DigitValue(s[|s| - 1]);
    DigitCharOfValue(s[|s| - 1]);
    if |s| > 1 {
      var p := s[..|s| - 1];
      assert p[0] == s[0];
      CanonicalNumeralPositive(p);
      DecimalOfDecimalValue(p);
      assert n == 10 * DecimalValue(p) + d;
      assert n / 10 == DecimalValue(p) && n % 10 == d;
      assert s == p + [s[|s| - 1]];
    }
  }

  /** Distinct numbers have distinct numerals. */
  lemma DecimalInjective(a: nat, b: nat)
    requires Decimal(a) == Decimal(b)
    ensures a == b
  {
    DecimalValueOfDecimal(a);
    DecimalValueOfDecimal(b);
  }
}
