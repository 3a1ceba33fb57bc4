/** The pieces of Python's `str` behaviour the evaluator relies on:
    `str.isspace`, `str.strip()` with no argument, the decimal text of an
    `int`, `repr` of a `str`, and the text `float()` accepts. */
module PyText {

  /** `c.isspace()` for one character: the ASCII whitespace and separator
      controls plus the Unicode space separators. */
  predicate IsSpace(c: char) {
    var n := c as int;
    (9 <= n <= 13) || (28 <= n <= 32) || n == 0x85 || n == 0xA0 || n == 0x1680
    || (0x2000 <= n <= 0x200A) || n == 0x2028 || n == 0x2029 || n == 0x202F
    || n == 0x205F || n == 0x3000
  }

  predicate AllSpace(s: string) {
    forall k :: 0 <= k < |s| ==> IsSpace(s[k])
  }

  /** No whitespace at either end: what `strip()` leaves behind. */
  predicate Stripped(s: string) {
    s == [] || (!IsSpace(s[0]) && !IsSpace(s[|s| - 1]))
  }

  /** Index of the first character that is not whitespace (`|s|` if none). */
  function TextStart(s: string): (i: nat)
    ensures i <= |s|
    ensures forall k :: 0 <= k < i ==> IsSpace(s[k])
    ensures i == |s| || !IsSpace(s[i])
  {
    if |s| == 0 || !IsSpace(s[0]) then 0 else 1 + TextStart(s[1..])
  }

  /** One past the last character that is not whitespace (`0` if none). */
  function TextEnd(s: string): (j: nat)
    ensures j <= |s|
    ensures forall k :: j <= k < |s| ==> IsSpace(s[k])
    ensures j == 0 || !IsSpace(s[j - 1])
  {
    if |s| == 0 || !IsSpace(s[|s| - 1]) then |s| else TextEnd(s[..|s| - 1])
  }

  /** `s.strip()`. */
  function Strip(s: string): (t: string)
    ensures Stripped(t)
    ensures t == [] <==> AllSpace(s)
    ensures |t| <= |s|
  {
    var i, j := TextStart(s), TextEnd(s);
    if i < j then s[i..j] else []
  }

  /** Stripping a stripped string changes nothing, so `strip()` is idempotent. */
  lemma StripStripped(s: string)
    requires Stripped(s)
    ensures Strip(s) == s
  {
    if s != [] {
      assert TextStart(s) == 0;
      assert TextEnd(s) == |s|;
    }
  }

  /** What `strip()` removes is whitespace only: the result is the part of
      `s` between a whitespace prefix and a whitespace suffix. */
  lemma StripIsInfix(s: string)
    ensures exists i, j ::
              0 <= i <= j <= |s| && Strip(s) == s[i..j] && AllSpace(s[..i]) && AllSpace(s[j..])
  {
    var i, j := TextStart(s), TextEnd(s);
    if i < j {
      assert AllSpace(s[..i]) && AllSpace(s[j..]);
    } else {
      assert AllSpace(s[..0]) && AllSpace(s[0..]);
      assert Strip(s) == s[0..0];
    }
  }

  // ---------------------------------------------------------------- int

  function DigitChar(d: nat): char
    requires d < 10
  {
    "0123456789"[d]
  }

  function NatText(n: nat): (s: string)
    ensures |s| > 0
    ensures forall k :: 0 <= k < |s| ==> '0' <= s[k] <= '9'
  {
    if n < 10 then [DigitChar(n)] else NatText(n / 10) + [DigitChar(n % 10)]
  }

  /** `str(i)` for an `int`. */
  function IntText(i: int): string {
    if i < 0 then "-" + NatText(-i) else NatText(i)
  }

  // ---------------------------------------------------------------- repr

  function HexDigit(d: nat): char
    requires d < 16
  {
    "0123456789abcdef"[d]
  }

  /** One character of a `str` repr, with `q` the quote being used. */
  function EscapeChar(c: char, q: char): string {
    if c == '\\' then "\\\\"
    else if c == q then ['\\', q]
    else if c == '\n' then "\\n"
    else if c == '\r' then "\\r"
    else if c == '\t' then "\\t"
    else if (c as int) < 32 || c as int == 127 then
      ['\\', 'x', HexDigit(c as int / 16), HexDigit(c as int % 16)]
    else [c]
  }

  function Escape(s: string, q: char): string {
    if s == [] then [] else Escape(s[..|s| - 1], q) + EscapeChar(s[|s| - 1], q)
  }

  /** `repr(s)` for a `str`: single quotes unless the text holds a single
      quote and no double quote. */
  function StrRepr(s: string): (r: string)
    ensures |r| >= 2 && r[0] == r[|r| - 1] && (r[0] == '\'' || r[0] == '"')
  {
    var q := if '\'' in s && '"' !in s then '"' else '\'';
    [q] + Escape(s, q) + [q]
  }

  // ---------------------------------------------------------------- float

  predicate IsDigit(c: char) { '0' <= c <= '9' }

  predicate Digits(s: string) {
    |s| > 0 && forall k :: 0 <= k < |s| ==> IsDigit(s[k])
  }

  function Lower(c: char): char {
    if 'A' <= c <= 'Z' then (c as int + 32) as char else c
  }

  function LowerText(s: string): (t: string)
    ensures |t| == |s|
  {
    if s == [] then [] else LowerText(s[..|s| - 1]) + [Lower(s[|s| - 1])]
  }

  /** First index of `c` in `s`, or `|s|` when it does not occur. */
  function IndexOf(s: string, c: char): (i: nat)
    ensures i <= |s|
    ensures i < |s| ==> s[i] == c
    ensures forall k :: 0 <= k < i ==> s[k] != c
  {
    if s == [] || s[0] == c then 0 else 1 + IndexOf(s[1..], c)
  }

  /** `digits`, `digits.`, `digits.digits` or `.digits`. */
  predicate Mantissa(m: string) {
    var p := IndexOf(m, '.');
    if p == |m| then Digits(m)
    else
      var whole, frac := m[..p], m[p + 1..];
      (whole == [] || Digits(whole)) && (frac == [] || Digits(frac))
      && (whole != [] || frac != [])
  }

  predicate Exponent(e: string) {
    if |e| > 0 && (e[0] == '+' || e[0] == '-') then Digits(e[1..]) else Digits(e)
  }

  /** An unsigned decimal literal with an optional exponent. */
  predicate DecimalLiteral(b: string) {
    var e := IndexOf(LowerText(b), 'e');
    if e == |b| then Mantissa(b) else Mantissa(b[..e]) && Exponent(b[e + 1..])
  }

  /** The whitespace `float()` strips from its argument: ASCII tab to
      carriage return and space, and every non-ASCII whitespace character
      (CPython turns those into spaces before stripping). The separators
      U+001C to U+001F, which `isspace` accepts, are not stripped. */
  predicate IsFloatSpace(c: char) {
    IsSpace(c) && !(28 <= c as int <= 31)
  }

  function FloatTextStart(s: string): (i: nat)
    ensures i <= |s|
    ensures forall k :: 0 <= k < i ==> IsFloatSpace(s[k])
    ensures i == |s| || !IsFloatSpace(s[i])
  {
    if |s| == 0 || !IsFloatSpace(s[0]) then 0 else 1 + FloatTextStart(s[1..])
  }

  function FloatTextEnd(s: string): (j: nat)
    ensures j <= |s|
    ensures forall k :: j <= k < |s| ==> IsFloatSpace(s[k])
    ensures j == 0 || !IsFloatSpace(s[j - 1])
  {
    if |s| == 0 || !IsFloatSpace(s[|s| - 1]) then |s| else FloatTextEnd(s[..|s| - 1])
  }

  /** The text `float()` goes on to parse once surrounding whitespace is
      gone. */
  function FloatStrip(s: string): (t: string)
    ensures t == [] || (!IsFloatSpace(t[0]) && !IsFloatSpace(t[|t| - 1]))
    ensures |t| <= |s|
  {
    var i, j := FloatTextStart(s), FloatTextEnd(s);
    if i < j then s[i..j] else []
  }

  lemma FloatStripStripped(s: string)
    requires s == [] || (!IsFloatSpace(s[0]) && !IsFloatSpace(s[|s| - 1]))
    ensures FloatStrip(s) == s
  {
    if s != [] {
      assert FloatTextStart(s) == 0;
      assert FloatTextEnd(s) == |s|;
    }
  }

  /** The text that `float(text)` parses instead of raising `ValueError`:
      surrounding whitespace, an optional sign, then a decimal literal or one
      of `inf`, `infinity`, `nan` in any case. */
  predicate FloatLiteral(text: string) {
    var t := FloatStrip(text);
    var body := if |t| > 0 && (t[0] == '+' || t[0] == '-') then t[1..] else t;
    var word := LowerText(body);
    word == "inf" || word == "infinity" || word == "nan" || DecimalLiteral(body)
  }

  /** `float()` strips its argument first, so stripping the text beforehand
      does not change whether it converts. */
  lemma FloatLiteralIgnoresSpace(text: string)
    ensures FloatLiteral(FloatStrip(text)) <==> FloatLiteral(text)
  {
    FloatStripStripped(FloatStrip(text));
  }

  lemma {:induction false} LowerTextAt(s: string)
    ensures forall k :: 0 <= k < |s| ==> LowerText(s)[k] == Lower(s[k])
    decreases |s|
  {
    if s != [] {
      LowerTextAt(s[..|s| - 1]);
    }
  }

  /** A stripped text that starts with neither a sign nor the first letter
      of a special word is accepted by `float()` exactly when it is a decimal
      literal. */
  lemma PlainFloatLiteral(b: string)
    requires |b| > 0 && b[0] != '+' && b[0] != '-' && Lower(b[0]) != 'i' && Lower(b[0]) != 'n'
    requires FloatStrip(b) == b
    ensures FloatLiteral(b) <==> DecimalLiteral(b)
  {
    LowerTextAt(b);
    assert LowerText(b)[0] == Lower(b[0]);
  }

  lemma DecimalDigit()
    ensures DecimalLiteral("1")
  {
    assert LowerText("1") == "1" by { LowerTextAt("1"); }
    assert IndexOf("1", 'e') == 1 && IndexOf("1", '.') == 1;
  }

  lemma DecimalPoint()
    ensures DecimalLiteral("1.5")
  {
    assert LowerText("1.5") == "1.5" by { LowerTextAt("1.5"); }
    assert IndexOf("1.5", 'e') == 3;
    assert IndexOf("1.5", '.') == 1;
    assert "1.5"[..1] == "1" && "1.5"[2..] == "5";
  }

  lemma DecimalExponent()
    ensures DecimalLiteral("1e-3")
  {
    assert LowerText("1e-3") == "1e-3" by { LowerTextAt("1e-3"); }
    assert IndexOf("1e-3", 'e') == 1;
    assert "1e-3"[..1] == "1" && "1e-3"[2..] == "-3" && "-3"[1..] == "3";
    assert IndexOf("1", '.') == 1;
  }

  lemma DecimalBareExponent()
    ensures !DecimalLiteral("1.5e")
  {
    assert LowerText("1.5e") == "1.5e" by { LowerTextAt("1.5e"); }
    assert IndexOf("1.5e", 'e') == 3;
    assert "1.5e"[4..] == [];
  }

  /** `float()` accepts digits, `float("1")`, digits with a fraction,
      `float("1.5")`, and digits with a signed exponent, `float("1e-3")`. */
  lemma FloatAcceptsDecimal()
    ensures FloatLiteral("1")
    ensures FloatLiteral("1.5")
    ensures FloatLiteral("1e-3")
  {
    FloatStripStripped("1");
    FloatStripStripped("1.5");
    FloatStripStripped("1e-3");
    PlainFloatLiteral("1");
    PlainFloatLiteral("1.5");
    PlainFloatLiteral("1e-3");
    DecimalDigit();
    DecimalPoint();
    DecimalExponent();
  }

  /** `float("1.5e")` raises: an exponent marker needs digits after it. */
  lemma FloatRejectsBareExponent()
    ensures !FloatLiteral("1.5e")
  {
    FloatStripStripped("1.5e");
    PlainFloatLiteral("1.5e");
    DecimalBareExponent();
  }

  /** `float(".")` and `float("")` raise: a literal needs at least one digit. */
  lemma FloatRejectsNoDigits()
    ensures !FloatLiteral(".")
    ensures !FloatLiteral("")
  {
    assert FloatStrip(".") == "." by { FloatStripStripped("."); }
    assert LowerText(".") == "." by { LowerTextAt("."); }
    assert IndexOf(".", '.') == 0;
  }

  /** `float("-inf")`: a sign before one of the special words. */
  lemma FloatAcceptsInfinity()
    ensures FloatLiteral("-inf")
  {
    assert FloatStrip("-inf") == "-inf" by { FloatStripStripped("-inf"); }
    assert "-inf"[1..] == "inf";
    assert LowerText("inf") == "inf" by { LowerTextAt("inf"); }
  }

  /** Surrounding whitespace is ignored: `float(" 1.5 ")`. */
  lemma FloatAcceptsPadded()
    ensures FloatLiteral(" 1.5 ")
  {
    var s := " 1.5 ";
    assert FloatTextStart(s) == 1 by { assert s[1..] == "1.5 "; }
    assert FloatTextEnd(s) == 4 by { assert s[..4] == " 1.5"; }
    assert FloatStrip(s) == "1.5";
    FloatAcceptsDecimal();
    FloatLiteralIgnoresSpace(s);
  }

  lemma SeparatorStrip()
    ensures Strip([28 as char, '1']) == "1"
  {
    var s := [28 as char, '1'];
    assert TextStart(s) == 1 by { assert s[1..] == "1"; }
    assert TextEnd(s) == 2;
  }

  lemma SeparatorNotDecimal()
    ensures !DecimalLiteral([28 as char, '1'])
  {
    var s := [28 as char, '1'];
    assert LowerText(s) == s by { LowerTextAt(s); }
    assert IndexOf(s, 'e') == 2 && IndexOf(s, '.') == 2;
    assert !IsDigit(s[0]);
  }

  /** Unlike `str.strip()`, `float()` keeps the separators U+001C to U+001F:
      `float("1")` converts, but `float("\x1c1")` raises although its
      `strip()` is "1". */
  lemma FloatKeepsSeparators()
    ensures FloatLiteral("1")
    ensures Strip([28 as char, '1']) == "1"
    ensures !FloatLiteral([28 as char, '1'])
  {
    FloatAcceptsDecimal();
    SeparatorStrip();
    var s := [28 as char, '1'];
    assert FloatStrip(s) == s by { FloatStripStripped(s); }
    PlainFloatLiteral(s);
    SeparatorNotDecimal();
  }
}
