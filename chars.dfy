/**
  Character classes and decimal digit strings shared by the text parsers and formatters:
  the ASCII part of the regular-expression class `\d`, the class `\s` (Python's
  `str.isspace`), ASCII case folding as used by `re.IGNORECASE`, and `int(...)` / `%0Nd`.
 */
module Chars {

  predicate IsDigit(c: char) {
    '0' <= c <= '9'
  }

  predicate AllDigits(s: string) {
    forall i :: 0 <= i < |s| ==> IsDigit(s[i])
  }

  /** The characters `\s` matches in a Python `str` pattern (those for which `str.isspace()` holds). */
  predicate IsSpace(c: char) {
    || '\U{9}' <= c <= '\U{D}'
    || '\U{1C}' <= c <= '\U{20}'
    || c == '\U{85}' || c == '\U{A0}' || c == '\U{1680}'
    || '\U{2000}' <= c <= '\U{200A}'
    || c == '\U{2028}' || c == '\U{2029}' || c == '\U{202F}' || c == '\U{205F}' || c == '\U{3000}'
  }

  /** Length of the run of whitespace in `s` starting at i (what a greedy `\s*` consumes). */
  function SpaceRun(s: string, i: nat): (n: nat)
    requires i <= |s|
    ensures i + n <= |s|
    ensures forall j :: i <= j < i + n ==> IsSpace(s[j])
    ensures i + n < |s| ==> !IsSpace(s[i + n])
    decreases |s| - i
  {
    if i < |s| && IsSpace(s[i]) then 1 + SpaceRun(s, i + 1) else 0
  }

  function LowerAscii(c: char): (l: char)
    ensures 'A' <= c <= 'Z' ==> 'a' <= l <= 'z'
    ensures !('A' <= c <= 'Z') ==> l == c
  {
    if 'A' <= c <= 'Z' then (c as int + 32) as char else c
  }

  /** `s` and `t` are equal up to the case of ASCII letters. */
  predicate EqualsIgnoreCase(s: string, t: string) {
    |s| == |t| && forall i :: 0 <= i < |s| ==> LowerAscii(s[i]) == LowerAscii(t[i])
  }

  function DigitValue(c: char): nat
    requires IsDigit(c)
  {
    c as int - '0' as int
  }

  function DigitChar(d: nat): (c: char)
    requires d < 10
    ensures IsDigit(c) && DigitValue(c) == d
  {
    ('0' as int + d) as char
  }

  /** `int(s)` for a non-empty run of ASCII digits (leading zeros allowed). */
  function DigitsValue(s: string): nat
    requires AllDigits(s)
    decreases |s|
  {
    if s == [] then 0 else 10 * DigitsValue(s[..|s| - 1]) + DigitValue(s[|s| - 1])
  }

  /** The decimal digits of n, left-padded with '0' to at least `width` characters (`%0<width>d`). */
  function Padded(n: nat, width: nat): (s: string)
    decreases n + width
  {
    if n < 10 && width <= 1 then [DigitChar(n)]
    else Padded(n / 10, if width > 0 then width - 1 else 0) + [DigitChar(n % 10)]
  }

  /** `str(n)` for a natural number. */
  function Decimal(n: nat): string {
    Padded(n, 1)
  }

  /** Padded writes digits only, at least `width` of them, and exactly `width` when n fits. */
  lemma {:induction false} PaddedShape(n: nat, width: nat, p: nat)
    requires p == Pow10(width)
    ensures AllDigits(Padded(n, width))
    ensures |Padded(n, width)| >= 1 && |Padded(n, width)| >= width
    ensures n < p ==> |Padded(n, width)| == (if width == 0 then 1 else width)
    decreases n + width
  {
    if !(n < 10 && width <= 1) {
      var w' := if width > 0 then width - 1 else 0;
      PaddedShape(n / 10, w', Pow10(w'));
      if n < p && width > 0 {
        assert n / 10 < Pow10(w');
      }
    }
  }

  /** Padded writes digits only, at least `width` of them, exactly `width` when n fits, and reads back as n. */
  lemma {:induction false} PaddedRoundTrip(n: nat, width: nat, p: nat)
    requires p == Pow10(width)
    ensures AllDigits(Padded(n, width))
    ensures |Padded(n, width)| >= 1 && |Padded(n, width)| >= width
    ensures n < p ==> |Padded(n, width)| == (if width == 0 then 1 else width)
    ensures DigitsValue(Padded(n, width)) == n
    decreases n + width
  {
    PaddedShape(n, width, p);
    var s := Padded(n, width);
    if n < 10 && width <= 1 {
      assert s == [DigitChar(n)];
      assert s[..0] == [];
    } else {
      var w' := if width > 0 then width - 1 else 0;
      PaddedRoundTrip(n / 10, w', Pow10(w'));
      assert s == Padded(n / 10, w') + [DigitChar(n % 10)];
      assert s[..|s| - 1] == Padded(n / 10, w');
      assert DigitsValue(s) == 10 * DigitsValue(Padded(n / 10, w')) + DigitValue(DigitChar(n % 10));
    }
  }

  function Pow10(n: nat): (p: nat)
    ensures p >= 1
  {
    if n == 0 then 1 else 10 * Pow10(n - 1)
  }

  // ---------------------------------------------------------------- repr

  /** A printable ASCII character that `repr` writes as itself inside single quotes. */
  predicate PlainInRepr(c: char) {
    ' ' <= c < '\U{7F}' && c != '\'' && c != '\\'
  }

  /**
    A Latin-1 character that `str.isprintable` rejects: the C0 controls, DEL, the C1 controls,
    the no-break space U+00A0 and the soft hyphen U+00AD.
   */
  predicate Latin1Unprintable(c: char) {
    c < ' ' || ('\U{7F}' <= c <= '\U{A0}') || c == '\U{AD}'
  }

  function HexDigit(d: nat): (c: char)
    requires d < 16
  {
    "0123456789abcdef"[d]
  }

  /** How `repr` writes one character inside quotes `q`. */
  function EscapedChar(c: char, q: char): (e: string)
    ensures |e| >= 1
  {
    if c == q || c == '\\' then ['\\', c]
    else if c == '\t' then "\\t"
    else if c == '\n' then "\\n"
    else if c == '\r' then "\\r"
    else if Latin1Unprintable(c) then "\\x" + [HexDigit(c as int / 16), HexDigit(c as int % 16)]
    else [c]
  }

  function Escaped(s: string, q: char): string {
    if s == [] then [] else EscapedChar(s[0], q) + Escaped(s[1..], q)
  }

  /**
    Python's `repr` of a string: double quotes when the text holds a single quote and no double
    quote, single quotes otherwise; the chosen quote and the backslash are escaped, tab, newline
    and carriage return become `\t`, `\n`, `\r`, and the other unprintable Latin-1 characters
    become `\xNN`. Characters from U+0100 up are written as themselves.
   */
  function Repr(s: string): string {
    var q := if '\'' in s && '"' !in s then '"' else '\'';
    [q] + Escaped(s, q) + [q]
  }

  /** A text of plain characters is written as itself between single quotes. */
  lemma ReprPlain(s: string)
    requires forall i :: 0 <= i < |s| ==> PlainInRepr(s[i])
    ensures Repr(s) == "'" + s + "'"
  {
    assert '\'' !in s;
    EscapedPlain(s, '\'');
  }

  /** The no-break space and the soft hyphen are escaped in hex; a printable accented letter is not. */
  lemma ReprLatin1()
    ensures Repr("a\U{A0}b\U{AD}") == "'a\\xa0b\\xad'"
    ensures Repr("caf\U{E9}") == "'caf\U{E9}'"
  {
    var s := "a\U{A0}b\U{AD}";
    assert '\'' !in s;
    assert Escaped(s[3..], '\'') == "\\xad";
    assert Escaped(s[1..], '\'') == "\\xa0b\\xad";
    var t := "caf\U{E9}";
    assert '\'' !in t;
    assert Escaped(t[3..], '\'') == "\U{E9}";
    assert Escaped(t, '\'') == t;
  }

  lemma {:induction false} EscapedPlain(s: string, q: char)
    requires q == '\''
    requires forall i :: 0 <= i < |s| ==> PlainInRepr(s[i])
    ensures Escaped(s, q) == s
  {
    if s != [] {
      assert PlainInRepr(s[0]);
      EscapedPlain(s[1..], q);
    }
  }
}
