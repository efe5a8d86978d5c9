/**
  Month labels such as "March 2023": parsing them into (year, month) as `strptime` with the
  format '%B %Y' does, and writing them with `strftime('%B %Y')`.

  The parse follows the rules of the format: the full English month name in any letter case,
  then one or more whitespace characters (a space in the format matches any run of
  whitespace), then exactly four digits, then the end of the text; year 0 is out of range.
 */
module Utils {

  import opened Results
  import opened Chars

  const MonthNames: seq<string> := [
    "January", "February", "March", "April", "May", "June",
    "July", "August", "September", "October", "November", "December"
  ]

  function MonthName(m: int): (name: string)
    requires 1 <= m <= 12
    ensures |name| >= 3
  {
    MonthNames[m - 1]
  }

  /** `text` starts with the name of month m, in any letter case. */
  predicate NameAt(text: string, m: int)
    requires 1 <= m <= 12
  {
    |text| >= |MonthName(m)| && EqualsIgnoreCase(text[..|MonthName(m)|], MonthName(m))
  }

  /**
    `text` reads as month m, year y: the month's name, a non-empty run of whitespace, and
    four digits spelling y, with nothing after them.
   */
  ghost predicate IsLabelOf(text: string, y: int, m: int) {
    && 1 <= m <= 12
    && NameAt(text, m)
    && |text| > |MonthName(m)| + 4
    && (forall j :: |MonthName(m)| <= j < |text| - 4 ==> IsSpace(text[j]))
    && AllDigits(text[|text| - 4..])
    && y == DigitsValue(text[|text| - 4..])
    && 1 <= y
  }

  /** The lower-cased first three letters of a month name tell the months apart. */
  function Abbrev(m: int): string
    requires 1 <= m <= 12
  {
    ["jan", "feb", "mar", "apr", "may", "jun", "jul", "aug", "sep", "oct", "nov", "dec"][m - 1]
  }

  lemma AbbrevOfName(m: int)
    requires 1 <= m <= 12
    ensures forall i :: 0 <= i < 3 ==> LowerAscii(MonthName(m)[i]) == Abbrev(m)[i]
  {
  }

  /** No month name is a prefix of another, whatever the case: at most one month matches. */
  lemma NameAtUnique(text: string, j: int, k: int)
    requires 1 <= j <= 12 && 1 <= k <= 12
    requires NameAt(text, j) && NameAt(text, k)
    ensures j == k
  {
    AbbrevOfName(j);
    AbbrevOfName(k);
    assert forall i :: 0 <= i < 3 ==> LowerAscii(text[i]) == Abbrev(j)[i] == Abbrev(k)[i];
    AbbrevInjective(j, k);
  }

  /** Different months have different abbreviations. */
  lemma AbbrevInjective(j: int, k: int)
    requires 1 <= j <= 12 && 1 <= k <= 12
    requires forall i :: 0 <= i < 3 ==> Abbrev(j)[i] == Abbrev(k)[i]
    ensures j == k
  {
    assert Abbrev(j)[0] == Abbrev(k)[0] && Abbrev(j)[1] == Abbrev(k)[1] && Abbrev(j)[2] == Abbrev(k)[2];
  }

  /** The first month, from m on, whose name starts the text. */
  function FindMonth(text: string, m: int): (r: Option<int>)
    requires 1 <= m <= 13
    ensures r.Some? ==> m <= r.value <= 12 && NameAt(text, r.value)
    ensures r.None? ==> forall k :: m <= k <= 12 ==> !NameAt(text, k)
    decreases 13 - m
  {
    if m == 13 then None
    else if NameAt(text, m) then Some(m)
    else FindMonth(text, m + 1)
  }

  /** What `strptime` raises when the text does not match the format: the text's repr and the format's. */
  function NoMatch(text: string): Exception {
    ValueError("time data " + Repr(text) + " does not match format '%B %Y'")
  }

  /** For a text of plain characters the message quotes the text as it is. */
  lemma NoMatchPlain(text: string)
    requires forall i :: 0 <= i < |text| ==> PlainInRepr(text[i])
    ensures NoMatch(text) == ValueError("time data " + "'" + text + "'" + " does not match format '%B %Y'")
  {
    ReprPlain(text);
  }

  /** What `strptime` raises when text is left after the whole format has matched. */
  function Leftover(rest: string): Exception {
    ValueError("unconverted data remains: " + rest)
  }

  /** What `datetime` raises for year 0. */
  const YearZero: Exception := ValueError("year 0 is out of range")

  /** `convert_date`: the (year, month) a month label names. */
  function ConvertDate(text: string): (r: Result<(int, int)>)
    ensures r.Success? ==> 1 <= r.value.0 <= 9999 && 1 <= r.value.1 <= 12
  {
    match FindMonth(text, 1)
    case None => Failure(NoMatch(text))
    case Some(m) => AfterName(text, m)
  }

  /** The rest of the parse once the text is known to start with month m's name. */
  function AfterName(text: string, m: int): (r: Result<(int, int)>)
    requires 1 <= m <= 12 && NameAt(text, m)
    ensures r.Success? ==> 1 <= r.value.0 <= 9999 && r.value.1 == m
  {
    var n := |MonthName(m)|;
    var w := SpaceRun(text, n);
    var start := n + w;
    if w == 0 || start + 4 > |text| || !AllDigits(text[start..start + 4]) then
      Failure(NoMatch(text))
    else
      YearAt(text, m, start)
  }

  /** The end of the parse, once four digits are found at `start`: nothing may follow, and year 0 is refused. */
  function YearAt(text: string, m: int, start: nat): (r: Result<(int, int)>)
    requires start + 4 <= |text| && AllDigits(text[start..start + 4])
    ensures r.Success? ==> 1 <= r.value.0 <= 9999 && r.value.1 == m
  {
    if start + 4 < |text| then
      Failure(Leftover(text[start + 4..]))
    else
      var y := DigitsValue(text[start..start + 4]);
      DigitsBelow(text[start..start + 4]);
      if y == 0 then Failure(YearZero)
      else Success((y, m))
  }

  /** Four digits spell a number below 10000. */
  lemma DigitsBelow(s: string)
    requires AllDigits(s) && |s| == 4
    ensures DigitsValue(s) <= 9999
  {
    DigitsBound(s);
    assert Pow10(4) == 10000;
  }

  /** n digits spell a number below 10^n. */
  lemma {:induction false} DigitsBound(s: string)
    requires AllDigits(s)
    ensures DigitsValue(s) < Pow10(|s|)
    decreases |s|
  {
    if s != [] {
      DigitsBound(s[..|s| - 1]);
    }
  }

  /** Whatever is parsed is a label of the accepted form, spelling the month and year returned. */
  lemma ConvertDateSound(text: string)
    requires ConvertDate(text).Success?
    ensures IsLabelOf(text, ConvertDate(text).value.0, ConvertDate(text).value.1)
  {
    var found := FindMonth(text, 1);
    assert found.Some?;
    var m := found.value;
    var n := |MonthName(m)|;
    var w := SpaceRun(text, n);
    var start := n + w;
    assert 0 < w && start + 4 == |text|;
    assert text[start..start + 4] == text[start..] == text[|text| - 4..];
    assert AllDigits(text[start..]);
    assert ConvertDate(text).value == (DigitsValue(text[start..start + 4]), m);
  }

  /** Every text of the form accepted is parsed, as the month and year it spells. */
  lemma ConvertDateComplete(text: string, y: int, m: int)
    requires IsLabelOf(text, y, m)
    ensures ConvertDate(text) == Success((y, m))
  {
    var found := FindMonth(text, 1);
    assert found.Some?;
    NameAtUnique(text, found.value, m);
    var n := |MonthName(m)|;
    var w := SpaceRun(text, n);
    assert IsDigit(text[|text| - 4]);
    assert n + w == |text| - 4;
    assert text[n + w..n + w + 4] == text[|text| - 4..];
  }

  /** `strftime('%B %Y')` for a year written with four digits. */
  function FormatMonthYear(y: int, m: int): string
    requires 1000 <= y <= 9999 && 1 <= m <= 12
  {
    MonthName(m) + " " + Decimal(y)
  }

  /** Parsing a formatted text gives back the month and year. */
  lemma FormatThenConvert(y: int, m: int)
    requires 1000 <= y <= 9999 && 1 <= m <= 12
    ensures ConvertDate(FormatMonthYear(y, m)) == Success((y, m))
  {
    FormattedIsLabel(y, m);
    ConvertDateComplete(FormatMonthYear(y, m), y, m);
  }

  /** A formatted month and year is a label of the accepted form. */
  lemma FormattedIsLabel(y: int, m: int)
    requires 1000 <= y <= 9999 && 1 <= m <= 12
    ensures IsLabelOf(FormatMonthYear(y, m), y, m)
  {
    var text := FormatMonthYear(y, m);
    var digits := Decimal(y);
    FourDigitYear(y);
    var n := |MonthName(m)|;
    assert text == MonthName(m) + " " + digits;
    assert text[..n] == MonthName(m);
    assert text[|text| - 4..] == digits;
    assert IsSpace(text[n]);
  }

  /** A year from 1000 to 9999 is written with four digits that read back as the year. */
  lemma FourDigitYear(y: int)
    requires 1000 <= y <= 9999
    ensures |Decimal(y)| == 4 && AllDigits(Decimal(y)) && DigitsValue(Decimal(y)) == y
  {
    PaddedRoundTrip(y, 1, Pow10(1));
    PaddedRoundTrip(y, 4, Pow10(4));
    assert Pow10(3) == 1000 && Pow10(4) == 10000;
    PaddedWidthBelow(y, 1, 4);
  }

  /** Padding to a width the number already fills changes nothing. */
  lemma {:induction false} PaddedWidthBelow(n: nat, w: nat, w': nat)
    requires w <= w' && (w' <= 1 || Pow10(w' - 1) <= n)
    ensures Padded(n, w) == Padded(n, w')
    decreases w'
  {
    if 2 <= w' {
      assert Pow10(w' - 1) == 10 * Pow10(w' - 2);
      PaddedWidthBelow(n / 10, if w > 0 then w - 1 else 0, w' - 1);
    }
  }

  /** The month found in a text that starts with a month's name is that month. */
  lemma FindMonthOf(text: string, m: int)
    requires 1 <= m <= 12 && NameAt(text, m)
    ensures FindMonth(text, 1) == Some(m)
  {
    var found := FindMonth(text, 1);
    NameAtUnique(text, found.value, m);
  }

  /** Every month's name starts with one of these capitals. */
  lemma MonthInitials(m: int)
    requires 1 <= m <= 12
    ensures MonthName(m)[0] in "JFMASOND"
  {
  }

  /** A text whose first letter starts no month's name, in any case, names no month. */
  lemma NoMonthName(text: string)
    requires |text| >= 1 && LowerAscii(text[0]) !in "jfmasond"
    ensures FindMonth(text, 1) == None
  {
    forall m | 1 <= m <= 12
      ensures !NameAt(text, m)
    {
      InitialOfName(text, m);
      LowerInitial(m);
    }
  }

  /** The lower-cased initial of every month name is one of j, f, m, a, s, o, n, d. */
  lemma LowerInitial(m: int)
    requires 1 <= m <= 12
    ensures LowerAscii(MonthName(m)[0]) in "jfmasond"
  {
    MonthInitials(m);
  }

  /** A text that starts with a month's name starts with that name's initial, in some case. */
  lemma InitialOfName(text: string, m: int)
    requires 1 <= m <= 12 && |text| >= 1
    ensures NameAt(text, m) ==> LowerAscii(text[0]) == LowerAscii(MonthName(m)[0])
  {
    if NameAt(text, m) {
      assert text[..|MonthName(m)|][0] == text[0];
    }
  }

  /** "March 2023" is March of 2023. */
  lemma ConvertExample()
    ensures ConvertDate("March 2023") == Success((2023, 3))
  {
    var text := "March 2023";
    assert text[..5] == "March";
    assert text[6..] == "2023";
    assert DigitsValue("2023") == 2023 by {
      assert "2023"[..3] == "202" && "202"[..2] == "20" && "20"[..1] == "2" && "2"[..0] == [];
    }
    ConvertDateComplete(text, 2023, 3);
  }

  /** The month name's letter case does not matter. */
  lemma ConvertIgnoresCase()
    ensures ConvertDate("mARCH 2023") == Success((2023, 3))
  {
    var text := "mARCH 2023";
    assert EqualsIgnoreCase(text[..5], "March");
    assert text[6..] == "2023";
    assert DigitsValue("2023") == 2023 by {
      assert "2023"[..3] == "202" && "202"[..2] == "20" && "20"[..1] == "2" && "2"[..0] == [];
    }
    ConvertDateComplete(text, 2023, 3);
  }

  const ShortYear := "March 23"
  const YearFirst := "2023 March"

  /** A two-digit year does not match the format; the message quotes the text. */
  lemma ConvertRejectsShortYear()
    ensures ConvertDate(ShortYear) ==
              Failure(ValueError("time data " + "'" + ShortYear + "'" + " does not match format '%B %Y'"))
  {
    var text := ShortYear;
    assert EqualsIgnoreCase(text[..5], "March");
    FindMonthOf(text, 3);
    NoMatchPlain(text);
  }

  /** Text after the year is left unconverted, which raises, quoting what is left. */
  lemma ConvertRejectsTrailingText()
    ensures ConvertDate("March 2023 ") == Failure(ValueError("unconverted data remains: " + " "))
  {
    var text := "March 2023 ";
    assert EqualsIgnoreCase(text[..5], "March");
    FindMonthOf(text, 3);
    assert SpaceRun(text, 5) == 1;
    assert AllDigits(text[6..10]);
    assert text[10..] == " ";
  }

  /** Year 0 is out of range. */
  lemma ConvertRejectsYearZero()
    ensures ConvertDate("March 0000") == Failure(ValueError("year 0 is out of range"))
  {
    var text := "March 0000";
    assert EqualsIgnoreCase(text[..5], "March");
    FindMonthOf(text, 3);
    assert SpaceRun(text, 5) == 1;
    assert text[6..10] == "0000";
    assert DigitsValue("0000") == 0 by {
      assert "0000"[..3] == "000" && "000"[..2] == "00" && "00"[..1] == "0" && "0"[..0] == [];
    }
    assert AfterName(text, 3) == YearAt(text, 3, 6);
    assert YearAt(text, 3, 6) == Failure(YearZero);
  }

  /** The month must come first. */
  lemma ConvertRejectsYearFirst()
    ensures ConvertDate(YearFirst) ==
              Failure(ValueError("time data " + "'" + YearFirst + "'" + " does not match format '%B %Y'"))
  {
    var text := YearFirst;
    NoMonthName(text);
    NoMatchPlain(text);
  }
}
