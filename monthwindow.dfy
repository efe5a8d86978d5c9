/**
  The date window `fetch_monthly_ticker` downloads prices for: the first day of the month and
  the first day of the month after, each built as a pandas `Timestamp`, written as
  `YYYY-MM-DD`, and the error raised when the download comes back empty.

  The download itself is a parameter: it is given the request and returns the rows.
 */
module MonthWindow {

  import opened Results
  import opened Chars
  import Utils

  /** A calendar day. */
  datatype Date = Date(year: int, month: int, day: int)

  /** `a` comes strictly before `b` in the calendar. */
  predicate Before(a: Date, b: Date) {
    || a.year < b.year
    || (a.year == b.year && a.month < b.month)
    || (a.year == b.year && a.month == b.month && a.day < b.day)
  }

  /** Months counted from January of year 0: consecutive months have consecutive indices. */
  function MonthIndex(d: Date): int {
    12 * d.year + (d.month - 1)
  }

  /**
    The first and last days whose midnight pandas can hold in nanoseconds since 1970
    (1677-09-21 00:12:43 to 2262-04-11 23:47:16).
   */
  const FirstStamp: Date := Date(1677, 9, 22)
  const LastStamp: Date := Date(2262, 4, 11)

  predicate InStampRange(d: Date) {
    !Before(d, FirstStamp) && !Before(LastStamp, d)
  }

  /** `str(n)` for any integer. */
  function IntString(n: int): string {
    if n < 0 then "-" + Decimal(-n) else Decimal(n)
  }

  /**
    `pd.Timestamp(year=year, month=month, day=1)`: the year is checked first, then the month,
    then the nanosecond range.
   */
  function FirstOfMonth(year: int, month: int): (r: Result<Date>)
    ensures r.Success? <==> 1 <= month <= 12 && InStampRange(Date(year, month, 1))
    ensures r.Success? ==> r.value == Date(year, month, 1)
    ensures !(1 <= year <= 9999) ==> r == Failure(ValueError("year " + IntString(year) + " is out of range"))
    ensures 1 <= year <= 9999 && !(1 <= month <= 12) ==> r == Failure(ValueError("month must be in 1..12"))
    ensures 1 <= month <= 12 && !InStampRange(Date(year, month, 1)) && 1 <= year <= 9999 ==> r == Failure(OutOfBoundsDatetime)
  {
    if !(1 <= year <= 9999) then Failure(ValueError("year " + IntString(year) + " is out of range"))
    else if !(1 <= month <= 12) then Failure(ValueError("month must be in 1..12"))
    else if !InStampRange(Date(year, month, 1)) then Failure(OutOfBoundsDatetime)
    else Success(Date(year, month, 1))
  }

  /** Lines 45-49: the start of the month and the start of the next one, December rolling into January. */
  function Window(year: int, month: int): (r: Result<(Date, Date)>)
    ensures r.Success? ==> r.value.0 == Date(year, month, 1) && 1 <= month <= 12
    ensures r.Success? ==> r.value.1.day == 1 && 1 <= r.value.1.month <= 12
    ensures r.Success? ==> InStampRange(r.value.0) && InStampRange(r.value.1)
  {
    var start :- FirstOfMonth(year, month);
    var end :- if month == 12 then FirstOfMonth(year + 1, 1) else FirstOfMonth(year, month + 1);
    Success((start, end))
  }

  /** The window exists exactly for the months from October 1677 to March 2262. */
  lemma WindowDefined(year: int, month: int)
    ensures Window(year, month).Success? <==>
              1 <= month <= 12 && 12 * 1677 + 9 <= MonthIndex(Date(year, month, 1)) <= 12 * 2262 + 2
  {
  }

  /** The window starts on the first of the requested month and ends on the first of the next one. */
  lemma WindowIsOneMonth(year: int, month: int)
    requires Window(year, month).Success?
    ensures Window(year, month).value.0 == Date(year, month, 1)
    ensures Window(year, month).value.1.day == 1
    ensures MonthIndex(Window(year, month).value.1) == MonthIndex(Window(year, month).value.0) + 1
    ensures 1 <= Window(year, month).value.1.month <= 12
    ensures Before(Window(year, month).value.0, Window(year, month).value.1)
  {
  }

  /** In December the window ends on the first of January of the next year. */
  lemma DecemberRollsOver(year: int)
    requires Window(year, 12).Success?
    ensures Window(year, 12).value.1 == Date(year + 1, 1, 1)
  {
  }

  /** Two first-of-month dates one month apart are the window of the earlier month. */
  lemma WindowOfConsecutiveMonths(s: Date, e: Date)
    requires s.day == 1 && e.day == 1 && 1 <= s.month <= 12 && 1 <= e.month <= 12
    requires MonthIndex(e) == MonthIndex(s) + 1
    requires InStampRange(s) && InStampRange(e)
    ensures Window(s.year, s.month) == Success((s, e))
  {
  }

  /** `strftime('%Y-%m-%d')` for a date of a four-digit year, month and day padded to two digits. */
  function FormatDate(d: Date): (text: string)
    requires 1000 <= d.year <= 9999 && 1 <= d.month <= 12 && 1 <= d.day <= 31
  {
    Decimal(d.year) + "-" + Padded(d.month, 2) + "-" + Padded(d.day, 2)
  }

  /** Reading `YYYY-MM-DD` back as a date. */
  function ParseDate(text: string): (r: Option<Date>) {
    if |text| != 10 || text[4] != '-' || text[7] != '-' then None
    else if !AllDigits(text[..4]) || !AllDigits(text[5..7]) || !AllDigits(text[8..]) then None
    else Some(Date(DigitsValue(text[..4]), DigitsValue(text[5..7]), DigitsValue(text[8..])))
  }

  /** A formatted date is ten characters long and reads back as the same date. */
  lemma FormatThenParse(d: Date)
    requires 1000 <= d.year <= 9999 && 1 <= d.month <= 12 && 1 <= d.day <= 31
    ensures |FormatDate(d)| == 10
    ensures ParseDate(FormatDate(d)) == Some(d)
  {
    var y, m, dd := Decimal(d.year), Padded(d.month, 2), Padded(d.day, 2);
    PaddedRoundTrip(d.year, 1, Pow10(1));
    PaddedRoundTrip(d.year, 4, Pow10(4));
    assert Pow10(4) == 10000 && Pow10(3) == 1000 && Pow10(2) == 100;
    Utils.PaddedWidthBelow(d.year, 1, 4);
    PaddedRoundTrip(d.month, 2, Pow10(2));
    PaddedRoundTrip(d.day, 2, Pow10(2));
    var text := FormatDate(d);
    assert text == y + "-" + m + "-" + dd;
    assert text[..4] == y;
    assert text[5..7] == m;
    assert text[8..] == dd;
  }

  /** Lines 52-59: what is asked of the download. */
  datatype Request = Request(symbol: string, start: string, end: string, interval: string, autoAdjust: bool)

  /**
    `fetch_monthly_ticker`: the window's dates in `YYYY-MM-DD`, a download at a five-day
    interval with adjusted prices, and ValueError when it returns no rows.
   */
  function FetchMonthlyTicker<Row>(symbol: string, year: int, month: int, download: Request -> seq<Row>)
    : (r: Result<seq<Row>>)
    ensures Window(year, month).Failure? ==> r == Failure(Window(year, month).error)
    ensures Window(year, month).Success? ==>
              var req := Request(symbol, FormatDate(Window(year, month).value.0),
                                 FormatDate(Window(year, month).value.1), "5d", true);
              && (r.Success? <==> download(req) != [])
              && (r.Success? ==> r.value == download(req))
              && (r.Failure? ==> r.error == NoDataError(symbol, year, month))
  {
    var window :- Window(year, month);
    var rows := download(Request(symbol, FormatDate(window.0), FormatDate(window.1), "5d", true));
    if rows == [] then Failure(NoDataError(symbol, year, month)) else Success(rows)
  }

  /** The error for an empty download: the symbol, the year and the month padded to two digits. */
  function NoDataError(symbol: string, year: int, month: int): Exception
    requires 1 <= month <= 12
  {
    ValueError("No data returned for " + symbol + " in " + IntString(year) + "-" + Padded(month, 2))
  }

  /** December 2024 is downloaded from "2024-12-01" up to "2025-01-01". */
  lemma DecemberRequest()
    ensures Window(2024, 12) == Success((Date(2024, 12, 1), Date(2025, 1, 1)))
    ensures FormatDate(Date(2024, 12, 1)) == "2024-12-01"
    ensures FormatDate(Date(2025, 1, 1)) == "2025-01-01"
  {
    assert Decimal(2024) == "2024";
    assert Decimal(2025) == "2025";
    assert Padded(12, 2) == "12" && Padded(1, 2) == "01";
  }

  /** An empty download for June 2024 names the month with its leading zero. */
  lemma EmptyJune()
    ensures FetchMonthlyTicker<int>("SPY", 2024, 6, (req: Request) => []) ==
            Failure(ValueError("No data returned for SPY in 2024-06"))
  {
    assert Window(2024, 6).Success?;
    assert NoDataError("SPY", 2024, 6) == ValueError("No data returned for SPY in 2024-06") by {
      assert IntString(2024) == "2024";
      assert Padded(6, 2) == "06";
    }
  }

  /** A thirteenth month is refused before anything is downloaded. */
  lemma MonthThirteen<Row>(download: Request -> seq<Row>)
    ensures FetchMonthlyTicker("SPY", 2024, 13, download) == Failure(ValueError("month must be in 1..12"))
  {
  }
}
