/**
 * The lenient date reader used by the history overview: try
 * "MMM D, yyyy", then "MMM D ,yyyy", and fall back to today's date; and
 * the same reader with the day-of-month letter `d` the writer uses.
 */
module DateHelper {
  import opened Wrappers
  import opened Calendar
  import opened DatePatterns
  import opened ExpenseModel
  import Text

  /** `String.safeDateFormatter()`, with "today" passed in. */
  function SafeDateFormatter(s: string, today: Date): Date {
    match ParseDayOfYearPattern(s, CommaSpace)
    case Some(d) => d
    case None => ParseDayOfYearPattern(s, SpaceComma).GetOr(today)
  }

  /** `Expense.localDate()`. */
  function LocalDate(e: Expense, today: Date): Date {
    SafeDateFormatter(e.date, today)
  }

  /**
   * The first pattern wins when it reads the text; otherwise the second;
   * otherwise the result is exactly `today`. The reader never fails and
   * always returns a valid date when `today` is one.
   */
  lemma SafeDateFormatterSpec(s: string, today: Date)
    ensures ParseDayOfYearPattern(s, CommaSpace).Some? ==>
      SafeDateFormatter(s, today) == ParseDayOfYearPattern(s, CommaSpace).value
    ensures ParseDayOfYearPattern(s, CommaSpace).None? && ParseDayOfYearPattern(s, SpaceComma).Some? ==>
      SafeDateFormatter(s, today) == ParseDayOfYearPattern(s, SpaceComma).value
    ensures ParseDayOfYearPattern(s, CommaSpace).None? && ParseDayOfYearPattern(s, SpaceComma).None? ==>
      SafeDateFormatter(s, today) == today
    ensures ValidDate(today) ==> ValidDate(SafeDateFormatter(s, today))
  {
  }

  /** Two expenses with the same date text have the same local date, whatever else differs. */
  lemma LocalDateReadsOnlyDate(a: Expense, b: Expense, today: Date)
    requires a.date == b.date
    ensures LocalDate(a, today) == LocalDate(b, today)
  {
  }

  /**
   * The app writes dates as "MMM d ,yyyy", which the first pattern never
   * reads, so they always go to the second pattern; with its day-of-year
   * letter that pattern gives back January dates only, and every other
   * app-written date becomes today.
   */
  lemma AppDatesAsWritten(d: Date, today: Date)
    requires ValidDate(d) && d.year >= 1
    ensures SafeDateFormatter(FormatDate(d), today) == ParseDayOfYearPattern(FormatDate(d), SpaceComma).GetOr(today)
    ensures d.month == 1 ==> SafeDateFormatter(FormatDate(d), today) == d
    ensures d.month != 1 ==> SafeDateFormatter(FormatDate(d), today) == today
  {
    FormattedNeverCommaSpace(d);
    DayOfYearPatternOnFormatted(d);
  }

  /**
   * The reader with day-of-month `d` in both patterns, as the formatter
   * that writes the dates uses.
   */
  function SafeDateFormatterCorrected(s: string, today: Date): Date {
    match ParseDayOfMonthPattern(s, CommaSpace)
    case Some(d) => d
    case None => ParseDayOfMonthPattern(s, SpaceComma).GetOr(today)
  }

  /** `Expense.localDate()` over the corrected reader. */
  function LocalDateCorrected(e: Expense, today: Date): Date {
    SafeDateFormatterCorrected(e.date, today)
  }

  /** With day-of-month patterns every app-written date is read back as itself. */
  lemma CorrectedReadsAppDates(d: Date, today: Date)
    requires ValidDate(d) && d.year >= 1
    ensures SafeDateFormatterCorrected(FormatDate(d), today) == d
  {
    DayOfMonthRoundTrip(d);
  }

  /** A date in February written by the app, "Feb 3 ,2024", is read as today. */
  lemma FebruaryExample(today: Date)
    ensures SafeDateFormatter("Feb 3 ,2024", today) == today
    ensures SafeDateFormatterCorrected("Feb 3 ,2024", today) == Date(2024, 2, 3)
  {
    var d := Date(2024, 2, 3);
    FebruaryText();
    AppDatesAsWritten(d, today);
    CorrectedReadsAppDates(d, today);
  }

  /** The app writes the 3rd of February 2024 as "Feb 3 ,2024". */
  lemma FebruaryText()
    ensures FormatDate(Date(2024, 2, 3)) == "Feb 3 ,2024"
  {
    YearText2024();
    FormatDateShape(Date(2024, 2, 3));
    assert Text.NatToString(3) == "3";
    assert MonthAbbrev(2) == "Feb";
  }

  lemma YearText2024()
    ensures FormatYearOfEra(2024) == "2024"
  {
    assert Text.NatToString(2024) == Text.NatToString(202) + "4";
    assert Text.NatToString(202) == Text.NatToString(20) + "2";
    assert Text.NatToString(20) == Text.NatToString(2) + "0";
  }

  /** Both patterns need a space next to the comma: "Jan 05,2024" is read as today. */
  lemma NoSpaceExample(today: Date)
    ensures SafeDateFormatter("Jan 05,2024", today) == today
  {
    var s := "Jan 05,2024";
    assert s[4..] == "05,2024";
    NoSpaceBody();
    assert ScanFields(s, CommaSpace) == None;
    assert ScanFields(s, SpaceComma) == None;
  }

  /** After the month, "05,2024" has neither ", " nor " ," after its number. */
  lemma NoSpaceBody()
    ensures ScanNumberAndYear("05,2024", CommaSpace) == None
    ensures ScanNumberAndYear("05,2024", SpaceComma) == None
  {
    var body := "05,2024";
    assert body == "05" + ",2024";
    Text.DigitRunOfNumeral("05", ",2024");
    assert body[2..][..2] == ",2";
  }
}
