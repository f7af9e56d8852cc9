/**
 * Helpers of the add-expense form: capitalising a description as it is
 * typed, and writing the picked calendar date as "MMM d ,yyyy".
 */
module AddExpenseUtils {
  import opened Text
  import opened Calendar
  import opened DatePatterns

  /**
   * `formattedDescription`: a text of two or more characters gets its first
   * character upper-cased; shorter texts are returned as they are.
   */
  function FormattedDescription(input: string): (r: string)
    ensures |input| <= 1 ==> r == input
    ensures |input| >= 2 ==> |r| == |input| && r[0] == ToUpperChar(input[0]) && r[1..] == input[1..]
  {
    if |input| > 1 then Uppercase(input[..1]) + input[1..] else input
  }

  /** Formatting once is as good as formatting on every keystroke. */
  lemma FormattedDescriptionIdempotent(input: string)
    ensures FormattedDescription(FormattedDescription(input)) == FormattedDescription(input)
  {
    var r := FormattedDescription(input);
    if |input| >= 2 {
      var rr := FormattedDescription(r);
      assert rr[0] == ToUpperChar(ToUpperChar(input[0])) == r[0];
      assert rr == [rr[0]] + rr[1..];
      assert r == [r[0]] + r[1..];
    }
  }

  /** `dateFormatter`, from the calendar date onwards, in an English locale. */
  function DateFormatter(d: Date): (r: string)
    requires 1 <= d.month <= 12 && d.day >= 1
    ensures |r| >= 3 && r[..3] == MonthAbbrev(d.month)
  {
    FormatDate(d)
  }

  /**
   * For years 1..9999 the text is the month's abbreviation, a space, the day
   * number without zero padding, " ," and the year in exactly four digits.
   */
  lemma DateFormatterLayout(d: Date)
    requires ValidDate(d) && 1 <= d.year <= 9999
    ensures var r := DateFormatter(d); var k := |NatToString(d.day)|;
      && |r| == 4 + k + 2 + 4
      && r[..3] == MonthAbbrev(d.month) && r[3] == ' '
      && AllDigits(r[4..4 + k]) && DigitsValue(r[4..4 + k]) == d.day && r[4] != '0'
      && r[4 + k..6 + k] == " ,"
      && AllDigits(r[6 + k..]) && DigitsValue(r[6 + k..]) == d.year
  {
    var r := DateFormatter(d);
    var day := NatToString(d.day);
    var k := |day|;
    var year := FormatYearOfEra(d.year);
    assert r == MonthAbbrev(d.month) + " " + day + " ," + year;
    assert |year| == 4 by {
      assert Pow10(4) == 10000;
      NatToStringLength(d.year, 4);
    }
    assert r[4..4 + k] == day;
    assert r[4 + k..6 + k] == " ,";
    assert r[6 + k..] == year;
    DigitsValueOfNatToString(d.day);
    NatToStringNoLeadingZero(d.day);
    YearOfEraRoundTrip(d.year);
  }
}
