/**
 * The three `DateTimeFormatter.ofPattern` patterns the app uses, with an
 * English month-name table, as java.time reads and writes them by default
 * (strict, case-sensitive parsing and the SMART resolver):
 *
 *   "MMM D, yyyy"  and "MMM D ,yyyy"   (`D` is DAY-OF-YEAR)
 *   "MMM d ,yyyy"                      (`d` is day-of-month)
 *
 * Parsing is split in two steps, as in java.time: scanning the text into
 * raw field values (`ScanFields`), then resolving those fields into a date
 * (`ResolveDayOfYear`, `ResolveDayOfMonth`), which is where out-of-range
 * and conflicting values are refused.
 */
module DatePatterns {
  import opened Wrappers
  import opened Text
  import opened Calendar

  /** `MMM` in `Locale.US` / `Locale.ENGLISH`. */
  const MonthAbbreviations: seq<string> :=
    ["Jan", "Feb", "Mar", "Apr", "May", "Jun", "Jul", "Aug", "Sep", "Oct", "Nov", "Dec"]

  function MonthAbbrev(m: int): (t: string)
    requires 1 <= m <= 12
    ensures |t| == 3
  {
    MonthAbbreviations[m - 1]
  }

  /** Reading `MMM`: the month whose abbreviation is exactly `t`, case-sensitive. */
  function MonthOfAbbrev(t: string): (r: Option<int>)
    ensures r.Some? ==> 1 <= r.value <= 12 && MonthAbbrev(r.value) == t
    ensures r.None? ==> forall m :: 1 <= m <= 12 ==> MonthAbbrev(m) != t
  {
    MonthSearch(t, 1)
  }

  function MonthSearch(t: string, m: int): (r: Option<int>)
    requires 1 <= m <= 13
    ensures r.Some? ==> m <= r.value <= 12 && MonthAbbrev(r.value) == t
    ensures r.None? ==> forall k :: m <= k <= 12 ==> MonthAbbrev(k) != t
    decreases 13 - m
  {
    if m == 13 then None
    else if MonthAbbrev(m) == t then Some(m)
    else MonthSearch(t, m + 1)
  }

  /** The month abbreviations are pairwise distinct, so reading one back gives its month. */
  lemma MonthAbbrevRoundTrip(m: int)
    requires 1 <= m <= 12
    ensures MonthOfAbbrev(MonthAbbrev(m)) == Some(m)
  {
    var r := MonthOfAbbrev(MonthAbbrev(m));
    assert r.Some?;
    assert MonthAbbrev(r.value) == MonthAbbrev(m);
    assert forall a, b :: 1 <= a < b <= 12 ==> MonthAbbrev(a) != MonthAbbrev(b);
  }

  /** The two-character literal between the day number and the year. */
  datatype Separator =
    | CommaSpace   // ", "  as in "MMM D, yyyy"
    | SpaceComma   // " ,"  as in "MMM D ,yyyy" and "MMM d ,yyyy"

  function SeparatorText(sep: Separator): (t: string)
    ensures |t| == 2
  {
    match sep
    case CommaSpace => ", "
    case SpaceComma => " ,"
  }

  /** Field values as scanned, before any range check. */
  datatype Fields = Fields(month: int, number: nat, yearOfEra: nat)

  /**
   * Reading `yyyy` (YEAR_OF_ERA, minimum width 4, sign style EXCEEDS_PAD,
   * strict): either exactly four digits, or '+' followed by 5 to 19 digits.
   * A '-' never yields a valid year of era.
   */
  function ScanYearOfEra(t: string): (r: Option<nat>)
  {
    if |t| >= 1 && t[0] == '+' then
      if 5 <= |t| - 1 <= 19 && AllDigits(t[1..]) then Some(DigitsValue(t[1..])) else None
    else if |t| == 4 && AllDigits(t) then Some(DigitsValue(t))
    else None
  }

  /**
   * Scans "MMM <number><sep>yyyy" where `<number>` is the one-letter field
   * `D` or `d`. The whole text must be consumed.
   */
  function ScanFields(s: string, sep: Separator): (r: Option<Fields>)
    ensures r.Some? ==> 1 <= r.value.month <= 12
  {
    if |s| < 4 || s[3] != ' ' then None
    else
      match MonthOfAbbrev(s[..3])
      case None => None
      case Some(m) =>
        match ScanNumberAndYear(s[4..], sep)
        case None => None
        case Some(ny) => Some(Fields(m, ny.0, ny.1))
  }

  /**
   * The part after "MMM ": the number (1 to 19 digits, read greedily), the
   * two separator characters, then `yyyy` up to the end of the text.
   */
  function ScanNumberAndYear(body: string, sep: Separator): Option<(nat, nat)>
  {
    var k := DigitRun(body);
    if k == 0 || k > 19 then None
    else
      var rest := body[k..];
      if |rest| < 2 || rest[..2] != SeparatorText(sep) then None
      else
        match ScanYearOfEra(rest[2..])
        case None => None
        case Some(yoe) => Some((DigitsValue(body[..k]), yoe))
  }

  /**
   * SMART resolution of a year of era without an era field: the year of era
   * must lie in 1..1,000,000,000 and is taken as a year of the current era,
   * which must then be a year `LocalDate` can hold.
   */
  function ResolveYear(yoe: nat): (r: Option<int>)
    ensures r.Some? <==> 1 <= yoe <= MaxYear
    ensures r.Some? ==> r.value == yoe
  {
    if 1 <= yoe <= 1_000_000_000 && yoe <= MaxYear then Some(yoe) else None
  }

  /**
   * Resolution for the patterns with `D`: a year, a month and a day-of-year.
   * The date is built from year and day-of-year (the day-of-year must be in
   * 1..366 and exist in that year; SMART does the same as STRICT here); the
   * month read from the text is then only cross-checked against that date,
   * and a different month is a conflict.
   */
  function ResolveDayOfYear(f: Fields): (r: Option<Date>)
    requires 1 <= f.month <= 12
  {
    match ResolveYear(f.yearOfEra)
    case None => None
    case Some(y) =>
      if !(1 <= f.number <= 366) || f.number > DaysInYear(y) then None
      else
        var d := FromDayOfYear(y, f.number);
        if d.month != f.month then None else Some(d)
  }

  /**
   * A `D` pattern resolves to `d` exactly when `d` is a valid date in the
   * scanned year and month and the scanned number is its day of the year.
   */
  lemma ResolveDayOfYearSpec(f: Fields, d: Date)
    requires 1 <= f.month <= 12
    ensures ResolveDayOfYear(f) == Some(d) <==>
      ValidDate(d) && 1 <= d.year && d.year == f.yearOfEra && d.month == f.month && DayOfYear(d) == f.number
  {
    if ValidDate(d) && 1 <= d.year && d.year == f.yearOfEra && d.month == f.month && DayOfYear(d) == f.number {
      FromDayOfYearInverse(d);
    }
  }

  /**
   * Resolution for the pattern with `d` (IsoChronology.resolveYMD, SMART):
   * the day-of-month must be in 1..31; in a shorter month it is clamped to
   * the month's last day ("Feb 30" is the last day of February).
   */
  function ResolveDayOfMonth(f: Fields): (r: Option<Date>)
    requires 1 <= f.month <= 12
    ensures r.Some? ==> ValidDate(r.value)
  {
    match ResolveYear(f.yearOfEra)
    case None => None
    case Some(y) =>
      if !(1 <= f.number <= 31) then None
      else
        var m := f.month;
        var dom :=
          if m == 4 || m == 6 || m == 9 || m == 11 then Min(f.number, 30)
          else if m == 2 then Min(f.number, DaysInMonth(y, 2))
          else f.number;
        Some(Date(y, m, dom))
  }

  function Min(a: int, b: int): int { if a <= b then a else b }

  /**
   * A `d` pattern accepts any day number 1..31 and yields the scanned day in
   * the scanned month, or the month's last day if the month is shorter.
   */
  lemma ResolveDayOfMonthSpec(f: Fields)
    requires 1 <= f.month <= 12
    ensures ResolveDayOfMonth(f).Some? <==> 1 <= f.yearOfEra <= MaxYear && 1 <= f.number <= 31
    ensures ResolveDayOfMonth(f).Some? ==>
      ResolveDayOfMonth(f).value == Date(f.yearOfEra, f.month, Min(f.number, DaysInMonth(f.yearOfEra, f.month)))
  {
  }

  /** Parse with a `D` pattern ("MMM D, yyyy" or "MMM D ,yyyy"). */
  function ParseDayOfYearPattern(s: string, sep: Separator): (r: Option<Date>)
    ensures r.Some? ==> ValidDate(r.value)
  {
    match ScanFields(s, sep)
    case None => None
    case Some(f) =>
      var r := ResolveDayOfYear(f);
      assert r.Some? ==> ValidDate(r.value) by {
        if r.Some? { ResolveDayOfYearSpec(f, r.value); }
      }
      r
  }

  /** Parse with a `d` pattern ("MMM d ,yyyy", or "MMM d, yyyy"). */
  function ParseDayOfMonthPattern(s: string, sep: Separator): (r: Option<Date>)
    ensures r.Some? ==> ValidDate(r.value)
  {
    match ScanFields(s, sep)
    case None => None
    case Some(f) => ResolveDayOfMonth(f)
  }

  // ---------------------------------------------------------------------
  // Formatting "MMM d ,yyyy"
  // ---------------------------------------------------------------------

  /**
   * Writing `yyyy`: the year of era (years before 1 count backwards from
   * 1 BCE) padded to four digits, with a '+' once it needs more than four.
   */
  function FormatYearOfEra(year: int): string {
    var yoe: nat := if year >= 1 then year else 1 - year;
    if yoe >= 10000 then "+" + NatToString(yoe) else PadZeros(NatToString(yoe), 4)
  }

  /** `LocalDate.format` with "MMM d ,yyyy": day without padding, " ," before the year. */
  function FormatDate(d: Date): string
    requires 1 <= d.month <= 12 && d.day >= 1
  {
    MonthAbbrev(d.month) + " " + NatToString(d.day) + " ," + FormatYearOfEra(d.year)
  }

  /** Every year of the current era that `LocalDate` holds is read back from its `yyyy` text. */
  lemma YearOfEraRoundTrip(y: int)
    requires 1 <= y <= MaxYear
    ensures ScanYearOfEra(FormatYearOfEra(y)) == Some(y)
  {
    DigitsValueOfNatToString(y);
    assert Pow10(4) == 10000;
    NatToStringLength(y, 4);
    if y >= 10000 {
      LongYearRoundTrip(y);
    } else {
      ShortYearRoundTrip(y);
    }
  }

  /** From year 10000 on, the year is written as '+' and its digits. */
  lemma LongYearRoundTrip(y: int)
    requires 10000 <= y <= MaxYear
    requires AllDigits(NatToString(y)) && DigitsValue(NatToString(y)) == y
    requires |NatToString(y)| > 4
    ensures ScanYearOfEra(FormatYearOfEra(y)) == Some(y)
  {
    var digits := NatToString(y);
    assert Pow10(9) == 1_000_000_000;
    NatToStringLength(y, 9);
    var t := FormatYearOfEra(y);
    assert t == "+" + digits;
    assert t[1..] == digits;
  }

  /** Below year 10000, the year is padded with zeros to four digits. */
  lemma ShortYearRoundTrip(y: int)
    requires 1 <= y < 10000
    requires AllDigits(NatToString(y)) && DigitsValue(NatToString(y)) == y
    requires |NatToString(y)| <= 4
    ensures ScanYearOfEra(FormatYearOfEra(y)) == Some(y)
  {
    var digits := NatToString(y);
    var t := FormatYearOfEra(y);
    assert t == PadZeros(digits, 4);
    if |digits| < 4 {
      DigitsValueLeadingZeros(4 - |digits|, digits);
      assert t[0] == '0';
    } else {
      assert t[0] == digits[0];
    }
  }

  /**
   * The text of a formatted day number followed by a separator and a year
   * scans back into its fields when the separator is the one expected, and
   * not at all when it is the other one.
   */
  lemma ScanFormatted(m: int, n: nat, y: int, written: Separator, expected: Separator)
    requires 1 <= m <= 12 && 1 <= n <= 31 && 1 <= y <= MaxYear
    ensures ScanFields(MonthAbbrev(m) + " " + NatToString(n) + SeparatorText(written) + FormatYearOfEra(y), expected)
      == if written == expected then Some(Fields(m, n, y)) else None
  {
    var body := NatToString(n) + SeparatorText(written) + FormatYearOfEra(y);
    var s := MonthAbbrev(m) + " " + NatToString(n) + SeparatorText(written) + FormatYearOfEra(y);
    assert s == MonthAbbrev(m) + " " + body;
    assert s[..3] == MonthAbbrev(m) && s[3] == ' ' && s[4..] == body;
    MonthAbbrevRoundTrip(m);
    ScanNumberAndYearFormatted(n, y, written, expected);
  }

  lemma ScanNumberAndYearFormatted(n: nat, y: int, written: Separator, expected: Separator)
    requires 1 <= n <= 31 && 1 <= y <= MaxYear
    ensures ScanNumberAndYear(NatToString(n) + SeparatorText(written) + FormatYearOfEra(y), expected)
      == if written == expected then Some((n, y)) else None
  {
    var digits := NatToString(n);
    var tail := SeparatorText(written) + FormatYearOfEra(y);
    var body := digits + tail;
    assert body == NatToString(n) + SeparatorText(written) + FormatYearOfEra(y);
    assert tail[0] == SeparatorText(written)[0];
    DigitRunOfNumeral(digits, tail);
    assert Pow10(2) == 100;
    NatToStringLength(n, 2);
    DigitsValueOfNatToString(n);
    assert tail[..2] == SeparatorText(written);
    assert tail[2..] == FormatYearOfEra(y);
    YearOfEraRoundTrip(y);
  }

  /** Shorthand for the separators of the formatted text. */
  lemma FormatDateShape(d: Date)
    requires 1 <= d.month <= 12 && d.day >= 1
    ensures FormatDate(d) == MonthAbbrev(d.month) + " " + NatToString(d.day) + SeparatorText(SpaceComma) + FormatYearOfEra(d.year)
  {
  }

  /** Reading a formatted date with "MMM d ,yyyy" gives the date back. */
  lemma DayOfMonthRoundTrip(d: Date)
    requires ValidDate(d) && d.year >= 1
    ensures ParseDayOfMonthPattern(FormatDate(d), SpaceComma) == Some(d)
    ensures ParseDayOfMonthPattern(FormatDate(d), CommaSpace) == None
  {
    FormatDateShape(d);
    ScanFormatted(d.month, d.day, d.year, SpaceComma, SpaceComma);
    ScanFormatted(d.month, d.day, d.year, SpaceComma, CommaSpace);
    ResolveValidDayOfMonth(d);
  }

  /** The fields of a valid date resolve to that date: it needs no clamping. */
  lemma ResolveValidDayOfMonth(d: Date)
    requires ValidDate(d) && d.year >= 1
    ensures ResolveDayOfMonth(Fields(d.month, d.day, d.year)) == Some(d)
  {
    ResolveDayOfMonthSpec(Fields(d.month, d.day, d.year));
  }

  /** A formatted date never matches a pattern with ", " before the year. */
  lemma FormattedNeverCommaSpace(d: Date)
    requires ValidDate(d) && d.year >= 1
    ensures ScanFields(FormatDate(d), CommaSpace) == None
    ensures ParseDayOfYearPattern(FormatDate(d), CommaSpace) == None
  {
    FormatDateShape(d);
    ScanFormatted(d.month, d.day, d.year, SpaceComma, CommaSpace);
  }

  /**
   * Reading a formatted date with "MMM D ,yyyy" gives it back for a January
   * date and fails for every other month: the day of the month, at most 31,
   * is taken as a day of the year, which always falls in January.
   */
  lemma DayOfYearPatternOnFormatted(d: Date)
    requires ValidDate(d) && d.year >= 1
    ensures d.month == 1 ==> ParseDayOfYearPattern(FormatDate(d), SpaceComma) == Some(d)
    ensures d.month != 1 ==> ParseDayOfYearPattern(FormatDate(d), SpaceComma) == None
  {
    FormatDateShape(d);
    ScanFormatted(d.month, d.day, d.year, SpaceComma, SpaceComma);
    EarlyDayOfYearIsJanuary(d.year, d.day);
  }
}
