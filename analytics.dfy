/**
 * The analytics screen's state holder: it reads the expense dates with the
 * pattern "MMM d ,yyyy", keeps the expenses of the current month, of the
 * last three months or of the current year, sums them per range, draws a
 * six-month bar chart and a donut of the categories.
 *
 * "Now" is a parameter (`today`); the repository fetch is the pair of
 * events `OnExpensesLoaded` and `OnLoadFailed`.
 */
module Analytics {
  import opened Wrappers
  import opened Calendar
  import opened DatePatterns
  import opened ExpenseModel
  import opened Subsequences
  import opened Grouping
  import AddExpenseUtils

  /** A colour as its 32-bit ARGB value. */
  datatype Color = Color(argb: int)

  datatype DonutSlice = DonutSlice(category: Category, amount: real, color: Color)

  datatype AnalyticsUiState =
    | Idle
    | Loading
    | Success(expenses: seq<Expense>)
    | Error(message: string)

  /** The message shown when a failure carries none of its own. */
  const DefaultErrorMessage: string := "Something went wrong"

  // ---------------------------------------------------------------------------
  // Reading dates and choosing a range
  // ---------------------------------------------------------------------------

  /** `parseDate`: the strict "MMM d ,yyyy" reading of the stored date, or nothing. */
  function ParseDate(e: Expense): (r: Option<Date>)
    ensures r.Some? ==> ValidDate(r.value)
  {
    ParseDayOfMonthPattern(e.date, SpaceComma)
  }

  /** A date written by the add-expense form is read back as that date. */
  lemma ParseDateReadsFormDate(e: Expense, d: Date)
    requires ValidDate(d) && d.year >= 1 && e.date == AddExpenseUtils.DateFormatter(d)
    ensures ParseDate(e) == Some(d)
  {
    DayOfMonthRoundTrip(d);
  }

  /**
   * The `when (range)` of `filterByRange`: 0 is the current month, 1 is
   * "not before the same day three months ago", 2 is the current year, and
   * any other index keeps nothing.
   */
  predicate InRange(d: Date, range: int, today: Date)
    requires ValidDate(today)
  {
    if range == 0 then d.month == today.month && d.year == today.year
    else if range == 1 then !IsBefore(d, MinusMonths(today, 3))
    else if range == 2 then d.year == today.year
    else false
  }

  /** The filter's test on one expense: its date reads and lies in the range. */
  predicate Keeps(e: Expense, range: int, today: Date)
    requires ValidDate(today)
  {
    ParseDate(e).Some? && InRange(ParseDate(e).value, range, today)
  }

  /** The filter's test as a value. */
  function RangeTest(range: int, today: Date): Expense -> bool
    requires ValidDate(today)
  {
    e => Keeps(e, range, today)
  }

  /** `filterByRange`. */
  function FilterByRange(xs: seq<Expense>, range: int, today: Date): seq<Expense>
    requires ValidDate(today)
  {
    Filter(xs, RangeTest(range, today))
  }

  /**
   * The filter keeps the list order, keeps exactly the expenses whose date
   * reads and lies in the range, each as many times as it occurs, and every
   * kept expense has a readable date.
   */
  lemma FilterByRangeSpec(xs: seq<Expense>, range: int, today: Date)
    requires ValidDate(today)
    ensures IsSubsequence(FilterByRange(xs, range, today), xs)
    ensures forall e :: e in FilterByRange(xs, range, today) <==> e in xs && Keeps(e, range, today)
    ensures forall e :: multiset(FilterByRange(xs, range, today))[e] == if Keeps(e, range, today) then multiset(xs)[e] else 0
    ensures forall i :: 0 <= i < |FilterByRange(xs, range, today)| ==>
      ParseDate(FilterByRange(xs, range, today)[i]).Some?
  {
    FilterSpec(xs, RangeTest(range, today));
    var r := FilterByRange(xs, range, today);
    assert forall i :: 0 <= i < |r| ==> r[i] in r;
  }

  /** An index other than 0, 1 and 2 empties the list. */
  lemma UnknownRangeIsEmpty(xs: seq<Expense>, range: int, today: Date)
    requires ValidDate(today) && (range < 0 || range > 2)
    ensures FilterByRange(xs, range, today) == []
  {
    FilterKeepsNone(xs, RangeTest(range, today));
  }

  /** A range whose dates all belong to a wider range selects a subsequence of it. */
  lemma FilterByRangeNarrower(xs: seq<Expense>, narrow: int, wide: int, today: Date)
    requires ValidDate(today)
    requires forall d :: InRange(d, narrow, today) ==> InRange(d, wide, today)
    ensures IsSubsequence(FilterByRange(xs, narrow, today), FilterByRange(xs, wide, today))
  {
    FilterNarrower(xs, RangeTest(narrow, today), RangeTest(wide, today));
  }

  /** A date of the current month is not before the same day three months ago. */
  lemma CurrentMonthWithinThreeMonths(d: Date, today: Date)
    requires ValidDate(today) && InRange(d, 0, today)
    ensures InRange(d, 1, today) && InRange(d, 2, today)
  {
    var t3 := MinusMonths(today, 3);
    assert MonthIndex(YearMonthOf(t3)) == MonthIndex(YearMonthOf(d)) - 3;
  }

  /** The month's expenses are among the three months' and among the year's. */
  lemma MonthSelectionNested(xs: seq<Expense>, today: Date)
    requires ValidDate(today)
    ensures IsSubsequence(FilterByRange(xs, 0, today), FilterByRange(xs, 1, today))
    ensures IsSubsequence(FilterByRange(xs, 0, today), FilterByRange(xs, 2, today))
  {
    forall d | InRange(d, 0, today) ensures InRange(d, 1, today) && InRange(d, 2, today) {
      CurrentMonthWithinThreeMonths(d, today);
    }
    FilterByRangeNarrower(xs, 0, 1, today);
    FilterByRangeNarrower(xs, 0, 2, today);
  }

  // ---------------------------------------------------------------------------
  // Totals per range
  // ---------------------------------------------------------------------------

  /** `calculateTotals`: the sum of the amounts and the number of expenses. */
  function CalculateTotals(xs: seq<Expense>): (real, int)
  {
    (SumAmounts(xs), |xs|)
  }

  /** The totals of two lists laid end to end are the sums of their totals. */
  lemma CalculateTotalsAppend(a: seq<Expense>, b: seq<Expense>)
    ensures CalculateTotals(a + b) == (CalculateTotals(a).0 + CalculateTotals(b).0, CalculateTotals(a).1 + CalculateTotals(b).1)
  {
    SumAmountsAppend(a, b);
  }

  /** The number of days each range's average divides by; other indices show 0. */
  function Divisor(range: int): real
    requires 0 <= range <= 2
  {
    if range == 0 then 30.0 else if range == 1 then 92.0 else 365.0
  }

  function RangeTotal(xs: seq<Expense>, range: int, today: Date): real
    requires ValidDate(today)
  {
    CalculateTotals(FilterByRange(xs, range, today)).0
  }

  function RangeCount(xs: seq<Expense>, range: int, today: Date): int
    requires ValidDate(today)
  {
    CalculateTotals(FilterByRange(xs, range, today)).1
  }

  /**
   * With non-negative amounts, the month's total and count never exceed the
   * three months' nor the year's, and none of them exceeds the whole list.
   */
  lemma RangeTotalsOrdered(xs: seq<Expense>, today: Date)
    requires ValidDate(today) && NonNegativeAmounts(xs)
    ensures 0.0 <= RangeTotal(xs, 0, today) <= RangeTotal(xs, 1, today) <= SumAmounts(xs)
    ensures RangeTotal(xs, 0, today) <= RangeTotal(xs, 2, today) <= SumAmounts(xs)
    ensures 0 <= RangeCount(xs, 0, today) <= RangeCount(xs, 1, today) <= |xs|
    ensures RangeCount(xs, 0, today) <= RangeCount(xs, 2, today) <= |xs|
  {
    var m := FilterByRange(xs, 0, today);
    var q := FilterByRange(xs, 1, today);
    var y := FilterByRange(xs, 2, today);
    MonthSelectionNested(xs, today);
    FilterByRangeSpec(xs, 1, today);
    FilterByRangeSpec(xs, 2, today);
    SubsequenceNonNegative(q, xs);
    SubsequenceNonNegative(y, xs);
    SubsequenceSumBound(m, q);
    SubsequenceSumBound(q, xs);
    SubsequenceSumBound(m, y);
    SubsequenceSumBound(y, xs);
    SubsequenceLength(m, q);
    SubsequenceLength(q, xs);
    SubsequenceLength(m, y);
    SubsequenceLength(y, xs);
  }

  lemma SubsequenceNonNegative(a: seq<Expense>, b: seq<Expense>)
    requires IsSubsequence(a, b) && NonNegativeAmounts(b)
    ensures NonNegativeAmounts(a)
  {
    SubsequenceElements(a, b);
    forall i | 0 <= i < |a| ensures a[i].amount >= 0.0 {
      assert a[i] in b;
      var j :| 0 <= j < |b| && b[j] == a[i];
    }
  }

  // ---------------------------------------------------------------------------
  // The six-month chart
  // ---------------------------------------------------------------------------

  /** `(0..5).map { startMonth.plusMonths(it) }` with `startMonth = endMonth.minusMonths(5)`. */
  function ChartMonths(now: YearMonth): (ms: seq<YearMonth>)
    ensures |ms| == 6
    ensures forall i :: 0 <= i < 6 ==> 1 <= ms[i].month <= 12 && MonthIndex(ms[i]) == MonthIndex(now) - 5 + i
  {
    var start := PlusMonths(now, -5);
    seq(6, i requires 0 <= i < 6 => PlusMonths(start, i))
  }

  /** The chart's months are six different months and the last one is the current month. */
  lemma ChartMonthsSpec(now: YearMonth)
    requires 1 <= now.month <= 12
    ensures Distinct(ChartMonths(now))
    ensures ChartMonths(now)[5] == now
  {
    var ms := ChartMonths(now);
    forall i, j | 0 <= i < j < 6 ensures ms[i] != ms[j] {
      assert MonthIndex(ms[i]) != MonthIndex(ms[j]);
    }
    MonthIndexInjective(ms[5], now);
  }

  /** The year-month of an expense whose date reads; nothing otherwise. */
  function MonthKey(e: Expense): Option<YearMonth> {
    match ParseDate(e)
    case Some(d) => Some(YearMonthOf(d))
    case None => None
  }

  /** `totals`: for each chart month, the sum of the expenses dated in it. */
  function ChartTotals(xs: seq<Expense>, now: YearMonth): (r: seq<real>)
    ensures |r| == 6
  {
    KeySums(xs, MonthKey, ChartMonths(now))
  }

  /**
   * Each bar is the total of the expenses whose date reads and falls in its
   * month, and the six bars add up to the total of the expenses dated in
   * the window.
   */
  lemma ChartTotalsSpec(xs: seq<Expense>, now: YearMonth)
    requires 1 <= now.month <= 12
    ensures forall i :: 0 <= i < 6 ==> ChartTotals(xs, now)[i] == SumAmounts(WithKey(xs, MonthKey, ChartMonths(now)[i]))
    ensures forall i, e :: 0 <= i < 6 && e in WithKey(xs, MonthKey, ChartMonths(now)[i]) <==>
      0 <= i < 6 && e in xs && ParseDate(e).Some? && YearMonthOf(ParseDate(e).value) == ChartMonths(now)[i]
    ensures SumReals(ChartTotals(xs, now)) == SumAmounts(WithKeyIn(xs, MonthKey, ChartMonths(now)))
  {
    var ms := ChartMonths(now);
    ChartMonthsSpec(now);
    SumOfKeySums(xs, MonthKey, ms);
    forall i | 0 <= i < 6 {
      WithKeySpec(xs, MonthKey, ms[i]);
    }
  }

  /** An expense whose date does not read changes no bar. */
  lemma ChartIgnoresUnreadableDates(xs: seq<Expense>, e: Expense, now: YearMonth)
    requires ParseDate(e).None?
    ensures ChartTotals(xs + [e], now) == ChartTotals(xs, now)
  {
    var ms := ChartMonths(now);
    forall i | 0 <= i < 6 ensures ChartTotals(xs + [e], now)[i] == ChartTotals(xs, now)[i] {
      KeySumSnoc(xs, MonthKey, e, ms[i]);
    }
  }

  /** `xLabel`: the English abbreviation of each chart month. */
  function ChartLabels(now: YearMonth): (r: seq<string>)
    ensures |r| == 6
  {
    var ms := ChartMonths(now);
    seq(6, i requires 0 <= i < 6 => MonthAbbrev(ms[i].month))
  }

  /** Each label reads back as its chart month's number, and the last is the current month's. */
  lemma ChartLabelsSpec(now: YearMonth)
    requires 1 <= now.month <= 12
    ensures forall i :: 0 <= i < 6 ==> MonthOfAbbrev(ChartLabels(now)[i]) == Some(ChartMonths(now)[i].month)
    ensures ChartLabels(now)[5] == MonthAbbrev(now.month)
  {
    var ms := ChartMonths(now);
    forall i | 0 <= i < 6 ensures MonthOfAbbrev(ChartLabels(now)[i]) == Some(ms[i].month) {
      MonthAbbrevRoundTrip(ms[i].month);
    }
    ChartMonthsSpec(now);
  }

  // ---------------------------------------------------------------------------
  // The category donut
  // ---------------------------------------------------------------------------

  /** `pickColorForCategory`. */
  function PickColor(c: Category): Color {
    match c
    case Food => Color(0xFFE91E63)
    case Transport => Color(0xFF3F51B5)
    case Fun => Color(0xFF9C27B0)
    case Shopping => Color(0xFFFFC107)
    case Health => Color(0xFF4CAF50)
    case Bills => Color(0xFFFF5722)
    case Education => Color(0xFF009688)
    case Travel => Color(0xFF03A9F4)
    case Other => Color(0xFF9E9E9E)
  }

  /** No two categories share a colour, and every colour is opaque. */
  lemma PickColorSpec(a: Category, b: Category)
    ensures PickColor(a) == PickColor(b) <==> a == b
    ensures 0xFF000000 <= PickColor(a).argb <= 0xFFFFFFFF
  {
  }

  function CategoryKey(e: Expense): Option<Category> {
    Some(e.category)
  }

  /** `groupBy { it.category }.map { DonutSlice(category, sum, colour) }`. */
  function Slices(list: seq<Expense>): seq<DonutSlice> {
    var ks := GroupKeys(list, CategoryKey);
    seq(|ks|, i requires 0 <= i < |ks| => DonutSlice(ks[i], KeySum(list, CategoryKey, ks[i]), PickColor(ks[i])))
  }

  function SliceAmounts(r: seq<DonutSlice>): seq<real> {
    seq(|r|, i requires 0 <= i < |r| => r[i].amount)
  }

  function SliceCategories(r: seq<DonutSlice>): seq<Category> {
    seq(|r|, i requires 0 <= i < |r| => r[i].category)
  }

  /** Slice `i` is the `i`-th group key with its group's total in its colour. */
  lemma SlicesShape(list: seq<Expense>)
    ensures SliceCategories(Slices(list)) == GroupKeys(list, CategoryKey)
    ensures SliceAmounts(Slices(list)) == KeySums(list, CategoryKey, GroupKeys(list, CategoryKey))
    ensures forall i :: 0 <= i < |Slices(list)| ==>
      Slices(list)[i].amount == SumAmounts(WithKey(list, CategoryKey, Slices(list)[i].category))
      && Slices(list)[i].color == PickColor(Slices(list)[i].category)
  {
  }

  /** The slices name each category that occurs exactly once. */
  lemma SlicesCategories(list: seq<Expense>)
    ensures Distinct(SliceCategories(Slices(list)))
    ensures forall c :: c in SliceCategories(Slices(list)) <==> exists e :: e in list && e.category == c
  {
    var ks := GroupKeys(list, CategoryKey);
    SlicesShape(list);
    GroupKeysSpec(list, CategoryKey);
    forall c | c in ks ensures exists e :: e in list && e.category == c {
      var j :| HasKey(list, CategoryKey, j, c);
      assert list[j] in list;
    }
    forall c | (exists e :: e in list && e.category == c) ensures c in ks {
      var e :| e in list && e.category == c;
      var j :| 0 <= j < |list| && list[j] == e;
      assert HasKey(list, CategoryKey, j, c);
    }
  }

  /** The slices add up to the total of the list. */
  lemma SlicesTotal(list: seq<Expense>)
    ensures SumReals(SliceAmounts(Slices(list))) == SumAmounts(list)
  {
    var ks := GroupKeys(list, CategoryKey);
    SlicesShape(list);
    GroupKeysSpec(list, CategoryKey);
    SumOfKeySums(list, CategoryKey, ks);
    forall j | 0 <= j < |list| ensures CategoryKey(list[j]).Some? && CategoryKey(list[j]).value in ks {
      assert HasKey(list, CategoryKey, j, list[j].category);
    }
    WithKeyInAll(list, CategoryKey, ks);
  }

  /**
   * One slice per category that occurs, each category once, in order of
   * first appearance; each slice holds the total of its category in its
   * colour, and the slices add up to the total of the list.
   */
  lemma SlicesSpec(list: seq<Expense>)
    ensures SliceCategories(Slices(list)) == GroupKeys(list, CategoryKey)
    ensures Distinct(SliceCategories(Slices(list)))
    ensures forall c :: c in SliceCategories(Slices(list)) <==> exists e :: e in list && e.category == c
    ensures forall i :: 0 <= i < |Slices(list)| ==>
      Slices(list)[i].amount == SumAmounts(WithKey(list, CategoryKey, Slices(list)[i].category))
      && Slices(list)[i].color == PickColor(Slices(list)[i].category)
    ensures SumReals(SliceAmounts(Slices(list))) == SumAmounts(list)
  {
    SlicesShape(list);
    SlicesCategories(list);
    SlicesTotal(list);
  }

  /** `getMonthlySlices`, `getThreeMonthSlices` and `getYearlySlice` for range 0, 1 and 2. */
  function GetSlices(xs: seq<Expense>, range: int, today: Date): (r: seq<DonutSlice>)
    requires ValidDate(today)
    ensures SumReals(SliceAmounts(r)) == RangeTotal(xs, range, today)
    ensures forall i :: 0 <= i < |r| ==> exists e :: e in xs && Keeps(e, range, today) && e.category == r[i].category
  {
    var list := FilterByRange(xs, range, today);
    SlicesSpec(list);
    FilterByRangeSpec(xs, range, today);
    assert forall i :: 0 <= i < |Slices(list)| ==> Slices(list)[i].category in SliceCategories(Slices(list));
    Slices(list)
  }

  // ---------------------------------------------------------------------------
  // The state holder
  // ---------------------------------------------------------------------------

  class AnalyticsViewModel {
    var uiState: AnalyticsUiState
    var chartPoints: seq<real>
    var xLabel: seq<string>
    var monthlyTotal: real
    var monthlyAverage: real
    var monthlyCount: int
    var threeMonthTotal: real
    var threeMonthAverage: real
    var threeMonthCount: int
    var yearlyTotal: real
    var yearlyAverage: real
    var yearlyCount: int
    var selectedRange: int

    /**
     * Each average is its total over the range's number of days, counts are
     * never negative, and the chart has as many labels as points: none
     * before the first non-empty load, six after it.
     */
    predicate Valid()
      reads this
    {
      && monthlyAverage == monthlyTotal / 30.0
      && threeMonthAverage == threeMonthTotal / 92.0
      && yearlyAverage == yearlyTotal / 365.0
      && monthlyCount >= 0 && threeMonthCount >= 0 && yearlyCount >= 0
      && |chartPoints| == |xLabel|
      && (|chartPoints| == 0 || |chartPoints| == 6)
    }

    /** The nine summary fields are those of `expenses` on `today`. */
    predicate Summarises(expenses: seq<Expense>, today: Date)
      requires ValidDate(today)
      reads this
    {
      && monthlyTotal == RangeTotal(expenses, 0, today)
      && monthlyCount == RangeCount(expenses, 0, today)
      && monthlyAverage == monthlyTotal / 30.0
      && threeMonthTotal == RangeTotal(expenses, 1, today)
      && threeMonthCount == RangeCount(expenses, 1, today)
      && threeMonthAverage == threeMonthTotal / 92.0
      && yearlyTotal == RangeTotal(expenses, 2, today)
      && yearlyCount == RangeCount(expenses, 2, today)
      && yearlyAverage == yearlyTotal / 365.0
    }

    /** The field values before the first load has run. */
    constructor ()
      ensures Valid()
      ensures uiState == Idle && chartPoints == [] && xLabel == [] && selectedRange == 0
      ensures monthlyTotal == 0.0 && monthlyCount == 0
      ensures threeMonthTotal == 0.0 && threeMonthCount == 0
      ensures yearlyTotal == 0.0 && yearlyCount == 0
    {
      uiState := Idle;
      chartPoints := [];
      xLabel := [];
      monthlyTotal := 0.0;
      monthlyAverage := 0.0;
      monthlyCount := 0;
      threeMonthTotal := 0.0;
      threeMonthAverage := 0.0;
      threeMonthCount := 0;
      yearlyTotal := 0.0;
      yearlyAverage := 0.0;
      yearlyCount := 0;
      selectedRange := 0;
    }

    /** `activeTotal`: the total of the selected range, 0 for an unknown index. */
    function ActiveTotal(): real
      reads this
    {
      if selectedRange == 0 then monthlyTotal
      else if selectedRange == 1 then threeMonthTotal
      else if selectedRange == 2 then yearlyTotal
      else 0.0
    }

    /** `activeAverage`. */
    function ActiveAverage(): real
      reads this
    {
      if selectedRange == 0 then monthlyAverage
      else if selectedRange == 1 then threeMonthAverage
      else if selectedRange == 2 then yearlyAverage
      else 0.0
    }

    /** `activeCount`. */
    function ActiveCount(): int
      reads this
    {
      if selectedRange == 0 then monthlyCount
      else if selectedRange == 1 then threeMonthCount
      else if selectedRange == 2 then yearlyCount
      else 0
    }

    /**
     * When the fields summarise `expenses`, the active figures are those of
     * the selected range, and all three are 0 for an unknown index.
     */
    lemma ActiveFigures(expenses: seq<Expense>, today: Date)
      requires ValidDate(today) && Summarises(expenses, today)
      ensures 0 <= selectedRange <= 2 ==>
        && ActiveTotal() == RangeTotal(expenses, selectedRange, today)
        && ActiveCount() == |FilterByRange(expenses, selectedRange, today)|
        && ActiveAverage() == ActiveTotal() / Divisor(selectedRange)
      ensures (selectedRange < 0 || selectedRange > 2) ==>
        ActiveTotal() == 0.0 && ActiveAverage() == 0.0 && ActiveCount() == 0
    {
    }

    /** `monthlySlice`, `threeMonthSlice` and `yearlySlice`: the donut of the loaded list, or none. */
    function StateSlices(range: int, today: Date): (r: seq<DonutSlice>)
      requires ValidDate(today)
      reads this
      ensures !uiState.Success? ==> r == []
      ensures uiState.Success? ==> SumReals(SliceAmounts(r)) == RangeTotal(uiState.expenses, range, today)
    {
      if uiState.Success? then GetSlices(uiState.expenses, range, today) else []
    }

    /** `loadExpenses` as it starts. */
    method BeginLoad()
      requires Valid()
      modifies this
      ensures Valid()
      ensures uiState == Loading
      ensures chartPoints == old(chartPoints) && xLabel == old(xLabel) && selectedRange == old(selectedRange)
      ensures monthlyTotal == old(monthlyTotal) && threeMonthTotal == old(threeMonthTotal) && yearlyTotal == old(yearlyTotal)
      ensures monthlyCount == old(monthlyCount) && threeMonthCount == old(threeMonthCount) && yearlyCount == old(yearlyCount)
    {
      uiState := Loading;
    }

    /** `computeAnalysis`: the three ranges' totals, counts and averages. */
    method ComputeAnalysis(expenses: seq<Expense>, today: Date)
      requires ValidDate(today) && Valid()
      modifies this
      ensures Valid() && Summarises(expenses, today)
      ensures uiState == old(uiState) && chartPoints == old(chartPoints) && xLabel == old(xLabel)
      ensures selectedRange == old(selectedRange)
    {
      var month := CalculateTotals(FilterByRange(expenses, 0, today));
      monthlyTotal := month.0;
      monthlyCount := month.1;
      monthlyAverage := month.0 / 30.0;
      var threeMonths := CalculateTotals(FilterByRange(expenses, 1, today));
      threeMonthTotal := threeMonths.0;
      threeMonthCount := threeMonths.1;
      threeMonthAverage := threeMonths.0 / 92.0;
      var year := CalculateTotals(FilterByRange(expenses, 2, today));
      yearlyTotal := year.0;
      yearlyCount := year.1;
      yearlyAverage := year.0 / 365.0;
    }

    /** `computeChart`: nothing happens for an empty list. */
    method ComputeChart(expenses: seq<Expense>, today: Date)
      requires ValidDate(today) && Valid()
      modifies this
      ensures Valid()
      ensures expenses == [] ==> chartPoints == old(chartPoints) && xLabel == old(xLabel)
      ensures expenses != [] ==>
        chartPoints == ChartTotals(expenses, YearMonthOf(today)) && xLabel == ChartLabels(YearMonthOf(today))
      ensures uiState == old(uiState) && selectedRange == old(selectedRange)
      ensures monthlyTotal == old(monthlyTotal) && threeMonthTotal == old(threeMonthTotal) && yearlyTotal == old(yearlyTotal)
      ensures monthlyCount == old(monthlyCount) && threeMonthCount == old(threeMonthCount) && yearlyCount == old(yearlyCount)
      ensures monthlyAverage == old(monthlyAverage) && threeMonthAverage == old(threeMonthAverage)
      ensures yearlyAverage == old(yearlyAverage)
    {
      if expenses == [] {
        return;
      }
      var now := YearMonthOf(today);
      chartPoints := ChartTotals(expenses, now);
      xLabel := ChartLabels(now);
    }

    /** The successful end of `loadExpenses`: publish the list, then chart it and sum it. */
    method OnExpensesLoaded(expenses: seq<Expense>, today: Date)
      requires ValidDate(today) && Valid()
      modifies this
      ensures Valid() && Summarises(expenses, today)
      ensures uiState == Success(expenses) && selectedRange == old(selectedRange)
      ensures expenses == [] ==> chartPoints == old(chartPoints) && xLabel == old(xLabel)
      ensures expenses != [] ==>
        chartPoints == ChartTotals(expenses, YearMonthOf(today)) && xLabel == ChartLabels(YearMonthOf(today))
      ensures 0 <= selectedRange <= 2 ==> ActiveTotal() == RangeTotal(expenses, selectedRange, today)
    {
      uiState := Success(expenses);
      ComputeChart(expenses, today);
      ComputeAnalysis(expenses, today);
      ActiveFigures(expenses, today);
    }

    /** The failing end of `loadExpenses`: the failure's message, or the default one. */
    method OnLoadFailed(message: Option<string>)
      requires Valid()
      modifies this
      ensures Valid()
      ensures uiState == Error(message.GetOr(DefaultErrorMessage))
      ensures chartPoints == old(chartPoints) && xLabel == old(xLabel) && selectedRange == old(selectedRange)
      ensures monthlyTotal == old(monthlyTotal) && threeMonthTotal == old(threeMonthTotal) && yearlyTotal == old(yearlyTotal)
      ensures monthlyCount == old(monthlyCount) && threeMonthCount == old(threeMonthCount) && yearlyCount == old(yearlyCount)
    {
      uiState := Error(message.GetOr(DefaultErrorMessage));
    }

    /**
     * `selectedRange(index)`: record the index and, when a list is loaded,
     * recompute the summaries, so that the active figures are the selected
     * range's.
     */
    method SelectRange(index: int, today: Date)
      requires ValidDate(today) && Valid()
      modifies this
      ensures Valid()
      ensures selectedRange == index && uiState == old(uiState)
      ensures chartPoints == old(chartPoints) && xLabel == old(xLabel)
      ensures uiState.Success? ==> Summarises(uiState.expenses, today)
      ensures !uiState.Success? ==>
        monthlyTotal == old(monthlyTotal) && threeMonthTotal == old(threeMonthTotal) && yearlyTotal == old(yearlyTotal)
        && monthlyCount == old(monthlyCount) && threeMonthCount == old(threeMonthCount) && yearlyCount == old(yearlyCount)
      ensures uiState.Success? && 0 <= index <= 2 ==>
        && ActiveTotal() == RangeTotal(uiState.expenses, index, today)
        && ActiveCount() == |FilterByRange(uiState.expenses, index, today)|
        && ActiveAverage() == ActiveTotal() / Divisor(index)
      ensures (index < 0 || index > 2) ==> ActiveTotal() == 0.0 && ActiveAverage() == 0.0 && ActiveCount() == 0
    {
      selectedRange := index;
      if uiState.Success? {
        ComputeAnalysis(uiState.expenses, today);
        ActiveFigures(uiState.expenses, today);
      }
    }
  }
}
