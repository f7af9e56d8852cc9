/**
 * The history screen's state holder: the search and selection fields, and
 * the overview that counts the loaded expenses and sums them overall and
 * for the current month. Its month test reads dates with the lenient
 * reader of `DateHelper`, so a date it cannot read counts as today. The
 * overview uses the reader with the day-of-month letter; the reader as
 * written, with the day-of-year letter, is kept beside it to show what it
 * does to the month sum.
 */
module History {
  import opened Wrappers
  import opened Text
  import opened Calendar
  import opened ExpenseModel
  import opened Subsequences
  import opened Grouping
  import opened DateHelper
  import opened DatePatterns

  datatype HistoryState =
    | Loading
    | Success(expenses: seq<Expense>)
    | Error(message: string)

  /** The message shown when a failure carries none of its own. */
  const DefaultErrorMessage: string := "Something Went Wrong"

  /** The category drop-down's entries. */
  const DropDownCategories: seq<string> :=
    ["Food", "Transport", "Fun", "Shopping", "Health", "Bills", "Education", "Travel", "Other", "All Categories"]

  /** The sort drop-down's entries. */
  const SortOptions: seq<string> := ["Date", "Amount", "None"]

  /** Whether the expense's local date falls in today's year-month. */
  predicate InCurrentMonth(e: Expense, today: Date) {
    YearMonthOf(LocalDateCorrected(e, today)) == YearMonthOf(today)
  }

  /** The same test with `localDate()` as written. */
  predicate InCurrentMonthAsWritten(e: Expense, today: Date) {
    YearMonthOf(LocalDate(e, today)) == YearMonthOf(today)
  }

  function CurrentMonthTest(today: Date): Expense -> bool {
    e => InCurrentMonth(e, today)
  }

  function CurrentMonthTestAsWritten(today: Date): Expense -> bool {
    e => InCurrentMonthAsWritten(e, today)
  }

  /** `filter { YearMonth.from(it.localDate()) == nowYM }`, with the corrected reader. */
  function CurrentMonthExpenses(xs: seq<Expense>, today: Date): seq<Expense> {
    Filter(xs, CurrentMonthTest(today))
  }

  /** The same filter with `localDate()` as written. */
  function CurrentMonthExpensesAsWritten(xs: seq<Expense>, today: Date): seq<Expense> {
    Filter(xs, CurrentMonthTestAsWritten(today))
  }

  /** The month sum of the overview, with the corrected reader. */
  function MonthSum(xs: seq<Expense>, today: Date): real {
    SumAmounts(CurrentMonthExpenses(xs, today))
  }

  /** The month sum with `localDate()` as written. */
  function MonthSumAsWritten(xs: seq<Expense>, today: Date): real {
    SumAmounts(CurrentMonthExpensesAsWritten(xs, today))
  }

  /**
   * The month's expenses are, in order, those whose local date (corrected
   * reader) falls in today's month, each as many times as it occurs.
   */
  lemma CurrentMonthExpensesSpec(xs: seq<Expense>, today: Date)
    ensures IsSubsequence(CurrentMonthExpenses(xs, today), xs)
    ensures forall e :: e in CurrentMonthExpenses(xs, today) <==> e in xs && InCurrentMonth(e, today)
    ensures forall e :: multiset(CurrentMonthExpenses(xs, today))[e] == if InCurrentMonth(e, today) then multiset(xs)[e] else 0
  {
    FilterSpec(xs, CurrentMonthTest(today));
  }

  /** The same with `localDate()` as written. */
  lemma CurrentMonthExpensesAsWrittenSpec(xs: seq<Expense>, today: Date)
    ensures IsSubsequence(CurrentMonthExpensesAsWritten(xs, today), xs)
    ensures forall e :: e in CurrentMonthExpensesAsWritten(xs, today) <==> e in xs && InCurrentMonthAsWritten(e, today)
    ensures forall e :: multiset(CurrentMonthExpensesAsWritten(xs, today))[e] == if InCurrentMonthAsWritten(e, today) then multiset(xs)[e] else 0
  {
    FilterSpec(xs, CurrentMonthTestAsWritten(today));
  }

  /** With non-negative amounts the month sum lies between zero and the overall sum. */
  lemma MonthSumAtMostOverall(xs: seq<Expense>, today: Date)
    requires NonNegativeAmounts(xs)
    ensures 0.0 <= MonthSum(xs, today) <= SumAmounts(xs)
    ensures 0.0 <= MonthSumAsWritten(xs, today) <= SumAmounts(xs)
  {
    CurrentMonthExpensesSpec(xs, today);
    SubsequenceSumBound(CurrentMonthExpenses(xs, today), xs);
    CurrentMonthExpensesAsWrittenSpec(xs, today);
    SubsequenceSumBound(CurrentMonthExpensesAsWritten(xs, today), xs);
  }

  /** An expense dated by the add-expense form counts exactly when the form's date is in today's month. */
  lemma AppDatedExpenseInMonthIff(e: Expense, d: Date, today: Date)
    requires ValidDate(d) && d.year >= 1 && e.date == FormatDate(d)
    ensures InCurrentMonth(e, today) <==> d.year == today.year && d.month == today.month
  {
    CorrectedReadsAppDates(d, today);
  }

  /** An expense whose date neither day-of-month pattern reads is counted in the current month. */
  lemma UnreadableDateCountsAsCurrentMonth(e: Expense, today: Date)
    requires ParseDayOfMonthPattern(e.date, CommaSpace).None? && ParseDayOfMonthPattern(e.date, SpaceComma).None?
    ensures InCurrentMonth(e, today)
  {
  }

  /** As written: an expense whose date neither day-of-year pattern reads is counted in the current month. */
  lemma UnreadableDateCountsAsCurrentMonthAsWritten(e: Expense, today: Date)
    requires ParseDayOfYearPattern(e.date, CommaSpace).None? && ParseDayOfYearPattern(e.date, SpaceComma).None?
    ensures InCurrentMonthAsWritten(e, today)
  {
    SafeDateFormatterSpec(e.date, today);
  }

  /**
   * As written, the lenient reader misreads the app's own dates outside
   * January, so an expense written for any other month by the add-expense
   * form counts in the current month, whatever its own month.
   */
  lemma AppDatedExpenseCountsAsCurrentMonth(e: Expense, d: Date, today: Date)
    requires ValidDate(d) && d.year >= 1 && d.month != 1 && e.date == FormatDate(d)
    ensures InCurrentMonthAsWritten(e, today)
  {
    AppDatesAsWritten(d, today);
  }

  /**
   * As written, when every expense was dated by the add-expense form outside
   * January, the month's list is the whole list and the month sum is the
   * overall sum.
   */
  lemma AppDatedOutsideJanuaryMonthSumIsOverall(xs: seq<Expense>, ds: seq<Date>, today: Date)
    requires |ds| == |xs|
    requires forall i :: 0 <= i < |xs| ==>
      ValidDate(ds[i]) && ds[i].year >= 1 && ds[i].month != 1 && xs[i].date == FormatDate(ds[i])
    ensures CurrentMonthExpensesAsWritten(xs, today) == xs
    ensures MonthSumAsWritten(xs, today) == SumAmounts(xs)
  {
    forall i | 0 <= i < |xs| ensures InCurrentMonthAsWritten(xs[i], today) {
      var e, d := xs[i], ds[i];
      AppDatedExpenseCountsAsCurrentMonth(e, d, today);
    }
    FilterKeepsAll(xs, CurrentMonthTestAsWritten(today));
  }

  class HistoryViewModel {
    var uiState: HistoryState
    var query: string
    var selectedCategory: string
    var selectedSort: string
    /** `expenses.size.toString()`. */
    var totalExpense: string
    /** The overall sum; `None` stands for the empty text shown before the first overview. */
    var overallExpense: Option<real>
    /** The current month's sum; `None` stands for the empty text shown before the first overview. */
    var monthExpense: Option<real>

    /** The field values before the first load has run. */
    constructor ()
      ensures uiState == Loading && query == "" && selectedCategory == "All Categories"
      ensures selectedSort == "None" && totalExpense == "0"
      ensures overallExpense == None && monthExpense == None
    {
      uiState := Loading;
      query := "";
      selectedCategory := "All Categories";
      selectedSort := "None";
      totalExpense := "0";
      overallExpense := None;
      monthExpense := None;
    }

    /** `onQueryChange`: stores the input as it is. */
    method OnQueryChange(input: string)
      modifies this
      ensures query == input
      ensures uiState == old(uiState) && selectedCategory == old(selectedCategory) && selectedSort == old(selectedSort)
      ensures totalExpense == old(totalExpense) && overallExpense == old(overallExpense) && monthExpense == old(monthExpense)
    {
      query := input;
    }

    /** `onExpandedChange`: stores the selected category; it is not checked against the drop-down. */
    method OnExpandedChange(input: string)
      modifies this
      ensures selectedCategory == input
      ensures uiState == old(uiState) && query == old(query) && selectedSort == old(selectedSort)
      ensures totalExpense == old(totalExpense) && overallExpense == old(overallExpense) && monthExpense == old(monthExpense)
    {
      selectedCategory := input;
    }

    /** `onSortChange`: stores the sort option; it is not checked against the options. */
    method OnSortChange(input: string)
      modifies this
      ensures selectedSort == input
      ensures uiState == old(uiState) && query == old(query) && selectedCategory == old(selectedCategory)
      ensures totalExpense == old(totalExpense) && overallExpense == old(overallExpense) && monthExpense == old(monthExpense)
    {
      selectedSort := input;
    }

    /**
     * `expenseOverview`: the loop assigns the same three values on every
     * pass without looking at its element, so an empty list changes
     * nothing and any other list ends as after a single pass.
     */
    method ExpenseOverview(expenses: seq<Expense>, today: Date)
      modifies this
      ensures expenses == [] ==>
        totalExpense == old(totalExpense) && overallExpense == old(overallExpense) && monthExpense == old(monthExpense)
      ensures expenses != [] ==>
        && totalExpense == NatToString(|expenses|)
        && overallExpense == Some(SumAmounts(expenses))
        && monthExpense == Some(MonthSum(expenses, today))
      ensures uiState == old(uiState) && query == old(query)
      ensures selectedCategory == old(selectedCategory) && selectedSort == old(selectedSort)
    {
      var i := 0;
      while i < |expenses|
        invariant 0 <= i <= |expenses|
        invariant i == 0 ==>
          totalExpense == old(totalExpense) && overallExpense == old(overallExpense) && monthExpense == old(monthExpense)
        invariant i > 0 ==>
          && totalExpense == NatToString(|expenses|)
          && overallExpense == Some(SumAmounts(expenses))
          && monthExpense == Some(MonthSum(expenses, today))
        invariant uiState == old(uiState) && query == old(query)
        invariant selectedCategory == old(selectedCategory) && selectedSort == old(selectedSort)
      {
        totalExpense := NatToString(|expenses|);
        overallExpense := Some(SumAmounts(expenses));
        monthExpense := Some(MonthSum(expenses, today));
        i := i + 1;
      }
    }

    /** The start of `loadExpenses`: the state becomes `Loading`. */
    method BeginLoad()
      modifies this
      ensures uiState == Loading
      ensures query == old(query) && selectedCategory == old(selectedCategory) && selectedSort == old(selectedSort)
      ensures totalExpense == old(totalExpense) && overallExpense == old(overallExpense) && monthExpense == old(monthExpense)
    {
      uiState := Loading;
    }

    /** The successful end of `loadExpenses`: publish the list, then summarise it. */
    method OnExpensesLoaded(expenses: seq<Expense>, today: Date)
      modifies this
      ensures uiState == Success(expenses)
      ensures expenses == [] ==>
        totalExpense == old(totalExpense) && overallExpense == old(overallExpense) && monthExpense == old(monthExpense)
      ensures expenses != [] ==>
        && totalExpense == NatToString(|expenses|)
        && overallExpense == Some(SumAmounts(expenses))
        && monthExpense == Some(MonthSum(expenses, today))
      ensures query == old(query) && selectedCategory == old(selectedCategory) && selectedSort == old(selectedSort)
    {
      uiState := Success(expenses);
      ExpenseOverview(expenses, today);
    }

    /** The failing end of `loadExpenses`: the failure's message, or the default one. */
    method OnLoadFailed(message: Option<string>)
      modifies this
      ensures uiState == Error(message.GetOr(DefaultErrorMessage))
      ensures query == old(query) && selectedCategory == old(selectedCategory) && selectedSort == old(selectedSort)
      ensures totalExpense == old(totalExpense) && overallExpense == old(overallExpense) && monthExpense == old(monthExpense)
    {
      uiState := Error(message.GetOr(DefaultErrorMessage));
    }

    /** After an overview, the shown month sum never exceeds the shown overall sum for non-negative amounts. */
    lemma OverviewBounded(expenses: seq<Expense>, today: Date)
      requires expenses != [] && NonNegativeAmounts(expenses)
      requires overallExpense == Some(SumAmounts(expenses)) && monthExpense == Some(MonthSum(expenses, today))
      ensures 0.0 <= monthExpense.value <= overallExpense.value
    {
      MonthSumAtMostOverall(expenses, today);
    }
  }
}
