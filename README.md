# ExpenseFlow core, modelled in Dafny

ExpenseFlow is an Android expense tracker. This project models its core logic:
- **The expense record.** A record with a category and a payment method (closed enumerations with lower-case labels), and its wire form, which carries the two as plain strings.
- **Reading and writing dates.** The app writes dates as "MMM d ,yyyy". It reads them back in two ways: the analytics screen parses strictly, while the history screen uses a lenient reader that falls back to today.
- **The add-expense form.** Its state holder validates the form every time a field changes.
- **The history screen.** Its state holder counts the loaded expenses and sums them, both overall and for the current month. The screen's search box and category filter are modelled too.
- **The analytics screen.** Its state holder filters expenses by range: the current month, the last three months or the current year. For each range it computes the total, count and average. It also builds a six-month bar chart and a category donut chart.

Layout:

| file | module | what it holds |
|---|---|---|
| `wrappers.dfy` | `Wrappers` | `Option`, Kotlin's nullable values and `?:` |
| `text.dfy` | `Text` | case mapping, `isBlank`, `trim`, `contains`, decimal numerals |
| `calendar.dfy` | `Calendar` | the proleptic Gregorian calendar of `LocalDate`/`YearMonth`: day of year, `minusMonths`, `plusMonths` |
| `date_patterns.dfy` | `DatePatterns` | the `DateTimeFormatter` patterns "MMM D, yyyy", "MMM D ,yyyy", "MMM d ,yyyy": scanning, SMART resolution, formatting |
| `expense.dfy` | `ExpenseModel` | `Category`, `PaymentMethod`, `Expense`, sums of amounts |
| `expense_dto.dfy` | `ExpenseDto` | `toDomain`, `toDto`, `toCategory`, `toPaymentMethod` |
| `date_helper.dfy` | `DateHelper` | `safeDateFormatter`, `localDate` |
| `add_expense_utils.dfy` | `AddExpenseUtils` | `formattedDescription`, `dateFormatter` |
| `subsequences.dfy` | `Subsequences` | Kotlin's `filter` and order-preserving subsequences |
| `grouping.dfy` | `Grouping` | `groupBy` keys and per-key sums |
| `analytics.dfy` | `Analytics` | `AnalyticsViewModel` |
| `history_screen.dfy` | `HistoryFilter` | the history list filter and the label capitalisation |
| `history_view_model.dfy` | `History` | `HistoryViewModel` |
| `add_screen_view_model.dfy` | `AddScreen` | `AddScreenViewmodel`'s fields, `validate` and setters |

Conventions of the model:
- **Amounts.** Amounts (`Double` in the source) are mathematical reals.
- **"Now".** Every reading of the clock (`LocalDate.now()`, `YearMonth.now()`) is a `today` parameter.
- **State holders.** Each state holder is a class. Its `MutableStateFlow` fields are plain fields, and a source function that updates them is a method with a `modifies` clause.
- **Repository fetch.** The coroutine that fetches from the repository becomes two events:
  - `OnExpensesLoaded`, the successful fetch followed by the same updates;
  - `OnLoadFailed`, which takes the exception's message, or none.
- **Case mapping.** Upper- and lower-casing are modelled for ASCII letters only. All other characters are left as they are.

Three behaviours of the code a reader may not expect:
- A date without a space before the comma ("Jan 05,2024") does not parse with either pattern of `safeDateFormatter`, so it is read as today (`DateHelper.NoSpaceExample`).
- The history view model computes no percentages and sorts nothing: `selectedSort` is only stored.
- The history overview's loop writes the same three values on every pass.

## Model

| member | source | states |
|---|---|---|
| ExpenseModel.IdDefaultsToAbsent | app/src/main/java/com/example/expenseflow/data/model/Expense.kt:20-27 | an expense built without an id has no id |
| ExpenseModel.EntriesAreComplete | app/src/main/java/com/example/expenseflow/data/model/Expense.kt:3-19 | `entries` lists every category once in declaration order, ending in OTHER, and every payment method once, starting with CASH |
| ExpenseModel.LabelsAreLowercaseNames | app/src/main/java/com/example/expenseflow/data/model/Expense.kt:3-19 | each constant's label is its name lower-cased, and is never empty |
| ExpenseModel.CategoryLabelLowercasesName | app/src/main/java/com/example/expenseflow/data/model/Expense.kt:3-13 | a category's label has its name's length and is its name letter by letter lower-cased |
| ExpenseModel.LabelsAreDistinct | app/src/main/java/com/example/expenseflow/data/model/Expense.kt:3-19 | no two constants of one enumeration share a label |
| ExpenseModel.SumAmountsAppend | app/src/main/java/com/example/expenseflow/viewmodel/AnalyticsViewModel.kt:130-132 | `sumOf { it.amount }` over two concatenated lists is the sum of the two sums |
| ExpenseDto.FirstWithLabel | app/src/main/java/com/example/expenseflow/data/remote/ExpenseDto.kt:35-41 | `entries.firstOrNull { it.label == this }`, for either enumeration, returns an entry with the label, and returns none only when no entry has it |
| ExpenseDto.ToCategorySpec | app/src/main/java/com/example/expenseflow/data/remote/ExpenseDto.kt:35-37 | a string is read as the category with exactly that label, otherwise as OTHER |
| ExpenseDto.ToPaymentMethodSpec | app/src/main/java/com/example/expenseflow/data/remote/ExpenseDto.kt:39-41 | a string is read as the payment method with exactly that label, otherwise as CASH |
| ExpenseDto.LabelRoundTrip | app/src/main/java/com/example/expenseflow/data/remote/ExpenseDto.kt:35-41 | every constant is read back from its own label |
| ExpenseDto.CapitalisedLabelIsOther | app/src/main/java/com/example/expenseflow/data/remote/ExpenseDto.kt:35-37 | the comparison is case-sensitive: "Food" is read as OTHER |
| ExpenseDto.ToDomain | app/src/main/java/com/example/expenseflow/data/remote/ExpenseDto.kt:16-23 | id, amount, date and description are copied; the category is `toCategory()` of the category string and the payment method `toPaymentMethod()` of the payment string |
| ExpenseDto.ToDto | app/src/main/java/com/example/expenseflow/data/remote/ExpenseDto.kt:25-32 | the fields are copied and the two constants become their labels |
| ExpenseDto.DomainRoundTrip | app/src/main/java/com/example/expenseflow/data/remote/ExpenseDto.kt:16-32 | converting an expense to its wire form and back gives the same expense |
| ExpenseDto.NormalisationIdempotent | app/src/main/java/com/example/expenseflow/data/remote/ExpenseDto.kt:16-32 | once a wire record has been read, writing it and reading it again changes nothing |
| ExpenseDto.DtoRoundTrip | app/src/main/java/com/example/expenseflow/data/remote/ExpenseDto.kt:16-41 | a wire record survives reading and writing exactly when both of its strings are labels |
| Calendar.FromDayOfYear | app/src/main/java/com/example/expenseflow/core/utils/DateHelper.kt:8-9 | the date with a given day of the year (`LocalDate.ofYearDay`) lies in that year and has that day of the year |
| Calendar.FromDayOfYearInverse | app/src/main/java/com/example/expenseflow/core/utils/DateHelper.kt:8-9 | every valid date is the date of its own day of the year |
| Calendar.EarlyDayOfYearIsJanuary | app/src/main/java/com/example/expenseflow/core/utils/DateHelper.kt:8-9 | days 1 to 31 of the year fall in January, on the same day of the month |
| Calendar.MinusMonths | app/src/main/java/com/example/expenseflow/viewmodel/AnalyticsViewModel.kt:115-116 | `minusMonths` moves back by exactly n months and clamps the day to the length of the new month |
| Calendar.PlusMonths | app/src/main/java/com/example/expenseflow/viewmodel/AnalyticsViewModel.kt:157-159 | `plusMonths` on a year-month moves by exactly n months |
| Calendar.MonthIndexInjective | app/src/main/java/com/example/expenseflow/viewmodel/AnalyticsViewModel.kt:157-165 | two year-months are equal if and only if their month indices are |
| DatePatterns.MonthAbbrevRoundTrip | app/src/main/java/com/example/expenseflow/viewmodel/AnalyticsViewModel.kt:35 | the English month abbreviation written for month m is read back as m |
| DatePatterns.ScanFields | app/src/main/java/com/example/expenseflow/core/utils/DateHelper.kt:8-9 | a text is scanned as "MMM", a space, a number, the separator and `yyyy`; any month it accepts is a real month |
| DatePatterns.ResolveYear | app/src/main/java/com/example/expenseflow/core/utils/DateHelper.kt:8-9 | a scanned year-of-era is accepted exactly when it lies in 1..999,999,999, and it is then that year |
| DatePatterns.ResolveDayOfYearSpec | app/src/main/java/com/example/expenseflow/core/utils/DateHelper.kt:8-9 | a `D` pattern gives date d if and only if d is valid, lies in the scanned year and month, and has the scanned number as its day of the year |
| DatePatterns.ResolveDayOfMonthSpec | app/src/main/java/com/example/expenseflow/viewmodel/AnalyticsViewModel.kt:35 | a `d` pattern accepts exactly day numbers 1..31 in a year LocalDate can hold; a number past the month's end is clamped to the last day |
| DatePatterns.ParseDayOfYearPattern | app/src/main/java/com/example/expenseflow/core/utils/DateHelper.kt:8-9 | every date this parse returns is valid |
| DatePatterns.ParseDayOfMonthPattern | app/src/main/java/com/example/expenseflow/viewmodel/AnalyticsViewModel.kt:35 | every date this parse returns is valid |
| DatePatterns.YearOfEraRoundTrip | app/src/main/java/com/example/expenseflow/core/utils/AddExpenseUtils.kt:17 | the written `yyyy` of every year from 1 on is read back as that year |
| DatePatterns.ScanFormatted | app/src/main/java/com/example/expenseflow/core/utils/AddExpenseUtils.kt:17-18 | a formatted date scans back into its fields with its own separator, and does not scan at all with the other one |
| DatePatterns.DayOfMonthRoundTrip | app/src/main/java/com/example/expenseflow/viewmodel/AnalyticsViewModel.kt:35 | "MMM d ,yyyy" reads every date the form writes back as the same date; ", " before the year never matches |
| DatePatterns.FormattedNeverCommaSpace | app/src/main/java/com/example/expenseflow/core/utils/DateHelper.kt:8 | the first pattern of the lenient reader never matches a date the app writes |
| DatePatterns.DayOfYearPatternOnFormatted | app/src/main/java/com/example/expenseflow/core/utils/DateHelper.kt:9 | "MMM D ,yyyy" reads a formatted January date back as itself and refuses every formatted date of any other month |
| DateHelper.SafeDateFormatterSpec | app/src/main/java/com/example/expenseflow/core/utils/DateHelper.kt:11-15 | the first pattern wins; otherwise the second pattern is used; otherwise the result is today; the result is always a valid date |
| DateHelper.LocalDateReadsOnlyDate | app/src/main/java/com/example/expenseflow/core/utils/DateHelper.kt:17-19 | `localDate()` depends on the date text alone |
| DateHelper.AppDatesAsWritten | app/src/main/java/com/example/expenseflow/core/utils/DateHelper.kt:8-15 | on a date the app writes, the reader returns the date itself in January and today in any other month |
| DateHelper.CorrectedReadsAppDates | app/src/main/java/com/example/expenseflow/core/utils/DateHelper.kt:8-15 | the reader with `d` in place of `D` returns every date the app writes as itself |
| DateHelper.FebruaryExample | app/src/main/java/com/example/expenseflow/core/utils/DateHelper.kt:8-15 | "Feb 3 ,2024" is read as today by the reader as written and as 3 February 2024 by the corrected one |
| DateHelper.NoSpaceExample | app/src/main/java/com/example/expenseflow/core/utils/DateHelper.kt:11-15 | "Jan 05,2024" matches neither pattern and is read as today |
| AddExpenseUtils.FormattedDescription | app/src/main/java/com/example/expenseflow/core/utils/AddExpenseUtils.kt:8-12 | texts of length 0 or 1 are returned as they are; a longer text gets its first character upper-cased and keeps the rest |
| AddExpenseUtils.FormattedDescriptionIdempotent | app/src/main/java/com/example/expenseflow/core/utils/AddExpenseUtils.kt:8-12 | formatting an already formatted description changes nothing |
| AddExpenseUtils.DateFormatter | app/src/main/java/com/example/expenseflow/core/utils/AddExpenseUtils.kt:14-19 | the written date starts with the month's abbreviation |
| AddExpenseUtils.DateFormatterLayout | app/src/main/java/com/example/expenseflow/core/utils/AddExpenseUtils.kt:17-18 | for years 1..9999, the text is the abbreviation, a space, the unpadded day, " ," and four year digits |
| Subsequences.FilterSpec | app/src/main/java/com/example/expenseflow/presentation/history/HistoryScreen.kt:258-266 | `filter` keeps list order and keeps exactly the elements that pass the test, each as many times as it occurs in the list |
| Subsequences.FilterNarrower | app/src/main/java/com/example/expenseflow/viewmodel/AnalyticsViewModel.kt:118-126 | a stricter test keeps a subsequence of what a looser test keeps |
| Grouping.GroupKeysSpec | app/src/main/java/com/example/expenseflow/viewmodel/AnalyticsViewModel.kt:231 | the `groupBy` keys are distinct and are exactly the keys that occur |
| Grouping.GroupKeysPrefix | app/src/main/java/com/example/expenseflow/viewmodel/AnalyticsViewModel.kt:231 | the keys of a prefix of the list are a prefix of the keys of the whole list, i.e. keys are in order of first appearance |
| Grouping.KeySums | app/src/main/java/com/example/expenseflow/viewmodel/AnalyticsViewModel.kt:161-166 | one sum per month, in month order |
| Grouping.SumOfKeySums | app/src/main/java/com/example/expenseflow/viewmodel/AnalyticsViewModel.kt:161-166 | the per-key sums of distinct keys add up to the sum of the expenses carrying one of those keys |
| Grouping.WithKeySpec | app/src/main/java/com/example/expenseflow/viewmodel/AnalyticsViewModel.kt:162-164 | a group keeps list order and holds exactly the expenses with its key, each as many times as it occurs |
| Grouping.SubsequenceSumBound | app/src/main/java/com/example/expenseflow/viewmodel/AnalyticsViewModel.kt:130-132 | when amounts are non-negative, a filtered list sums to between 0 and the sum of the whole list |
| Analytics.ParseDate | app/src/main/java/com/example/expenseflow/viewmodel/AnalyticsViewModel.kt:106-112 | `parseDate` returns a valid date or nothing |
| Analytics.ParseDateReadsFormDate | app/src/main/java/com/example/expenseflow/viewmodel/AnalyticsViewModel.kt:106-112 | every date the add-expense form writes is parsed back as that date |
| Analytics.FilterByRangeSpec | app/src/main/java/com/example/expenseflow/viewmodel/AnalyticsViewModel.kt:114-128 | `filterByRange` keeps list order and keeps exactly the expenses whose date parses and lies in the range, each as many times as it occurs |
| Analytics.UnknownRangeIsEmpty | app/src/main/java/com/example/expenseflow/viewmodel/AnalyticsViewModel.kt:125 | a range index other than 0, 1 and 2 keeps nothing |
| Analytics.FilterByRangeNarrower | app/src/main/java/com/example/expenseflow/viewmodel/AnalyticsViewModel.kt:114-128 | a range whose dates all lie in a wider range keeps a subsequence of the wider range's list |
| Analytics.CurrentMonthWithinThreeMonths | app/src/main/java/com/example/expenseflow/viewmodel/AnalyticsViewModel.kt:115-124 | a date in the current month is no earlier than the same day three months ago, and is in the current year |
| Analytics.MonthSelectionNested | app/src/main/java/com/example/expenseflow/viewmodel/AnalyticsViewModel.kt:114-128 | the month's expenses are a subsequence of the three months' and of the year's |
| Analytics.CalculateTotalsAppend | app/src/main/java/com/example/expenseflow/viewmodel/AnalyticsViewModel.kt:130-132 | the totals and counts of two concatenated lists are the sums of their totals and counts |
| Analytics.RangeTotalsOrdered | app/src/main/java/com/example/expenseflow/viewmodel/AnalyticsViewModel.kt:134-152 | with non-negative amounts: month total ≤ three-month total ≤ overall sum; month total ≤ year total ≤ overall sum; the counts are ordered the same way |
| Analytics.ChartMonths | app/src/main/java/com/example/expenseflow/viewmodel/AnalyticsViewModel.kt:157-159 | six months, each one month after the previous, the last being five months after the first |
| Analytics.ChartMonthsSpec | app/src/main/java/com/example/expenseflow/viewmodel/AnalyticsViewModel.kt:157-159 | the six months are distinct and the last one is the current month |
| Analytics.ChartTotals | app/src/main/java/com/example/expenseflow/viewmodel/AnalyticsViewModel.kt:161-168 | one bar per chart month |
| Analytics.ChartTotalsSpec | app/src/main/java/com/example/expenseflow/viewmodel/AnalyticsViewModel.kt:161-168 | each bar sums exactly the expenses whose date parses and falls in its month; the bars add up to the total of the expenses dated within the window |
| Analytics.ChartIgnoresUnreadableDates | app/src/main/java/com/example/expenseflow/viewmodel/AnalyticsViewModel.kt:163 | an expense whose date does not parse changes no bar |
| Analytics.ChartLabels | app/src/main/java/com/example/expenseflow/viewmodel/AnalyticsViewModel.kt:170-171 | one label per chart month |
| Analytics.ChartLabelsSpec | app/src/main/java/com/example/expenseflow/viewmodel/AnalyticsViewModel.kt:170-171 | each label reads back as its month's number, and the last label is the current month's |
| Analytics.PickColorSpec | app/src/main/java/com/example/expenseflow/viewmodel/AnalyticsViewModel.kt:270-282 | no two categories share a colour, and every colour is opaque |
| Analytics.SlicesShape | app/src/main/java/com/example/expenseflow/viewmodel/AnalyticsViewModel.kt:230-238 | slice i carries the i-th group key, its group's sum and its category's colour |
| Analytics.SlicesCategories | app/src/main/java/com/example/expenseflow/viewmodel/AnalyticsViewModel.kt:230-238 | the slices name each category that occurs, each exactly once |
| Analytics.SlicesTotal | app/src/main/java/com/example/expenseflow/viewmodel/AnalyticsViewModel.kt:230-238 | the slices add up to the sum of the list |
| Analytics.SlicesSpec | app/src/main/java/com/example/expenseflow/viewmodel/AnalyticsViewModel.kt:227-268 | combines the three: shape, categories and total |
| Analytics.GetSlices | app/src/main/java/com/example/expenseflow/viewmodel/AnalyticsViewModel.kt:227-268 | the donut of a range adds up to that range's total, and each slice's category occurs among the range's expenses |
| Analytics.AnalyticsViewModel.constructor | app/src/main/java/com/example/expenseflow/viewmodel/AnalyticsViewModel.kt:38-80 | the initial state is Idle, with no chart, zero totals and counts, and range 0 |
| Analytics.AnalyticsViewModel.ActiveFigures | app/src/main/java/com/example/expenseflow/viewmodel/AnalyticsViewModel.kt:180-205 | when the fields summarise a list, the active figures are those of the selected range, and are 0 for an unknown index |
| Analytics.AnalyticsViewModel.StateSlices | app/src/main/java/com/example/expenseflow/viewmodel/AnalyticsViewModel.kt:207-223 | no slices unless a list is loaded; otherwise they add up to the range's total |
| Analytics.AnalyticsViewModel.BeginLoad | app/src/main/java/com/example/expenseflow/viewmodel/AnalyticsViewModel.kt:92 | the state becomes Loading and nothing else changes |
| Analytics.AnalyticsViewModel.ComputeAnalysis | app/src/main/java/com/example/expenseflow/viewmodel/AnalyticsViewModel.kt:134-152 | each range's total, count and average (total over 30, 92 or 365) are set from its filtered list; the chart, the state and the selection are unchanged |
| Analytics.AnalyticsViewModel.ComputeChart | app/src/main/java/com/example/expenseflow/viewmodel/AnalyticsViewModel.kt:154-172 | an empty list changes nothing; otherwise the bars and labels are those of the six months ending with the current month |
| Analytics.AnalyticsViewModel.OnExpensesLoaded | app/src/main/java/com/example/expenseflow/viewmodel/AnalyticsViewModel.kt:95-97 | the list is published, then charted and summarised; the model's `ActiveTotal()`, computed from the fields, is then the selected range's total, which the app's `activeTotal` flow does not show until the range changes (see Left out) |
| Analytics.AnalyticsViewModel.OnLoadFailed | app/src/main/java/com/example/expenseflow/viewmodel/AnalyticsViewModel.kt:98-101 | the state becomes Error with the failure's message, or "Something went wrong" when there is none; nothing else changes |
| Analytics.AnalyticsViewModel.SelectRange | app/src/main/java/com/example/expenseflow/viewmodel/AnalyticsViewModel.kt:174-178 | the index is recorded; if a list is loaded, the summaries are recomputed and the active figures become the index's range, else the summaries are kept |
| HistoryFilter.FilterExpensesSpec | app/src/main/java/com/example/expenseflow/presentation/history/HistoryScreen.kt:255-267 | the filter keeps list order and keeps exactly the expenses that match the query and the category, each as many times as it occurs in the list |
| HistoryFilter.BlankQueryAllCategoriesKeepsAll | app/src/main/java/com/example/expenseflow/presentation/history/HistoryScreen.kt:256-265 | a blank query with "All Categories", in any letter case, keeps the whole list |
| HistoryFilter.CategorySelectsExactly | app/src/main/java/com/example/expenseflow/presentation/history/HistoryScreen.kt:260-263 | with a blank query, naming a category's constant in any letter case keeps exactly that category's expenses, each as many times as it occurs |
| HistoryFilter.FoodSelectsFood | app/src/main/java/com/example/expenseflow/presentation/history/HistoryScreen.kt:260-263 | the drop-down entry "Food" selects exactly the food expenses, each as many times as it occurs |
| HistoryFilter.UppercaseQueryMatchesNothing | app/src/main/java/com/example/expenseflow/presentation/history/HistoryScreen.kt:256-262 | the query itself is not lower-cased, so a trimmed query holding an upper-case letter keeps nothing |
| HistoryFilter.SelectionWithinAll | app/src/main/java/com/example/expenseflow/presentation/history/HistoryScreen.kt:257-263 | for a fixed query, any category selection keeps a subsequence of what "All Categories" keeps |
| HistoryFilter.CapitalizeLabel | app/src/main/java/com/example/expenseflow/presentation/history/HistoryScreen.kt:343-346 | the result is the label with its first character upper-cased; an empty label is not allowed, because `substring` throws on it |
| HistoryFilter.CapitalizedCategoryLabels | app/src/main/java/com/example/expenseflow/presentation/history/HistoryScreen.kt:343-344 | every category label can be capitalised; the result starts with the first letter of the constant's name |
| HistoryFilter.CapitalizedPaymentLabels | app/src/main/java/com/example/expenseflow/presentation/history/HistoryScreen.kt:345-346 | the same for payment method labels |
| HistoryFilter.FoodIsCapitalized | app/src/main/java/com/example/expenseflow/presentation/history/HistoryScreen.kt:343-344 | "food" is shown as "Food" |
| History.CurrentMonthExpensesSpec | app/src/main/java/com/example/expenseflow/viewmodel/HistoryViewModel.kt:86-87 | with the corrected reader (`d` patterns), the month's expenses keep list order and are exactly those whose local date falls in the current year-month, each as many times as it occurs |
| History.CurrentMonthExpensesAsWrittenSpec | app/src/main/java/com/example/expenseflow/viewmodel/HistoryViewModel.kt:86-87 | the same with `localDate()` as written (`D` patterns) |
| History.MonthSumAtMostOverall | app/src/main/java/com/example/expenseflow/viewmodel/HistoryViewModel.kt:83-87 | with non-negative amounts, the month sum lies between 0 and the overall sum, with either reader |
| History.AppDatedExpenseInMonthIff | app/src/main/java/com/example/expenseflow/viewmodel/HistoryViewModel.kt:86-87 | an expense dated by the form counts in the month sum if and only if the form's date lies in the current year and month |
| History.UnreadableDateCountsAsCurrentMonth | app/src/main/java/com/example/expenseflow/viewmodel/HistoryViewModel.kt:87 | with the corrected reader (`d` patterns), an expense whose date neither pattern reads counts in the current month |
| History.UnreadableDateCountsAsCurrentMonthAsWritten | app/src/main/java/com/example/expenseflow/viewmodel/HistoryViewModel.kt:87 | with `localDate()` as written (`D` patterns), an expense whose date neither pattern reads counts in the current month |
| History.AppDatedExpenseCountsAsCurrentMonth | app/src/main/java/com/example/expenseflow/viewmodel/HistoryViewModel.kt:87 | with `localDate()` as written, an expense dated by the form in any month other than January counts in the current month |
| History.AppDatedOutsideJanuaryMonthSumIsOverall | app/src/main/java/com/example/expenseflow/viewmodel/HistoryViewModel.kt:83-87 | with `localDate()` as written, when every expense was dated by the form outside January, the month's list is the whole list and the month sum equals the overall sum |
| History.HistoryViewModel.constructor | app/src/main/java/com/example/expenseflow/viewmodel/HistoryViewModel.kt:22-48 | the initial state is Loading, query "", "All Categories", sort "None", count "0" and empty sums |
| History.HistoryViewModel.OnQueryChange | app/src/main/java/com/example/expenseflow/viewmodel/HistoryViewModel.kt:68-70 | the query is stored as typed and nothing else changes |
| History.HistoryViewModel.OnExpandedChange | app/src/main/java/com/example/expenseflow/viewmodel/HistoryViewModel.kt:72-74 | the category is stored without being checked and nothing else changes |
| History.HistoryViewModel.OnSortChange | app/src/main/java/com/example/expenseflow/viewmodel/HistoryViewModel.kt:76-78 | the sort option is stored without being checked and nothing else changes |
| History.HistoryViewModel.ExpenseOverview | app/src/main/java/com/example/expenseflow/viewmodel/HistoryViewModel.kt:80-91 | an empty list leaves the three texts alone; otherwise they become the list's size, its sum and its current-month sum with the corrected reader (`d` patterns) |
| History.HistoryViewModel.BeginLoad | app/src/main/java/com/example/expenseflow/viewmodel/HistoryViewModel.kt:57 | the state becomes Loading and nothing else changes |
| History.HistoryViewModel.OnExpensesLoaded | app/src/main/java/com/example/expenseflow/viewmodel/HistoryViewModel.kt:59-61 | the list is published and then summarised, the month sum with the corrected reader (`d` patterns) |
| History.HistoryViewModel.OnLoadFailed | app/src/main/java/com/example/expenseflow/viewmodel/HistoryViewModel.kt:62-64 | the state becomes Error with the failure's message, or "Something Went Wrong" when there is none |
| History.HistoryViewModel.OverviewBounded | app/src/main/java/com/example/expenseflow/viewmodel/HistoryViewModel.kt:80-91 | after an overview of non-negative amounts, the month sum shown is at most the overall sum shown |
| AddScreen.PickedDateIsNotBlank | app/src/main/java/com/example/expenseflow/viewmodel/AddScreenViewmodel.kt:62-65 | a picked date's text is never blank |
| AddScreen.AddScreenViewModel.constructor | app/src/main/java/com/example/expenseflow/viewmodel/AddScreenViewmodel.kt:29-46 | an empty form: blank texts, nothing chosen, not valid |
| AddScreen.AddScreenViewModel.Validate | app/src/main/java/com/example/expenseflow/viewmodel/AddScreenViewmodel.kt:48-51 | the flag becomes: amount and date not blank, and a category and a payment method chosen; nothing else changes |
| AddScreen.AddScreenViewModel.OnAmountChange | app/src/main/java/com/example/expenseflow/viewmodel/AddScreenViewmodel.kt:53-56 | the amount is stored as typed and the flag is recomputed; a blank amount never validates |
| AddScreen.AddScreenViewModel.OnDescriptionChange | app/src/main/java/com/example/expenseflow/viewmodel/AddScreenViewmodel.kt:58-60 | the formatted description is stored and the flag is left as it was |
| AddScreen.AddScreenViewModel.OnDatePicking | app/src/main/java/com/example/expenseflow/viewmodel/AddScreenViewmodel.kt:62-65 | the date is stored as "MMM d ,yyyy", is not blank, and the flag is recomputed |
| AddScreen.AddScreenViewModel.OnCategorySelection | app/src/main/java/com/example/expenseflow/viewmodel/AddScreenViewmodel.kt:67-72 | the category is recorded and the flag is recomputed |
| AddScreen.AddScreenViewModel.OnPaymentSelection | app/src/main/java/com/example/expenseflow/viewmodel/AddScreenViewmodel.kt:74-78 | the payment method is recorded and the flag is recomputed |
| AddScreen.LastGivenSpec | app/src/main/java/com/example/expenseflow/viewmodel/AddScreenViewmodel.kt:53-78 | a field holds nothing exactly when no step of its kind was taken, and otherwise what the last such step gave it |
| AddScreen.FillForm | app/src/main/java/com/example/expenseflow/viewmodel/AddScreenViewmodel.kt:48-78 | after any sequence of setter calls on an empty form, the form is valid if and only if the last amount typed is not blank and a date, a category and a payment method were each given at some step, in whatever order |
| AddScreen.BlankAmountNeverValid | app/src/main/java/com/example/expenseflow/viewmodel/AddScreenViewmodel.kt:48-56 | a whitespace-only amount typed last leaves the form invalid, whatever steps came before (the single-call fact is `OnAmountChange`'s) |

## Left out

- Network and coroutines: `TransactionsRepository`, `viewModelScope.launch` and the `init` blocks that start a load are left out. In both view models a load is modelled as `BeginLoad`, then `OnExpensesLoaded` or `OnLoadFailed`.
- `AddScreenViewmodel.onAddExpense`, the `AddScreenUiState` field and `Category.fromLabel`/`PaymentMethod.fromLabel` are left out. They only build a record and send it to the repository.
- `println` calls are left out.
- Floating point is not modelled: amounts are reals, not `Double`. The `toFloat()` of the chart points and slice amounts is not modelled. The `Float.toString()` text of the history sums is not modelled either: the model keeps the sum itself as `Some(sum)`, and `None` stands for the initial empty text.
- History.HistoryViewModel.ExpenseOverview: `expenses.size.toString()` is modelled as the decimal numeral of the size. The float formatting of the two sums is not modelled.
- History.HistoryViewModel.ExpenseOverview: the overview stores the month sum with the corrected reader (`d` patterns). The month sum as written is modelled beside it, by `History.MonthSumAsWritten`, `History.InCurrentMonthAsWritten`, `History.AppDatedExpenseCountsAsCurrentMonth` and `History.AppDatedOutsideJanuaryMonthSumIsOverall`; the class itself does not store it.
- DatePatterns: a single `D` or `d` is scanned as 1 to 19 digits, the width in the JDK 8 `DateTimeFormatter`. Newer JDKs accept at most 3 digits for a single `D`. No date the app writes has more than 2 digits there, so every app-written date reads the same under both.
- Case mapping is modelled only for ASCII letters. Kotlin's `lowercase()`, `uppercase()`, `toUpperCase()` and `equals(ignoreCase = true)` are full Unicode operations. `toUpperCase()` (AddExpenseUtils.kt:10) also uses the default locale; English is assumed, so a Turkish locale's dotted capital I is not modelled.
- AddExpenseUtils.DateFormatter: the conversion from epoch milliseconds in the system time zone to a calendar date is not modelled; the method takes the calendar date. The locale is taken as English (`Locale.getDefault()` in the source).
- Analytics.ChartLabels: the labels are formatted with the default locale in the source; the model uses the English abbreviations.
- Each range filter, the chart and the history overview read "now" at slightly different instants. The model passes one `today` to all of them. Calls to LocalDate.now() and YearMonth.now() that fall either side of midnight are not modelled.
- Analytics.AnalyticsViewModel.ActiveFigures: the model computes the active total, average and count from the current fields. In the source they are `selectedRange.map { … }` flows. They are recomputed only when `selectedRange` emits a different value, never when the totals change. So after a load they keep 0.0 and 0 until a different range index is chosen. Choosing the index already selected does not refresh them either. The donut slices are `uiState.map { … }` flows; the model computes them from the current state too.
- Calendar.MinusMonths and Calendar.PlusMonths: the `DateTimeException` at the limits of the year range (±999,999,999) is not modelled; `today` is required to be a valid date.
- Analytics.PickColorSpec: colours are kept as their ARGB integers; Compose's `Color` conversion is not modelled.

## Findings

| source | as written | input that shows it | evidently intended | confidence | as-written member | corrected member |
|---|---|---|---|---|---|---|
| app/src/main/java/com/example/expenseflow/core/utils/DateHelper.kt:8-9 | the lenient reader's patterns use `D` (day of year) where the app writes the day of the month with `d` ("MMM d ,yyyy", AddExpenseUtils.kt:17) | "Feb 3 ,2024": day-of-year 3 falls in January, which conflicts with "Feb", so both patterns fail and the date is read as today | read the day of the month, so every date the app writes is read back as itself | high, by proof; not executed | DateHelper.AppDatesAsWritten | DateHelper.CorrectedReadsAppDates |

Effect on the history overview. `History.AppDatedExpenseCountsAsCurrentMonth` proves what happens as written: every expense the app dated outside January is counted in the current month's sum. The history overview (`History.InCurrentMonth`, `History.MonthSum`) uses `DateHelper.SafeDateFormatterCorrected`, the reader with `d` in place of `D`. With it, `History.AppDatedExpenseInMonthIff` shows that an app-dated expense counts exactly when its own month is the current one. `History.InCurrentMonthAsWritten` and `History.MonthSumAsWritten` keep the month test and the month sum as written, and `History.AppDatedOutsideJanuaryMonthSumIsOverall` shows that, as written, a list dated by the app outside January has a month sum equal to its overall sum.
