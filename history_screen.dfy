/**
 * The history screen's search box and category drop-down, and the way it
 * shows a category or payment label with a capital first letter.
 */
module HistoryFilter {
  import opened Text
  import opened ExpenseModel
  import opened Subsequences

  /** The drop-down entry that selects every category. */
  const AllCategories: string := "All Categories"

  /**
   * The filter lambda: the query is trimmed but keeps its case, while the
   * description and the category name are lower-cased; the category test
   * compares lower-cased names, unless "All Categories" is selected in any
   * case.
   */
  predicate Matches(e: Expense, query: string, selected: string) {
    var q := Trim(query);
    var isAll := EqualsIgnoreCase(selected, AllCategories);
    var desc := Lowercase(e.description);
    var categoryName := Lowercase(e.category.Name());
    var qOk := IsBlank(q) || Contains(desc, q) || Contains(categoryName, q);
    var cOk := isAll || categoryName == Lowercase(selected);
    qOk && cOk
  }

  /** The filter lambda as a value. */
  function MatchesQuery(query: string, selected: string): Expense -> bool {
    e => Matches(e, query, selected)
  }

  /** `expenses.filter { … }`. */
  function FilterExpenses(xs: seq<Expense>, query: string, selected: string): seq<Expense> {
    Filter(xs, MatchesQuery(query, selected))
  }

  /**
   * The filter keeps the list order and keeps exactly the matching
   * expenses, each as many times as it occurs in the list.
   */
  lemma FilterExpensesSpec(xs: seq<Expense>, query: string, selected: string)
    ensures IsSubsequence(FilterExpenses(xs, query, selected), xs)
    ensures forall e :: e in FilterExpenses(xs, query, selected) <==> e in xs && Matches(e, query, selected)
    ensures forall e :: multiset(FilterExpenses(xs, query, selected))[e] == if Matches(e, query, selected) then multiset(xs)[e] else 0
  {
    FilterSpec(xs, MatchesQuery(query, selected));
  }

  /** A blank query with "All Categories", in any letter case, keeps every expense. */
  lemma BlankQueryAllCategoriesKeepsAll(xs: seq<Expense>, query: string, selected: string)
    requires IsBlank(query) && EqualsIgnoreCase(selected, AllCategories)
    ensures FilterExpenses(xs, query, selected) == xs
  {
    TrimSpec(query);
    FilterKeepsAll(xs, MatchesQuery(query, selected));
  }

  /**
   * With a blank query, naming a category in any letter case ("Food",
   * "food", "FOOD") keeps exactly the expenses of that category, each as
   * many times as it occurs.
   */
  lemma CategorySelectsExactly(xs: seq<Expense>, query: string, selected: string, c: Category)
    requires IsBlank(query) && EqualsIgnoreCase(selected, c.Name())
    ensures forall e :: e in FilterExpenses(xs, query, selected) <==> e in xs && e.category == c
    ensures forall e :: multiset(FilterExpenses(xs, query, selected))[e] == if e.category == c then multiset(xs)[e] else 0
  {
    FilterExpensesSpec(xs, query, selected);
    forall e: Expense ensures Matches(e, query, selected) <==> e.category == c {
      CategoryMatches(e, query, selected, c);
    }
  }

  /** Under the same conditions, one expense matches exactly when it has category `c`. */
  lemma CategoryMatches(e: Expense, query: string, selected: string, c: Category)
    requires IsBlank(query) && EqualsIgnoreCase(selected, c.Name())
    ensures Matches(e, query, selected) <==> e.category == c
  {
    TrimSpec(query);
    LabelsAreLowercaseNames();
    LabelsAreDistinct();
    assert Lowercase(selected) == Lowercase(c.Name());
    assert !EqualsIgnoreCase(selected, AllCategories);
  }

  /** `"Food"` selects the `Food` expenses and nothing else, each as often as it occurs. */
  lemma FoodSelectsFood(xs: seq<Expense>)
    ensures forall e :: e in FilterExpenses(xs, "", "Food") <==> e in xs && e.category == Food
    ensures forall e :: multiset(FilterExpenses(xs, "", "Food"))[e] == if e.category == Food then multiset(xs)[e] else 0
  {
    CategorySelectsExactly(xs, "", "Food", Food);
  }

  /**
   * The query is not lower-cased: once trimmed, a query holding an
   * upper-case letter matches neither a lower-cased description nor a
   * lower-cased category name, so nothing is kept.
   */
  lemma UppercaseQueryMatchesNothing(xs: seq<Expense>, query: string, selected: string)
    requires exists i :: 0 <= i < |Trim(query)| && IsUpper(Trim(query)[i])
    ensures FilterExpenses(xs, query, selected) == []
  {
    var q := Trim(query);
    assert !IsBlank(q);
    forall i | 0 <= i < |xs| ensures !MatchesQuery(query, selected)(xs[i]) {
      var e := xs[i];
      LowercaseHasNoUpper(e.description);
      LowercaseHasNoUpper(e.category.Name());
      if Contains(Lowercase(e.description), q) {
        ContainedHasNoUpper(Lowercase(e.description), q);
      }
      if Contains(Lowercase(e.category.Name()), q) {
        ContainedHasNoUpper(Lowercase(e.category.Name()), q);
      }
    }
    FilterKeepsNone(xs, MatchesQuery(query, selected));
  }

  /** For a fixed query, any selection keeps a subsequence of what "All Categories" keeps. */
  lemma SelectionWithinAll(xs: seq<Expense>, query: string, selected: string)
    ensures IsSubsequence(FilterExpenses(xs, query, selected), FilterExpenses(xs, query, AllCategories))
  {
    assert EqualsIgnoreCase(AllCategories, AllCategories);
    FilterNarrower(xs, MatchesQuery(query, selected), MatchesQuery(query, AllCategories));
  }

  /**
   * `label.take(1).uppercase() + label.substring(1..label.length - 1)`; the
   * substring throws on an empty label.
   */
  function CapitalizeLabel(text: string): (r: string)
    requires |text| > 0
    ensures |r| == |text| && r[0] == ToUpperChar(text[0]) && r[1..] == text[1..]
  {
    Uppercase(text[..1]) + text[1..|text|]
  }

  /** Capitalising a label whose first letter upper-cases to `first`. */
  lemma CapitalizeShape(text: string, first: char)
    requires |text| > 0 && ToUpperChar(text[0]) == first
    ensures CapitalizeLabel(text) == [first] + text[1..]
  {
    var r := CapitalizeLabel(text);
    assert r == [r[0]] + r[1..];
  }

  /**
   * Every category label can be capitalised, and the result is the first
   * letter of the constant's name followed by the rest of the label.
   */
  lemma CapitalizedCategoryLabels(c: Category)
    ensures |c.Label()| > 0 && CapitalizeLabel(c.Label()) == [c.Name()[0]] + c.Label()[1..]
  {
    CapitalizeShape(c.Label(), c.Name()[0]);
  }

  /** The same for the payment method labels. */
  lemma CapitalizedPaymentLabels(p: PaymentMethod)
    ensures |p.Label()| > 0 && CapitalizeLabel(p.Label()) == [p.Name()[0]] + p.Label()[1..]
  {
    CapitalizeShape(p.Label(), p.Name()[0]);
  }

  lemma FoodIsCapitalized()
    ensures CapitalizeLabel("food") == "Food"
  {
    CapitalizedCategoryLabels(Food);
    assert Food.Label() == "food";
  }
}
