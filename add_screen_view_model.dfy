/**
 * The add-expense form's state holder: five input fields and a
 * `validation` flag that every setter except the description's recomputes.
 */
module AddScreen {
  import opened Wrappers
  import opened Text
  import opened Calendar
  import opened DatePatterns
  import opened AddExpenseUtils

  /** A picked date is never blank: it starts with a month abbreviation. */
  lemma PickedDateIsNotBlank(d: Date)
    requires ValidDate(d)
    ensures !IsBlank(DateFormatter(d))
  {
    var r := DateFormatter(d);
    assert r[0] == MonthAbbrev(d.month)[0];
    assert !IsWhitespace(MonthAbbrev(d.month)[0]);
  }

  class AddScreenViewModel {
    var amount: string
    var description: string
    var date: string
    var selectedCategory: Option<string>
    var selectedPaymentMethod: Option<string>
    var validation: bool

    /** `validate()`'s condition: amount and date not blank, category and payment chosen. */
    predicate Validated()
      reads this
    {
      !IsBlank(amount) && selectedCategory.Some? && !IsBlank(date) && selectedPaymentMethod.Some?
    }

    /** The flag always agrees with the condition. */
    predicate Valid()
      reads this
    {
      validation == Validated()
    }

    /** An empty form: blank texts, nothing chosen, not valid. */
    constructor ()
      ensures Valid() && !validation
      ensures amount == "" && description == "" && date == ""
      ensures selectedCategory == None && selectedPaymentMethod == None
    {
      amount := "";
      description := "";
      date := "";
      selectedCategory := None;
      selectedPaymentMethod := None;
      validation := false;
    }

    /** `validate()`. */
    method Validate()
      modifies this
      ensures Valid()
      ensures amount == old(amount) && description == old(description) && date == old(date)
      ensures selectedCategory == old(selectedCategory) && selectedPaymentMethod == old(selectedPaymentMethod)
    {
      validation := !IsBlank(amount) && selectedCategory.Some? && !IsBlank(date) && selectedPaymentMethod.Some?;
    }

    /** `onAmountChange`: the text is stored as typed; a blank amount never validates. */
    method OnAmountChange(input: string)
      modifies this
      ensures Valid() && amount == input
      ensures IsBlank(input) ==> !validation
      ensures description == old(description) && date == old(date)
      ensures selectedCategory == old(selectedCategory) && selectedPaymentMethod == old(selectedPaymentMethod)
    {
      amount := input;
      Validate();
    }

    /** `onDescriptionChange`: stores the capitalised text and leaves the flag alone. */
    method OnDescriptionChange(input: string)
      requires Valid()
      modifies this
      ensures Valid() && description == FormattedDescription(input)
      ensures validation == old(validation)
      ensures amount == old(amount) && date == old(date)
      ensures selectedCategory == old(selectedCategory) && selectedPaymentMethod == old(selectedPaymentMethod)
    {
      description := FormattedDescription(input);
    }

    /** `onDatePicking`, from the picked calendar date on: stores it as "MMM d ,yyyy". */
    method OnDatePicking(d: Date)
      requires ValidDate(d)
      modifies this
      ensures Valid() && date == DateFormatter(d) && !IsBlank(date)
      ensures amount == old(amount) && description == old(description)
      ensures selectedCategory == old(selectedCategory) && selectedPaymentMethod == old(selectedPaymentMethod)
    {
      date := DateFormatter(d);
      Validate();
      PickedDateIsNotBlank(d);
    }

    /** `onCategorySelection`: once chosen, a category stays chosen. */
    method OnCategorySelection(input: string)
      modifies this
      ensures Valid() && selectedCategory == Some(input)
      ensures amount == old(amount) && description == old(description) && date == old(date)
      ensures selectedPaymentMethod == old(selectedPaymentMethod)
    {
      selectedCategory := Some(input);
      Validate();
    }

    /** `onPaymentSelection`: once chosen, a payment method stays chosen. */
    method OnPaymentSelection(input: string)
      modifies this
      ensures Valid() && selectedPaymentMethod == Some(input)
      ensures amount == old(amount) && description == old(description) && date == old(date)
      ensures selectedCategory == old(selectedCategory)
    {
      selectedPaymentMethod := Some(input);
      Validate();
    }
  }

  /** One user action on the form: a setter and what it was given. */
  datatype FormStep =
    | AmountStep(text: string)
    | DescriptionStep(text: string)
    | DateStep(picked: Date)
    | CategoryStep(name: string)
    | PaymentStep(name: string)

  function AmountOf(s: FormStep): Option<string> {
    if s.AmountStep? then Some(s.text) else None
  }

  function DescriptionOf(s: FormStep): Option<string> {
    if s.DescriptionStep? then Some(s.text) else None
  }

  function DateOf(s: FormStep): Option<Date> {
    if s.DateStep? then Some(s.picked) else None
  }

  function CategoryOf(s: FormStep): Option<string> {
    if s.CategoryStep? then Some(s.name) else None
  }

  function PaymentOf(s: FormStep): Option<string> {
    if s.PaymentStep? then Some(s.name) else None
  }

  /** What the last step of a given kind was given, if any step of that kind was taken. */
  function LastGiven<T>(steps: seq<FormStep>, given: FormStep -> Option<T>): Option<T>
    decreases |steps|
  {
    if steps == [] then None
    else if given(steps[|steps| - 1]).Some? then given(steps[|steps| - 1])
    else LastGiven(steps[..|steps| - 1], given)
  }

  /**
   * `LastGiven` is empty exactly when no step of the kind was taken, and
   * otherwise it is what the last such step was given.
   */
  lemma {:induction false} LastGivenSpec<T>(steps: seq<FormStep>, given: FormStep -> Option<T>)
    ensures LastGiven(steps, given).None? <==> forall i :: 0 <= i < |steps| ==> given(steps[i]).None?
    ensures LastGiven(steps, given).Some? ==>
      exists i :: 0 <= i < |steps| && given(steps[i]) == LastGiven(steps, given) &&
        forall j :: i < j < |steps| ==> given(steps[j]).None?
    decreases |steps|
  {
    if steps != [] {
      var init := steps[..|steps| - 1];
      var n := |steps| - 1;
      LastGivenSpec(init, given);
      assert forall i :: 0 <= i < n ==> init[i] == steps[i];
      if given(steps[n]).Some? {
        assert given(steps[n]) == LastGiven(steps, given);
      } else if LastGiven(init, given).Some? {
        var i :| 0 <= i < n && given(init[i]) == LastGiven(init, given) &&
          forall j :: i < j < n ==> given(init[j]).None?;
        assert given(steps[i]) == LastGiven(steps, given);
      }
    }
  }

  /** The description field's text for the last description typed, or blank when none was. */
  function DescriptionText(typed: Option<string>): string {
    if typed.Some? then FormattedDescription(typed.value) else ""
  }

  /** The date field's text for the last picked date, or blank when none was picked. */
  function PickedDateText(picked: Option<Date>): string
    requires picked.Some? ==> ValidDate(picked.value)
  {
    if picked.Some? then DateFormatter(picked.value) else ""
  }

  /** Every date the steps pick is a calendar date, as the date picker guarantees. */
  predicate PicksValidDates(steps: seq<FormStep>) {
    forall i :: 0 <= i < |steps| && steps[i].DateStep? ==> ValidDate(steps[i].picked)
  }

  /**
   * Runs any sequence of setter calls on a fresh form. The form ends valid
   * exactly when the last amount typed is not blank and a date, a category
   * and a payment method have each been given at some step, whatever the
   * order of the steps.
   */
  method FillForm(steps: seq<FormStep>) returns (valid: bool)
    requires PicksValidDates(steps)
    ensures valid <==>
      !IsBlank(LastGiven(steps, AmountOf).GetOr("")) &&
      (exists i :: 0 <= i < |steps| && steps[i].DateStep?) &&
      (exists i :: 0 <= i < |steps| && steps[i].CategoryStep?) &&
      (exists i :: 0 <= i < |steps| && steps[i].PaymentStep?)
  {
    var vm := new AddScreenViewModel();
    var k := 0;
    while k < |steps|
      invariant 0 <= k <= |steps|
      invariant vm.Valid()
      invariant vm.amount == LastGiven(steps[..k], AmountOf).GetOr("")
      invariant vm.description == DescriptionText(LastGiven(steps[..k], DescriptionOf))
      invariant LastGiven(steps[..k], DateOf).Some? ==> ValidDate(LastGiven(steps[..k], DateOf).value)
      invariant vm.date == PickedDateText(LastGiven(steps[..k], DateOf))
      invariant vm.selectedCategory == LastGiven(steps[..k], CategoryOf)
      invariant vm.selectedPaymentMethod == LastGiven(steps[..k], PaymentOf)
    {
      var step := steps[k];
      assert steps[..k + 1][..k] == steps[..k];
      match step {
        case AmountStep(text) => vm.OnAmountChange(text);
        case DescriptionStep(text) => vm.OnDescriptionChange(text);
        case DateStep(picked) => vm.OnDatePicking(picked);
        case CategoryStep(name) => vm.OnCategorySelection(name);
        case PaymentStep(name) => vm.OnPaymentSelection(name);
      }
      k := k + 1;
    }
    assert steps[..k] == steps;
    valid := vm.validation;
    LastGivenSpec(steps, DateOf);
    LastGivenSpec(steps, CategoryOf);
    LastGivenSpec(steps, PaymentOf);
    if LastGiven(steps, DateOf).Some? {
      PickedDateIsNotBlank(LastGiven(steps, DateOf).value);
    }
  }

  /** A whitespace-only amount typed last leaves the form invalid, whatever came before. */
  method BlankAmountNeverValid(steps: seq<FormStep>, amountText: string) returns (valid: bool)
    requires PicksValidDates(steps) && IsBlank(amountText)
    ensures !valid
  {
    var all := steps + [AmountStep(amountText)];
    assert all[..|all| - 1] == steps;
    valid := FillForm(all);
  }
}
