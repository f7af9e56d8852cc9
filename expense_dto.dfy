/**
 * The wire form of an expense, whose category and payment method are
 * free strings, and its translation to and from the domain record. An
 * unknown category label becomes `Other`, an unknown payment label `Cash`.
 */
module ExpenseDto {
  import opened Wrappers
  import opened ExpenseModel

  datatype ExpenseDto = ExpenseDto(
    id: Option<string> := None,
    amount: real,
    category: string,
    date: string,
    description: string,
    paymentMethod: string)

  /** `entries.firstOrNull { it.label == s }`, for either enumeration. */
  function FirstWithLabel<T>(entries: seq<T>, labelOf: T -> string, s: string): (r: Option<T>)
    ensures r.Some? ==> r.value in entries && labelOf(r.value) == s
    ensures r.None? ==> forall i :: 0 <= i < |entries| ==> labelOf(entries[i]) != s
  {
    if entries == [] then None
    else if labelOf(entries[0]) == s then Some(entries[0])
    else FirstWithLabel(entries[1..], labelOf, s)
  }

  function CategoryLabel(c: Category): string { c.Label() }

  function PaymentLabel(p: PaymentMethod): string { p.Label() }

  /** `String.toCategory()`. */
  function ToCategory(s: string): Category {
    FirstWithLabel(Categories, CategoryLabel, s).GetOr(Other)
  }

  /** `String.toPaymentMethod()`. */
  function ToPaymentMethod(s: string): PaymentMethod {
    FirstWithLabel(PaymentMethods, PaymentLabel, s).GetOr(Cash)
  }

  /**
   * A string is read as the category with exactly that label (the match is
   * case-sensitive), and as `Other` when no label equals it.
   */
  lemma ToCategorySpec(s: string)
    ensures (exists c: Category :: c.Label() == s) ==> ToCategory(s).Label() == s
    ensures (forall c: Category :: c.Label() != s) ==> ToCategory(s) == Other
  {
    EntriesAreComplete();
    if exists c: Category :: c.Label() == s {
      var c: Category :| c.Label() == s;
      assert c in Categories;
      var i :| 0 <= i < |Categories| && Categories[i] == c;
      assert CategoryLabel(Categories[i]) == s;
      assert FirstWithLabel(Categories, CategoryLabel, s).Some?;
    }
  }

  /** A string is read as the payment method with exactly that label, else as `Cash`. */
  lemma ToPaymentMethodSpec(s: string)
    ensures (exists p: PaymentMethod :: p.Label() == s) ==> ToPaymentMethod(s).Label() == s
    ensures (forall p: PaymentMethod :: p.Label() != s) ==> ToPaymentMethod(s) == Cash
  {
    EntriesAreComplete();
    if exists p: PaymentMethod :: p.Label() == s {
      var p: PaymentMethod :| p.Label() == s;
      assert p in PaymentMethods;
      var i :| 0 <= i < |PaymentMethods| && PaymentMethods[i] == p;
      assert PaymentLabel(PaymentMethods[i]) == s;
      assert FirstWithLabel(PaymentMethods, PaymentLabel, s).Some?;
    }
  }

  /** Every category and payment method is read back from its own label. */
  lemma LabelRoundTrip(c: Category, p: PaymentMethod)
    ensures ToCategory(c.Label()) == c
    ensures ToPaymentMethod(p.Label()) == p
  {
    ToCategorySpec(c.Label());
    ToPaymentMethodSpec(p.Label());
    LabelsAreDistinct();
  }

  /** Matching is case-sensitive: the capitalised "Food" is not a label and reads as `Other`. */
  lemma CapitalisedLabelIsOther()
    ensures ToCategory("Food") == Other
  {
    forall c: Category ensures c.Label() != "Food" {
      if |c.Label()| == 4 { assert c.Label()[0] != 'F'; }
    }
    ToCategorySpec("Food");
  }

  /** `ExpenseDto.toDomain()`. */
  function ToDomain(d: ExpenseDto): (e: Expense)
    ensures e.id == d.id && e.amount == d.amount && e.date == d.date && e.description == d.description
    ensures e.category == ToCategory(d.category) && e.paymentMethod == ToPaymentMethod(d.paymentMethod)
  {
    Expense(
      id := d.id,
      amount := d.amount,
      category := ToCategory(d.category),
      date := d.date,
      description := d.description,
      paymentMethod := ToPaymentMethod(d.paymentMethod))
  }

  /** `Expense.toDto()`. */
  function ToDto(e: Expense): (d: ExpenseDto)
    ensures d.id == e.id && d.amount == e.amount && d.date == e.date && d.description == e.description
    ensures d.category == e.category.Label() && d.paymentMethod == e.paymentMethod.Label()
  {
    ExpenseDto(
      id := e.id,
      amount := e.amount,
      category := e.category.Label(),
      date := e.date,
      description := e.description,
      paymentMethod := e.paymentMethod.Label())
  }

  /** Writing an expense out and reading it back gives the same expense. */
  lemma DomainRoundTrip(e: Expense)
    ensures ToDomain(ToDto(e)) == e
  {
    LabelRoundTrip(e.category, e.paymentMethod);
  }

  /** Reading normalises: a second write-and-read changes nothing. */
  lemma NormalisationIdempotent(d: ExpenseDto)
    ensures ToDomain(ToDto(ToDomain(d))) == ToDomain(d)
  {
    DomainRoundTrip(ToDomain(d));
  }

  predicate IsCategoryLabel(s: string) { exists c: Category :: c.Label() == s }
  predicate IsPaymentLabel(s: string) { exists p: PaymentMethod :: p.Label() == s }

  /** A wire record survives a read-and-write exactly when both of its labels are known. */
  lemma DtoRoundTrip(d: ExpenseDto)
    ensures ToDto(ToDomain(d)) == d <==> IsCategoryLabel(d.category) && IsPaymentLabel(d.paymentMethod)
  {
    ToCategorySpec(d.category);
    ToPaymentMethodSpec(d.paymentMethod);
  }
}
