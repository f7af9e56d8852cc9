/**
 * The domain record of an expense with its two closed enumerations
 * (`Category`, `PaymentMethod`), each constant carrying a lower-case label.
 */
module ExpenseModel {
  import opened Wrappers
  import opened Text

  datatype Category = Food | Transport | Fun | Shopping | Health | Bills | Education | Travel | Other {
    /** The label the constant is declared with. */
    function Label(): string {
      match this
      case Food => "food"
      case Transport => "transport"
      case Fun => "fun"
      case Shopping => "shopping"
      case Health => "health"
      case Bills => "bills"
      case Education => "education"
      case Travel => "travel"
      case Other => "other"
    }

    /** The constant's name, Kotlin's `Enum.name`. */
    function Name(): string {
      match this
      case Food => "FOOD"
      case Transport => "TRANSPORT"
      case Fun => "FUN"
      case Shopping => "SHOPPING"
      case Health => "HEALTH"
      case Bills => "BILLS"
      case Education => "EDUCATION"
      case Travel => "TRAVEL"
      case Other => "OTHER"
    }
  }

  /** `Category.entries`, in declaration order. */
  const Categories: seq<Category> :=
    [Food, Transport, Fun, Shopping, Health, Bills, Education, Travel, Other]

  datatype PaymentMethod = Cash | Card | Digital {
    function Label(): string {
      match this
      case Cash => "cash"
      case Card => "card"
      case Digital => "digital"
    }

    function Name(): string {
      match this
      case Cash => "CASH"
      case Card => "CARD"
      case Digital => "DIGITAL"
    }
  }

  /** `PaymentMethod.entries`, in declaration order. */
  const PaymentMethods: seq<PaymentMethod> := [Cash, Card, Digital]

  /** An expense; `id` is absent until the record has been stored remotely. */
  datatype Expense = Expense(
    id: Option<string> := None,
    amount: real,
    category: Category,
    date: string,
    description: string,
    paymentMethod: PaymentMethod)

  /** An expense built without an id has none. */
  lemma IdDefaultsToAbsent(amount: real, category: Category, date: string, description: string, paymentMethod: PaymentMethod)
    ensures Expense(amount := amount, category := category, date := date,
                    description := description, paymentMethod := paymentMethod).id == None
  {
  }

  /** The entries list each constant once: nine categories ending in `Other`, three methods starting with `Cash`. */
  lemma EntriesAreComplete()
    ensures |Categories| == 9 && Categories[8] == Other
    ensures forall c: Category :: c in Categories
    ensures forall i, j :: 0 <= i < j < |Categories| ==> Categories[i] != Categories[j]
    ensures |PaymentMethods| == 3 && PaymentMethods[0] == Cash
    ensures forall p: PaymentMethod :: p in PaymentMethods
    ensures forall i, j :: 0 <= i < j < |PaymentMethods| ==> PaymentMethods[i] != PaymentMethods[j]
  {
    forall c: Category ensures c in Categories {
      match c
      case Food => assert Categories[0] == c;
      case Transport => assert Categories[1] == c;
      case Fun => assert Categories[2] == c;
      case Shopping => assert Categories[3] == c;
      case Health => assert Categories[4] == c;
      case Bills => assert Categories[5] == c;
      case Education => assert Categories[6] == c;
      case Travel => assert Categories[7] == c;
      case Other => assert Categories[8] == c;
    }
    forall p: PaymentMethod ensures p in PaymentMethods {
      match p
      case Cash => assert PaymentMethods[0] == p;
      case Card => assert PaymentMethods[1] == p;
      case Digital => assert PaymentMethods[2] == p;
    }
  }

  /** Every label is the lower-case of its constant's name, and is not empty. */
  lemma LabelsAreLowercaseNames()
    ensures forall c: Category :: c.Label() == Lowercase(c.Name()) && |c.Label()| > 0
    ensures forall p: PaymentMethod :: p.Label() == Lowercase(p.Name()) && |p.Label()| > 0
  {
    forall c: Category ensures c.Label() == Lowercase(c.Name()) && |c.Label()| > 0 {
      CategoryLabelLowercasesName(c);
      LowercaseIs(c.Name(), c.Label());
    }
    forall p: PaymentMethod ensures p.Label() == Lowercase(p.Name()) && |p.Label()| > 0 {
      LowercaseIs(p.Name(), p.Label());
    }
  }

  lemma CategoryLabelLowercasesName(c: Category)
    ensures |c.Name()| == |c.Label()| > 0
    ensures forall i :: 0 <= i < |c.Name()| ==> ToLowerChar(c.Name()[i]) == c.Label()[i]
  {
  }

  lemma LowercaseIs(s: string, t: string)
    requires |s| == |t| && forall i :: 0 <= i < |s| ==> ToLowerChar(s[i]) == t[i]
    ensures Lowercase(s) == t
  {
  }

  /** Distinct constants have distinct labels. */
  lemma LabelsAreDistinct()
    ensures forall a: Category, b: Category :: a != b ==> a.Label() != b.Label()
    ensures forall a: PaymentMethod, b: PaymentMethod :: a != b ==> a.Label() != b.Label()
  {
    forall a: Category, b: Category | a != b ensures a.Label() != b.Label() {
      if |a.Label()| == |b.Label()| {
        assert a.Label()[0] != b.Label()[0];
      }
    }
  }

  /** `sumOf { it.amount }`, adding from the first element to the last. */
  function SumAmounts(xs: seq<Expense>): real
    decreases |xs|
  {
    if xs == [] then 0.0 else SumAmounts(xs[..|xs| - 1]) + xs[|xs| - 1].amount
  }

  /** Sums split over concatenation. */
  lemma {:induction false} SumAmountsAppend(a: seq<Expense>, b: seq<Expense>)
    ensures SumAmounts(a + b) == SumAmounts(a) + SumAmounts(b)
    decreases |b|
  {
    if b == [] {
      assert a + b == a;
    } else {
      assert (a + b)[..|a + b| - 1] == a + b[..|b| - 1];
      SumAmountsAppend(a, b[..|b| - 1]);
    }
  }

  predicate NonNegativeAmounts(xs: seq<Expense>) {
    forall i :: 0 <= i < |xs| ==> xs[i].amount >= 0.0
  }
}
