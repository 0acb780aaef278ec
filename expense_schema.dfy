/** The expense schema of the backend (backend/models/Expense.js) as a validator:
    which fields are required, the two closed enumerations, and the default
    payment method filled in before validation. */
module ExpenseSchema {
  import opened Common

  /** A candidate document as it reaches the schema: every field may be absent.
      Dates are day numbers. */
  datatype Candidate = Candidate(
    title: Option<string>,
    amount: Option<real>,
    category: Option<string>,
    date: Option<int>,
    description: Option<string>,
    paymentMethod: Option<string>,
    projectId: Option<string>,
    receipt: Option<string>)

  /** A stored expense: the required fields are present and the default applied. */
  datatype Expense = Expense(
    id: string,
    title: string,
    amount: real,
    category: string,
    date: int,
    description: Option<string>,
    paymentMethod: string,
    projectId: Option<string>,
    receipt: Option<string>)

  const Categories: seq<string> :=
    ["material", "labor", "equipment", "transportation", "utility", "permit", "other"]

  const PaymentMethods: seq<string> := ["cash", "credit", "debit", "check", "transfer"]

  const DefaultPaymentMethod: string := "cash"

  /** The schema paths that carry a validator. */
  datatype Path = Title | Amount | Category | Date | PaymentMethod

  /** Which validator of a path failed: `required` or `enum`. */
  datatype Violation = Required(path: Path) | NotInEnum(path: Path)

  /** The `default: 'cash'` of paymentMethod, applied when the field is absent. */
  function ApplyDefaults(c: Candidate): (d: Candidate)
    ensures d.paymentMethod.Some?
    ensures c.paymentMethod.Some? ==> d == c
    ensures c.paymentMethod.None? ==> d == c.(paymentMethod := Some(DefaultPaymentMethod))
  {
    if c.paymentMethod.None? then c.(paymentMethod := Some(DefaultPaymentMethod)) else c
  }

  /** A required String path fails on an absent value and on the empty string. */
  function RequiredText(path: Path, v: Option<string>): seq<Violation>
  {
    if v.None? || v.value == "" then [Required(path)] else []
  }

  /** A required String path with `enum`: `required` is checked first; a
      present value outside the list fails the `enum` validator. */
  function RequiredEnum(path: Path, v: Option<string>, allowed: seq<string>): seq<Violation>
  {
    if v.None? || v.value == "" then [Required(path)]
    else if v.value !in allowed then [NotInEnum(path)]
    else []
  }

  /** An optional String path with `enum`: an absent value passes. */
  function OptionalEnum(path: Path, v: Option<string>, allowed: seq<string>): seq<Violation>
  {
    if v.Some? && v.value !in allowed then [NotInEnum(path)] else []
  }

  /** Every failing path, in schema order; all are collected, not just the first. */
  function Violations(c: Candidate): seq<Violation>
  {
    RequiredText(Title, c.title)
    + (if c.amount.None? then [Required(Amount)] else [])
    + RequiredEnum(Category, c.category, Categories)
    + (if c.date.None? then [Required(Date)] else [])
    + OptionalEnum(PaymentMethod, c.paymentMethod, PaymentMethods)
  }

  /** The schema accepts a candidate when, after defaults, no validator fails. */
  predicate Accepts(c: Candidate)
  {
    Violations(ApplyDefaults(c)) == []
  }

  /** Saving a candidate: either the stored record or the list of violations. */
  datatype SaveResult = Saved(expense: Expense) | Rejected(violations: seq<Violation>)

  function Save(c: Candidate, id: string): (r: SaveResult)
    ensures r.Saved? <==> Accepts(c)
    ensures r.Rejected? ==> r.violations != [] && r.violations == Violations(ApplyDefaults(c))
    ensures r.Saved? ==>
              && r.expense.id == id && Some(r.expense.title) == c.title
              && Some(r.expense.amount) == c.amount && Some(r.expense.category) == c.category
              && Some(r.expense.date) == c.date && r.expense.description == c.description
              && Some(r.expense.paymentMethod) == ApplyDefaults(c).paymentMethod
              && r.expense.projectId == c.projectId && r.expense.receipt == c.receipt
  {
    var d := ApplyDefaults(c);
    var vs := Violations(d);
    if vs == [] then
      Saved(Expense(id, d.title.value, d.amount.value, d.category.value, d.date.value,
                    d.description, d.paymentMethod.value, d.projectId, d.receipt))
    else Rejected(vs)
  }

  /** The candidate a stored record corresponds to (every field present). */
  function ToCandidate(e: Expense): Candidate
  {
    Candidate(Some(e.title), Some(e.amount), Some(e.category), Some(e.date),
              e.description, Some(e.paymentMethod), e.projectId, e.receipt)
  }

  /** The schema's rules spelled out field by field, in both directions. */
  lemma AcceptsIff(c: Candidate)
    ensures Accepts(c) <==>
      && c.title.Some? && c.title.value != ""
      && c.amount.Some?
      && c.category.Some? && c.category.value in Categories
      && c.date.Some?
      && (c.paymentMethod.None? || c.paymentMethod.value in PaymentMethods)
  {
    var d := ApplyDefaults(c);
    assert DefaultPaymentMethod in PaymentMethods;
    assert "" !in Categories;
    var a := RequiredText(Title, d.title);
    var b := if d.amount.None? then [Required(Amount)] else [];
    var e := RequiredEnum(Category, d.category, Categories);
    var f := if d.date.None? then [Required(Date)] else [];
    var g := OptionalEnum(PaymentMethod, d.paymentMethod, PaymentMethods);
    assert Violations(d) == a + b + e + f + g;
    assert Violations(d) == [] <==> a == [] && b == [] && e == [] && f == [] && g == [];
  }

  /** A candidate missing any required field is rejected, and the rejection names that field. */
  lemma MissingRequiredNamed(c: Candidate)
    ensures c.title.None? ==> Save(c, "").Rejected? && Required(Title) in Save(c, "").violations
    ensures c.amount.None? ==> Save(c, "").Rejected? && Required(Amount) in Save(c, "").violations
    ensures c.category.None? ==> Save(c, "").Rejected? && Required(Category) in Save(c, "").violations
    ensures c.date.None? ==> Save(c, "").Rejected? && Required(Date) in Save(c, "").violations
  {
    var d := ApplyDefaults(c);
    assert Violations(d) == RequiredText(Title, d.title)
      + (if d.amount.None? then [Required(Amount)] else [])
      + RequiredEnum(Category, d.category, Categories)
      + (if d.date.None? then [Required(Date)] else [])
      + OptionalEnum(PaymentMethod, d.paymentMethod, PaymentMethods);
  }

  /** A category outside the enumeration is rejected by the `enum` validator
      of `category`; it is never replaced by `other`. */
  lemma UnknownCategoryRejected(c: Candidate)
    requires c.category.Some? && c.category.value != "" && c.category.value !in Categories
    ensures Save(c, "").Rejected? && NotInEnum(Category) in Save(c, "").violations
  {
    var d := ApplyDefaults(c);
    var pre := RequiredText(Title, d.title) + (if d.amount.None? then [Required(Amount)] else []);
    var post := (if d.date.None? then [Required(Date)] else [])
      + OptionalEnum(PaymentMethod, d.paymentMethod, PaymentMethods);
    assert Violations(d) == pre + [NotInEnum(Category)] + post;
    assert Violations(d)[|pre|] == NotInEnum(Category);
  }

  /** A supplied payment method outside the enumeration is rejected. */
  lemma UnknownPaymentMethodRejected(c: Candidate)
    requires c.paymentMethod.Some? && c.paymentMethod.value !in PaymentMethods
    ensures Save(c, "").Rejected? && NotInEnum(PaymentMethod) in Save(c, "").violations
  {
    var d := ApplyDefaults(c);
    assert d == c;
    var pre := RequiredText(Title, d.title) + (if d.amount.None? then [Required(Amount)] else [])
      + RequiredEnum(Category, d.category, Categories)
      + (if d.date.None? then [Required(Date)] else []);
    assert Violations(d) == pre + [NotInEnum(PaymentMethod)];
    assert Violations(d)[|pre|] == NotInEnum(PaymentMethod);
  }

  /** An absent payment method is stored as `cash`. */
  lemma AbsentPaymentMethodIsCash(c: Candidate, id: string)
    requires c.paymentMethod.None? && Accepts(c)
    ensures Save(c, id).Saved? && Save(c, id).expense.paymentMethod == "cash"
  {
  }

  /** Applying the default a second time changes nothing. */
  lemma ApplyDefaultsIdempotent(c: Candidate)
    ensures ApplyDefaults(ApplyDefaults(c)) == ApplyDefaults(c)
  {
  }

  /** description, projectId and receipt are optional: dropping them never causes a rejection. */
  lemma OptionalFieldsNotRequired(c: Candidate)
    requires Accepts(c)
    ensures Accepts(c.(description := None, projectId := None, receipt := None))
  {
    AcceptsIff(c);
    AcceptsIff(c.(description := None, projectId := None, receipt := None));
  }

  /** The schema puts no sign constraint on amount: any number, zero or negative included,
      is accepted in place of an accepted amount. */
  lemma AnyAmountAccepted(c: Candidate, a: real)
    requires Accepts(c)
    ensures Accepts(c.(amount := Some(a)))
  {
    AcceptsIff(c);
    AcceptsIff(c.(amount := Some(a)));
  }

  /** An expense of amount -10 with every other field valid is stored. */
  lemma NegativeAmountAccepted()
    ensures Save(Candidate(Some("Cement"), Some(-10.0), Some("material"), Some(0), None,
                           Some("cash"), None, None), "e1").Saved?
  {
    AcceptsIff(Candidate(Some("Cement"), Some(-10.0), Some("material"), Some(0), None,
                         Some("cash"), None, None));
  }

  /** A stored record is a fixed point: validating it again stores the same record. */
  lemma {:induction false} StoredRecordRevalidates(c: Candidate, id: string)
    requires Save(c, id).Saved?
    ensures Save(ToCandidate(Save(c, id).expense), id) == Save(c, id)
  {
    var e := Save(c, id).expense;
    AcceptsIff(c);
    AcceptsIff(ToCandidate(e));
  }
}
