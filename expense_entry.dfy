/** The expense entry page (frontend/src/pages/Expenses.jsx): the budget summary
    against the fixed portfolio budget, the multipart form data built from the
    form, the list append and the form reset after a successful submit. */
module ExpenseEntry {
  import opened Common
  import opened Lists
  import opened ExpenseSchema
  import opened ExpenseTotals

  /** The portfolio budget shown on the page. */
  const PortfolioBudget: real := 100000.0

  /** `100000 - totalExpenses`. */
  function Remaining(expenses: seq<Expense>): real
  {
    PortfolioBudget - TotalExpenses(expenses)
  }

  /** Remaining and spent always add up to the portfolio budget; with no expenses
      the whole budget remains. */
  lemma RemainingPlusSpent(expenses: seq<Expense>)
    ensures Remaining(expenses) + TotalExpenses(expenses) == PortfolioBudget
    ensures Remaining([]) == PortfolioBudget
  {
  }

  /** Adding an expense lowers the remaining figure by its amount. */
  lemma RemainingAfterAdd(expenses: seq<Expense>, e: Expense)
    ensures Remaining(expenses + [e]) == Remaining(expenses) - e.amount
  {
    TotalAppend(expenses, e);
  }

  /** A value appended to the multipart body: a text field, the selected receipt
      file (by name), or null. */
  datatype FormValue = Text(s: string) | Upload(fileName: string) | Null

  /** JavaScript truthiness of a form value: a non-empty string or a file. */
  predicate Truthy(v: FormValue)
  {
    match v
    case Text(s) => s != ""
    case Upload(_) => true
    case Null => false
  }

  /** The form state; `receipt` is the selected file, if any. */
  datatype ExpenseForm = ExpenseForm(
    title: string, amount: string, category: string, date: string, description: string,
    paymentMethod: string, projectId: string, receipt: Option<string>)

  /** The form after a reset; `today` is the current date as the date input shows it. */
  function DefaultForm(today: string): ExpenseForm
  {
    ExpenseForm("", "", "material", today, "", "cash", "", None)
  }

  /** `Object.keys(formData)` with their values, in key order. */
  function Entries(f: ExpenseForm): seq<(string, FormValue)>
  {
    [("title", Text(f.title)), ("amount", Text(f.amount)), ("category", Text(f.category)),
     ("date", Text(f.date)), ("description", Text(f.description)),
     ("paymentMethod", Text(f.paymentMethod)), ("projectId", Text(f.projectId)),
     ("receipt", if f.receipt.Some? then Upload(f.receipt.value) else Null)]
  }

  const IsTruthyEntry: ((string, FormValue)) -> bool := (kv: (string, FormValue)) => Truthy(kv.1)

  /** The entries the loop appends: the truthy ones, in key order. */
  function TruthyEntries(entries: seq<(string, FormValue)>): seq<(string, FormValue)>
  {
    Filter(entries, IsTruthyEntry)
  }

  /** The `forEach` over the form's keys in `handleSubmit`, with both of its branches:
      the receipt branch and the general truthy branch. */
  method BuildFormData(entries: seq<(string, FormValue)>) returns (data: seq<(string, FormValue)>)
    ensures data == TruthyEntries(entries)
  {
    data := [];
    var i := 0;
    while i < |entries|
      invariant 0 <= i <= |entries|
      invariant TruthyEntries(entries) == data + TruthyEntries(entries[i..])
    {
      assert entries[i..][1..] == entries[i + 1..];
      var (key, value) := entries[i];
      if key == "receipt" && Truthy(value) {
        data := data + [(key, value)];
      } else if Truthy(value) {
        data := data + [(key, value)];
      }
      i := i + 1;
    }
    assert entries[i..] == [];
  }

  /** The multipart body holds exactly the truthy entries of the form, in key order. */
  lemma SubmittedEntries(f: ExpenseForm, kv: (string, FormValue))
    ensures IsSubsequence(TruthyEntries(Entries(f)), Entries(f))
    ensures kv in TruthyEntries(Entries(f)) <==> kv in Entries(f) && Truthy(kv.1)
  {
    FilterIsSubsequence(Entries(f), IsTruthyEntry);
    FilterMembership(Entries(f), IsTruthyEntry, kv);
  }

  /** The receipt is sent exactly when a file is selected; an empty text field is never sent. */
  lemma ReceiptSentIffSelected(f: ExpenseForm)
    ensures (exists v :: ("receipt", v) in TruthyEntries(Entries(f))) <==> f.receipt.Some?
    ensures f.title == "" ==> forall v :: ("title", v) !in TruthyEntries(Entries(f))
  {
    var es := Entries(f);
    if f.receipt.Some? {
      FilterMembership(es, IsTruthyEntry, ("receipt", Upload(f.receipt.value)));
      assert es[7] == ("receipt", Upload(f.receipt.value));
    }
    forall v | ("receipt", v) in TruthyEntries(es) ensures f.receipt.Some? {
      FilterMembership(es, IsTruthyEntry, ("receipt", v));
    }
    forall v ensures ("title", v) in TruthyEntries(es) ==> f.title != "" {
      FilterMembership(es, IsTruthyEntry, ("title", v));
    }
  }

  /** A freshly reset form sends only its three pre-filled fields. */
  lemma DefaultFormSends(today: string, kv: (string, FormValue))
    requires today != ""
    ensures kv in TruthyEntries(Entries(DefaultForm(today)))
        <==> kv in [("category", Text("material")), ("date", Text(today)), ("paymentMethod", Text("cash"))]
  {
    FilterMembership(Entries(DefaultForm(today)), IsTruthyEntry, kv);
  }

  const AddedMessage: string := "Expense added successfully!"
  const AddFailedMessage: string := "Failed to add expense"
  const LoadFailedMessage: string := "Failed to load data"

  /** The page's state. */
  class ExpenseEntryScreen {
    var expenses: seq<Expense>
    var form: ExpenseForm
    var error: string
    var successMessage: string

    constructor (today: string)
      ensures expenses == [] && form == DefaultForm(today) && error == "" && successMessage == ""
    {
      expenses := [];
      form := DefaultForm(today);
      error := "";
      successMessage := "";
    }

    /** The expenses list loaded from the server. */
    method Loaded(data: seq<Expense>)
      modifies this`expenses
      ensures expenses == data
    {
      expenses := data;
    }

    /** A failed load of expenses or projects sets the fixed load error. */
    method LoadFailed()
      modifies this`error
      ensures error == LoadFailedMessage
    {
      error := LoadFailedMessage;
    }

    /** `handleSubmit`: builds the multipart body, posts it and, when the server
        answers with the stored expense, appends it and resets the form. */
    method Submit(today: string, response: Result<Expense>) returns (data: seq<(string, FormValue)>)
      modifies this
      ensures data == TruthyEntries(Entries(old(form)))
      ensures response.Ok? ==>
                && expenses == old(expenses) + [response.value]
                && form == DefaultForm(today) && successMessage == AddedMessage
                && error == old(error)
      ensures response.Err? ==>
                && expenses == old(expenses) && form == old(form)
                && error == AddFailedMessage && successMessage == old(successMessage)
    {
      data := BuildFormData(Entries(form));
      match response
      case Ok(stored) =>
        expenses := expenses + [stored];
        successMessage := AddedMessage;
        form := DefaultForm(today);
      case Err(_) =>
        error := AddFailedMessage;
    }
  }
}
