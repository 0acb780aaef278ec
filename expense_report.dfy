/** The expense report dialog (frontend/src/components/ExpenseReport.jsx): the
    category colour table, the share of the total budget, the bar width and the
    review warning. */
module ExpenseReport {
  import opened Common
  import ExpenseSchema

  /** The `colors` table of `getCategoryColor`. */
  const Colors: map<string, string> := map[
    "material" := "bg-blue-100 text-blue-800",
    "labor" := "bg-green-100 text-green-800",
    "equipment" := "bg-yellow-100 text-yellow-800",
    "transport" := "bg-purple-100 text-purple-800",
    "utilities" := "bg-orange-100 text-orange-800",
    "other" := "bg-gray-100 text-gray-800"]

  /** `colors[category] || colors.other`: the colour is always one of the table's
      (never undefined, never empty). */
  function CategoryColor(category: string): (c: string)
    ensures c in Colors.Values && c != ""
  {
    if category in Colors then Colors[category] else Colors["other"]
  }

  /** The six table keys get their own entry. */
  lemma CategoryColorTable()
    ensures CategoryColor("material") == "bg-blue-100 text-blue-800"
    ensures CategoryColor("labor") == "bg-green-100 text-green-800"
    ensures CategoryColor("equipment") == "bg-yellow-100 text-yellow-800"
    ensures CategoryColor("transport") == "bg-purple-100 text-purple-800"
    ensures CategoryColor("utilities") == "bg-orange-100 text-orange-800"
    ensures CategoryColor("other") == "bg-gray-100 text-gray-800"
  {
  }

  /** Any key outside the table falls back to the `other` colour. */
  lemma CategoryColorFallback(category: string)
    requires category !in Colors
    ensures CategoryColor(category) == CategoryColor("other")
  {
  }

  /** The colour table and the schema disagree: transportation, utility and permit are
      valid schema categories that fall back to the `other` colour, while the table's
      transport and utilities are rejected by the schema. */
  lemma ColorTableMismatchesSchema()
    ensures forall c :: c in ["transportation", "utility", "permit"] ==>
              c in ExpenseSchema.Categories && c !in Colors && CategoryColor(c) == CategoryColor("other")
    ensures forall c :: c in ["transport", "utilities"] ==> c in Colors && c !in ExpenseSchema.Categories
  {
  }

  /** The schema categories that have a colour of their own. */
  lemma SchemaCategoriesWithOwnColor(c: string)
    requires c in ExpenseSchema.Categories
    ensures c in Colors <==> c in ["material", "labor", "equipment", "other"]
  {
  }

  /** `(expense.amount / totalBudget) * 100`. The source has no guard against a zero
      budget, so the figure is only defined for a non-zero one. */
  function Percentage(amount: real, totalBudget: real): real
    requires totalBudget != 0.0
  {
    amount / totalBudget * 100.0
  }

  /** `Math.min(percentage, 100)`: never more than 100, equal to the percentage up to 100. */
  function BarWidth(percentage: real): (w: real)
    ensures w <= 100.0
    ensures percentage <= 100.0 ==> w == percentage
    ensures percentage > 100.0 ==> w == 100.0
  {
    if percentage < 100.0 then percentage else 100.0
  }

  /** For a positive budget the share reaches 100 exactly when the amount reaches the
      budget, so the bar is full from that point on. */
  lemma PercentageAtBudget(amount: real, totalBudget: real)
    requires totalBudget > 0.0
    ensures Percentage(amount, totalBudget) <= 100.0 <==> amount <= totalBudget
    ensures amount >= totalBudget ==> BarWidth(Percentage(amount, totalBudget)) == 100.0
  {
    var q := amount / totalBudget;
    assert q * totalBudget == amount;
    if amount <= totalBudget {
      assert q <= 1.0;
    } else {
      assert q > 1.0;
    }
  }

  const ReviewThreshold: real := 1000.0

  /** `expense.amount > 1000`: the manual-review warning. */
  predicate NeedsReview(amount: real)
  {
    amount > ReviewThreshold
  }

  /** Exactly 1000 is not flagged; anything above it is. */
  lemma ReviewBoundary(amount: real)
    ensures !NeedsReview(1000.0)
    ensures NeedsReview(amount) <==> amount > 1000.0
  {
  }

  /** What the dialog shows for one expense. */
  datatype ReportView = ReportView(categoryColor: string, percentOfBudget: real,
                                   barWidth: real, needsReview: bool)

  /** The dialog: nothing when no expense is given (`if (!expense) return null`). */
  function Report(expense: Option<ExpenseSchema.Expense>, totalBudget: real): (v: Option<ReportView>)
    requires expense.Some? ==> totalBudget != 0.0
    ensures v.None? <==> expense.None?
    ensures v.Some? ==> v.value.barWidth <= 100.0 && v.value.categoryColor in Colors.Values
    ensures v.Some? ==> (v.value.needsReview <==> expense.value.amount > 1000.0)
    ensures v.Some? ==>
              && v.value.categoryColor == CategoryColor(expense.value.category)
              && v.value.percentOfBudget == Percentage(expense.value.amount, totalBudget)
              && v.value.barWidth == BarWidth(v.value.percentOfBudget)
  {
    match expense
    case None => None
    case Some(e) =>
      var p := Percentage(e.amount, totalBudget);
      Some(ReportView(CategoryColor(e.category), p, BarWidth(p), NeedsReview(e.amount)))
  }

  /** Without an expense nothing is rendered, whatever the budget, zero included. */
  lemma NoExpenseRendersNothing(totalBudget: real)
    ensures Report(None, totalBudget).None?
  {
  }
}
