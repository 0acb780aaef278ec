/** Spend figures shared by the expense screens (frontend/src/components/header.jsx
    and frontend/src/pages/Expenses.jsx): the portfolio total and the spent
    amount of one project. Amounts are exact reals. */
module ExpenseTotals {
  import opened Common
  import opened Lists
  import opened ExpenseSchema

  /** The amount of an expense, as the reducer reads it. */
  const AmountOf: Expense -> real := (e: Expense) => e.amount

  /** `expenses.reduce((sum, e) => sum + parseFloat(e.amount), 0)`. */
  function TotalExpenses(expenses: seq<Expense>): real
  {
    Sum(expenses, AmountOf)
  }

  /** `e.projectId === project._id`: an expense without a project matches no project. */
  predicate OnProject(e: Expense, projectId: string)
  {
    e.projectId == Some(projectId)
  }

  function IsOn(projectId: string): Expense -> bool
  {
    (e: Expense) => OnProject(e, projectId)
  }

  function IsNotOn(projectId: string): Expense -> bool
  {
    (e: Expense) => !OnProject(e, projectId)
  }

  /** The expenses of one project, in list order. */
  function ProjectExpenses(expenses: seq<Expense>, projectId: string): seq<Expense>
  {
    Filter(expenses, IsOn(projectId))
  }

  /** Spent on a project: the total of the expenses whose projectId is that project's id. */
  function Spent(expenses: seq<Expense>, projectId: string): real
  {
    TotalExpenses(ProjectExpenses(expenses, projectId))
  }

  /** The total of no expenses is 0. */
  lemma TotalOfNone()
    ensures TotalExpenses([]) == 0.0
  {
  }

  /** Appending an expense adds its amount to the total. */
  lemma TotalAppend(expenses: seq<Expense>, e: Expense)
    ensures TotalExpenses(expenses + [e]) == TotalExpenses(expenses) + e.amount
  {
    SumAppend(expenses, [e], AmountOf);
  }

  /** Appending an expense of another project leaves a project's spent figure unchanged;
      appending one of that project adds its amount. */
  lemma SpentAppend(expenses: seq<Expense>, e: Expense, projectId: string)
    ensures Spent(expenses + [e], projectId)
         == Spent(expenses, projectId) + (if OnProject(e, projectId) then e.amount else 0.0)
  {
    FilterAppend(expenses, [e], IsOn(projectId));
    SumAppend(Filter(expenses, IsOn(projectId)), Filter([e], IsOn(projectId)), AmountOf);
  }

  /** Every expense of the project counts, and only those: spent plus the total of
      the other expenses is the portfolio total. */
  lemma SpentPlusOthers(expenses: seq<Expense>, projectId: string)
    ensures TotalExpenses(expenses)
         == Spent(expenses, projectId) + TotalExpenses(Filter(expenses, IsNotOn(projectId)))
  {
    SumPartition(expenses, AmountOf, IsOn(projectId), IsNotOn(projectId));
  }

  /** `e` is assigned to none of the listed projects (no project at all, or one not listed). */
  function IsUnallocated(projectIds: seq<string>): Expense -> bool
  {
    (e: Expense) => !(e.projectId.Some? && e.projectId.value in projectIds)
  }

  function Unallocated(expenses: seq<Expense>, projectIds: seq<string>): seq<Expense>
  {
    Filter(expenses, IsUnallocated(projectIds))
  }

  /** Sum of the spent figures of the listed projects. */
  function SpentAcross(expenses: seq<Expense>, projectIds: seq<string>): real
  {
    if projectIds == [] then 0.0
    else Spent(expenses, projectIds[0]) + SpentAcross(expenses, projectIds[1..])
  }

  /** Removing another project's expenses does not change a project's spent figure. */
  lemma SpentIgnoresOtherProject(expenses: seq<Expense>, other: string, projectId: string)
    requires other != projectId
    ensures Spent(Filter(expenses, IsNotOn(other)), projectId) == Spent(expenses, projectId)
  {
    FilterFilter(expenses, IsNotOn(other), IsOn(projectId), IsOn(projectId));
  }

  /** Removing another project's expenses does not change the spent figures of the
      listed projects when it is not among them. */
  lemma {:induction false} SpentAcrossIgnoresOther(expenses: seq<Expense>, other: string, projectIds: seq<string>)
    requires other !in projectIds
    ensures SpentAcross(Filter(expenses, IsNotOn(other)), projectIds) == SpentAcross(expenses, projectIds)
  {
    if projectIds != [] {
      SpentIgnoresOtherProject(expenses, other, projectIds[0]);
      SpentAcrossIgnoresOther(expenses, other, projectIds[1..]);
    }
  }

  /** The portfolio total splits into the spent figures of distinct projects plus
      the expenses allocated to none of them. */
  lemma {:induction false} PortfolioPartition(expenses: seq<Expense>, projectIds: seq<string>)
    requires forall i, j :: 0 <= i < j < |projectIds| ==> projectIds[i] != projectIds[j]
    ensures TotalExpenses(expenses)
         == SpentAcross(expenses, projectIds) + TotalExpenses(Unallocated(expenses, projectIds))
    decreases |projectIds|
  {
    if projectIds == [] {
      FilterKeepsAll(expenses, IsUnallocated(projectIds));
    } else {
      var p0, rest := projectIds[0], projectIds[1..];
      var others := Filter(expenses, IsNotOn(p0));
      SpentPlusOthers(expenses, p0);
      PortfolioPartition(others, rest);
      assert p0 !in rest by {
        forall j | 0 <= j < |rest| ensures rest[j] != p0 {
          assert rest[j] == projectIds[j + 1];
        }
      }
      SpentAcrossIgnoresOther(expenses, p0, rest);
      FilterFilter(expenses, IsNotOn(p0), IsUnallocated(rest), IsUnallocated(projectIds));
    }
  }
}
