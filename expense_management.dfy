/** The expenses management screen (frontend/src/components/header.jsx): the
    search over expenses, the per-project budget cards and the budget
    allocation form that updates the `projectBudgets` map. */
module ExpenseManagement {
  import opened Common
  import opened Text
  import opened Lists
  import opened ExpenseSchema
  import opened ExpenseTotals

  /** A kept expense shows the lower-cased search term in its lower-cased title,
      category or payment method, or in its amount or date as displayed.
      `amountText` stands for `amount.toString()` and `dateText` for
      `new Date(date).toLocaleDateString()`; neither is lower-cased. */
  predicate MatchesSearch(e: Expense, term: string, amountText: real -> string, dateText: int -> string)
  {
    || Contains(ToLower(e.title), term)
    || Contains(ToLower(e.category), term)
    || Contains(ToLower(e.paymentMethod), term)
    || Contains(amountText(e.amount), term)
    || Contains(dateText(e.date), term)
  }

  /** The filter callback: an empty query keeps everything, otherwise the query is lower-cased. */
  function SearchFilter(query: string, amountText: real -> string, dateText: int -> string): Expense -> bool
  {
    (e: Expense) => query == "" || MatchesSearch(e, ToLower(query), amountText, dateText)
  }

  /** `filteredExpenses`. */
  function FilteredExpenses(expenses: seq<Expense>, query: string,
                            amountText: real -> string, dateText: int -> string): seq<Expense>
  {
    Filter(expenses, SearchFilter(query, amountText, dateText))
  }

  /** An empty query shows every expense, in its original order. */
  lemma EmptyQueryKeepsAll(expenses: seq<Expense>, amountText: real -> string, dateText: int -> string)
    ensures FilteredExpenses(expenses, "", amountText, dateText) == expenses
  {
    FilterKeepsAll(expenses, SearchFilter("", amountText, dateText));
  }

  /** Searching only hides expenses: the result keeps the original relative order. */
  lemma FilteredIsSubsequence(expenses: seq<Expense>, query: string,
                              amountText: real -> string, dateText: int -> string)
    ensures IsSubsequence(FilteredExpenses(expenses, query, amountText, dateText), expenses)
  {
    FilterIsSubsequence(expenses, SearchFilter(query, amountText, dateText));
  }

  /** An expense is shown exactly when it is in the list and, for a non-empty query,
      matches the lower-cased query in one of the five searched fields. */
  lemma FilteredMembership(expenses: seq<Expense>, query: string,
                           amountText: real -> string, dateText: int -> string, e: Expense)
    ensures e in FilteredExpenses(expenses, query, amountText, dateText)
        <==> e in expenses && (query == "" || MatchesSearch(e, ToLower(query), amountText, dateText))
  {
    FilterMembership(expenses, SearchFilter(query, amountText, dateText), e);
  }

  /** The `!searchQuery` guard changes nothing: the empty string is contained in every field. */
  lemma EmptyQueryGuardRedundant(expenses: seq<Expense>, query: string,
                                 amountText: real -> string, dateText: int -> string)
    ensures FilteredExpenses(expenses, query, amountText, dateText)
         == Filter(expenses, (e: Expense) => MatchesSearch(e, ToLower(query), amountText, dateText))
  {
    forall i | 0 <= i < |expenses|
      ensures SearchFilter(query, amountText, dateText)(expenses[i])
           == MatchesSearch(expenses[i], ToLower(query), amountText, dateText)
    {
      if query == "" {
        assert ToLower(query) == "";
        ContainsEmpty(ToLower(expenses[i].title));
      }
    }
    FilterSamePredicate(expenses, SearchFilter(query, amountText, dateText),
      (e: Expense) => MatchesSearch(e, ToLower(query), amountText, dateText));
  }

  /** A project as listed by the server. */
  datatype Project = Project(id: string, name: string)

  /** `projectBudgets[project._id] || 0`: a project without an entry has budget 0. */
  function ProjectBudget(budgets: map<string, real>, projectId: string): real
  {
    if projectId in budgets then budgets[projectId] else 0.0
  }

  /** The figures of one project card. `overspent` selects the warning style. */
  datatype ProjectCard = ProjectCard(projectId: string, budget: real, spent: real,
                                     remaining: real, overspent: bool)

  function CardFor(expenses: seq<Expense>, budgets: map<string, real>, p: Project): ProjectCard
  {
    var spent := Spent(expenses, p.id);
    var budget := ProjectBudget(budgets, p.id);
    var remaining := budget - spent;
    ProjectCard(p.id, budget, spent, remaining, !(remaining >= 0.0))
  }

  /** One card per project, in the order the projects are listed. */
  function ProjectCards(expenses: seq<Expense>, projects: seq<Project>,
                        budgets: map<string, real>): seq<ProjectCard>
  {
    Map(projects, (p: Project) => CardFor(expenses, budgets, p))
  }

  /** Each card shows its own project's figures: spent sums only that project's
      expenses, the budget is its map entry or 0, remaining is budget minus spent,
      and the warning style appears exactly when more was spent than allocated. */
  lemma CardFigures(expenses: seq<Expense>, projects: seq<Project>, budgets: map<string, real>, i: int)
    requires 0 <= i < |projects|
    ensures |ProjectCards(expenses, projects, budgets)| == |projects|
    ensures var c := ProjectCards(expenses, projects, budgets)[i];
      && c.projectId == projects[i].id
      && c.spent == TotalExpenses(Filter(expenses, IsOn(projects[i].id)))
      && c.budget == (if projects[i].id in budgets then budgets[projects[i].id] else 0.0)
      && c.remaining + c.spent == c.budget
      && (c.overspent <==> c.spent > c.budget)
  {
  }

  /** With no expenses, a card shows nothing spent and its whole budget remaining. */
  lemma NoExpensesCard(budgets: map<string, real>, p: Project)
    ensures CardFor([], budgets, p).spent == 0.0
    ensures CardFor([], budgets, p).remaining == ProjectBudget(budgets, p.id)
    ensures !CardFor([], budgets, p).overspent <==> ProjectBudget(budgets, p.id) >= 0.0
  {
  }

  /** A project with no budget entry and positive spend shows a negative remaining
      and the warning style. */
  lemma UnbudgetedSpendIsOverspent(expenses: seq<Expense>, budgets: map<string, real>, p: Project)
    requires p.id !in budgets && Spent(expenses, p.id) > 0.0
    ensures CardFor(expenses, budgets, p).remaining < 0.0 && CardFor(expenses, budgets, p).overspent
  {
  }

  /** An allocation of 1000 against expenses of 700 and 500 on the project shows
      spent 1200, remaining -200 and the warning style. */
  lemma OverspentScenario()
    ensures var p := Project("p1", "Tower");
      var e1 := Expense("e1", "Cement", 700.0, "material", 0, None, "cash", Some("p1"), None);
      var e2 := Expense("e2", "Crane", 500.0, "equipment", 1, None, "credit", Some("p1"), None);
      var e3 := Expense("e3", "Permit", 90.0, "permit", 2, None, "cash", None, None);
      CardFor([e1, e2, e3], map["p1" := 1000.0], p)
        == ProjectCard("p1", 1000.0, 1200.0, -200.0, true)
  {
    var p := Project("p1", "Tower");
    var e1 := Expense("e1", "Cement", 700.0, "material", 0, None, "cash", Some("p1"), None);
    var e2 := Expense("e2", "Crane", 500.0, "equipment", 1, None, "credit", Some("p1"), None);
    var e3 := Expense("e3", "Permit", 90.0, "permit", 2, None, "cash", None, None);
    var es := [e1, e2, e3];
    var on := IsOn("p1");
    assert es[1..] == [e2, e3] && [e2, e3][1..] == [e3] && [e3][1..] == [];
    assert Filter([e3], on) == [];
    assert Filter([e2, e3], on) == [e2];
    assert Filter(es, on) == [e1, e2];
    assert [e1, e2][1..] == [e2] && [e2][1..] == [];
  }

  /** `{ ...prev, [projectId]: parsedBudget }`: the one key set to the new value,
      every other key kept with its value. */
  function Allocate(budgets: map<string, real>, projectId: string, amount: real): (r: map<string, real>)
    ensures r.Keys == budgets.Keys + {projectId}
    ensures ProjectBudget(r, projectId) == amount
    ensures forall k :: k in budgets && k != projectId ==> r[k] == budgets[k]
  {
    budgets[projectId := amount]
  }

  /** Reallocating a project's budget changes no other project's card. */
  lemma AllocateKeepsOtherCards(expenses: seq<Expense>, budgets: map<string, real>,
                                projectId: string, amount: real, p: Project)
    requires p.id != projectId
    ensures CardFor(expenses, Allocate(budgets, projectId, amount), p) == CardFor(expenses, budgets, p)
  {
  }

  const DefaultTotalBudget: real := 100000.0

  const BudgetSuccessMessage: string := "Project budget allocated successfully!"

  const LoadFailedMessage: string := "Failed to load expenses"

  /** The body of the expenses response: an array, an object that may carry an
      `expenses` array, or a falsy body that the loader ignores. */
  datatype ExpensesBody = ArrayBody(items: seq<Expense>) | ObjectBody(wrapped: Option<seq<Expense>>) | NoBody

  /** The screen's state. `budgetProjectId` is `formData.projectId`. */
  class ExpenseManagementScreen {
    var expenses: seq<Expense>
    var searchQuery: string
    var totalBudget: real
    var projectBudgets: map<string, real>
    var newBudget: string
    var budgetProjectId: string
    var isModalOpen: bool
    var successMessage: string
    var error: string

    constructor ()
      ensures expenses == [] && searchQuery == "" && totalBudget == DefaultTotalBudget
      ensures projectBudgets == map[] && newBudget == "" && budgetProjectId == ""
      ensures !isModalOpen && successMessage == "" && error == ""
    {
      expenses := [];
      searchQuery := "";
      totalBudget := DefaultTotalBudget;
      projectBudgets := map[];
      newBudget := "";
      budgetProjectId := "";
      isModalOpen := false;
      successMessage := "";
      error := "";
    }

    /** The expenses list loaded from the server: an array body is the list, an
        object body gives its `expenses` array or the empty list, and a falsy
        body leaves the list as it was. */
    method Loaded(body: ExpensesBody)
      modifies this`expenses
      ensures body.ArrayBody? ==> expenses == body.items
      ensures body.ObjectBody? ==> expenses == (if body.wrapped.Some? then body.wrapped.value else [])
      ensures body.NoBody? ==> expenses == old(expenses)
    {
      match body
      case ArrayBody(items) => expenses := items;
      case ObjectBody(wrapped) =>
        expenses := if wrapped.Some? then wrapped.value else [];
      case NoBody =>
    }

    /** A failed load: the server's message, or the fixed fallback. */
    method LoadFailed(serverMessage: Option<string>)
      modifies this`error
      ensures error == MessageOr(serverMessage, LoadFailedMessage)
    {
      error := MessageOr(serverMessage, LoadFailedMessage);
    }

    /** `onChange` of the search box: the table then shows the rows matching the new query. */
    method SetSearchQuery(query: string)
      modifies this`searchQuery
      ensures searchQuery == query
      ensures forall amountText, dateText :: Shown(amountText, dateText)
                == FilteredExpenses(expenses, query, amountText, dateText)
    {
      searchQuery := query;
    }

    /** The rows shown in the table. */
    function Shown(amountText: real -> string, dateText: int -> string): seq<Expense>
      reads this
    {
      FilteredExpenses(expenses, searchQuery, amountText, dateText)
    }

    method OpenModal()
      modifies this`isModalOpen
      ensures isModalOpen
    {
      isModalOpen := true;
    }

    /** `handleBudgetChange`: the `projectId` input sets the form's project, any
        other input sets the new budget text. */
    method BudgetChange(name: string, value: string)
      modifies this`budgetProjectId, this`newBudget
      ensures name == "projectId" ==> budgetProjectId == value && newBudget == old(newBudget)
      ensures name != "projectId" ==> newBudget == value && budgetProjectId == old(budgetProjectId)
    {
      if name == "projectId" {
        budgetProjectId := value;
      } else {
        newBudget := value;
      }
    }

    /** `handleBudgetSubmit`. `parseNumber` is None for text that `isNaN` rejects
        and otherwise gives the value `parseFloat` reads. */
    method SubmitBudget(parseNumber: string -> Option<real>) returns (accepted: bool)
      modifies this`projectBudgets, this`newBudget, this`budgetProjectId, this`isModalOpen,
               this`successMessage
      ensures accepted <==> old(budgetProjectId) != "" && old(newBudget) != ""
                            && parseNumber(old(newBudget)).Some?
      ensures !accepted ==> projectBudgets == old(projectBudgets) && newBudget == old(newBudget)
                            && budgetProjectId == old(budgetProjectId)
                            && isModalOpen == old(isModalOpen) && successMessage == old(successMessage)
      ensures accepted ==>
                && projectBudgets == Allocate(old(projectBudgets), old(budgetProjectId),
                                              parseNumber(old(newBudget)).value)
                && newBudget == "" && budgetProjectId == "" && !isModalOpen
                && successMessage == BudgetSuccessMessage
    {
      if budgetProjectId == "" || newBudget == "" || parseNumber(newBudget).None? {
        return false;
      }
      var parsed := parseNumber(newBudget).value;
      projectBudgets := Allocate(projectBudgets, budgetProjectId, parsed);
      isModalOpen := false;
      newBudget := "";
      budgetProjectId := "";
      successMessage := BudgetSuccessMessage;
      accepted := true;
    }
  }
}
