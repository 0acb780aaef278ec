/** The labour assignment screen (frontend/src/pages/Assign.jsx): the form, the
    search over project and task codes, the list shown, and the edit/add state
    machine of the submit and cancel buttons. */
module LabourAssignment {
  import opened Common
  import opened Text
  import opened Lists

  /** An assignment as the server returns it. */
  datatype Assignment = Assignment(
    id: string, projectCode: string, taskCode: string, labourType: string,
    numberOfLabourers: string, assignmentDate: string, siteName: string, supervisor: string)

  /** The form's seven inputs. */
  datatype AssignmentForm = AssignmentForm(
    projectCode: string, taskCode: string, labourType: string, numberOfLabourers: string,
    assignmentDate: string, siteName: string, supervisor: string)

  const EmptyForm: AssignmentForm := AssignmentForm("", "", "", "", "", "", "")

  datatype Field = ProjectCode | TaskCode | LabourType | NumberOfLabourers
                 | AssignmentDate | SiteName | Supervisor

  function Get(f: AssignmentForm, k: Field): string
  {
    match k
    case ProjectCode => f.projectCode
    case TaskCode => f.taskCode
    case LabourType => f.labourType
    case NumberOfLabourers => f.numberOfLabourers
    case AssignmentDate => f.assignmentDate
    case SiteName => f.siteName
    case Supervisor => f.supervisor
  }

  /** `{ ...prevState, [name]: value }`. */
  function Set(f: AssignmentForm, k: Field, v: string): (g: AssignmentForm)
    ensures forall j :: Get(g, j) == if j == k then v else Get(f, j)
  {
    match k
    case ProjectCode => f.(projectCode := v)
    case TaskCode => f.(taskCode := v)
    case LabourType => f.(labourType := v)
    case NumberOfLabourers => f.(numberOfLabourers := v)
    case AssignmentDate => f.(assignmentDate := v)
    case SiteName => f.(siteName := v)
    case Supervisor => f.(supervisor := v)
  }

  /** The form every field of which is empty is the reset form. */
  lemma EmptyFormIsAllEmpty(f: AssignmentForm)
    ensures f == EmptyForm <==> forall k :: Get(f, k) == ""
  {
    if forall k :: Get(f, k) == "" {
      assert Get(f, ProjectCode) == "" && Get(f, TaskCode) == "" && Get(f, LabourType) == "";
      assert Get(f, NumberOfLabourers) == "" && Get(f, AssignmentDate) == "";
      assert Get(f, SiteName) == "" && Get(f, Supervisor) == "";
    }
  }

  /** The search callback; `term` is already lower-cased. */
  predicate MatchesTerm(a: Assignment, term: string)
  {
    Contains(ToLower(a.projectCode), term) || Contains(ToLower(a.taskCode), term)
  }

  function MatchesBy(term: string): Assignment -> bool
  {
    (a: Assignment) => MatchesTerm(a, term)
  }

  /** The `filtered` list of `handleSearch`. */
  function Search(assignments: seq<Assignment>, term: string): seq<Assignment>
  {
    Filter(assignments, MatchesBy(term))
  }

  /** The search keeps, in their original order, exactly the assignments whose
      lower-cased project or task code contains the term. */
  lemma SearchSpec(assignments: seq<Assignment>, term: string, a: Assignment)
    ensures IsSubsequence(Search(assignments, term), assignments)
    ensures a in Search(assignments, term) <==>
              a in assignments && (Contains(ToLower(a.projectCode), term) || Contains(ToLower(a.taskCode), term))
  {
    FilterIsSubsequence(assignments, MatchesBy(term));
    FilterMembership(assignments, MatchesBy(term), a);
  }

  /** An empty term keeps the full list. */
  lemma EmptyTermKeepsAll(assignments: seq<Assignment>)
    ensures Search(assignments, "") == assignments
  {
    forall i | 0 <= i < |assignments| ensures MatchesTerm(assignments[i], "") {
      ContainsEmpty(ToLower(assignments[i].projectCode));
    }
    FilterKeepsAll(assignments, MatchesBy(""));
  }

  /** What submit sends: an update of the assignment being edited, or a create. */
  datatype Request = Create(form: AssignmentForm) | Update(id: string, form: AssignmentForm)

  const UpdatedMessage: string := "Labour assignment updated successfully!"
  const CreatedMessage: string := "Labour assignment created successfully!"
  const SubmitFailedMessage: string := "Error processing assignment"
  const FetchFailedMessage: string := "Error fetching assignments"

  /** The screen's state. */
  class AssignScreen {
    var formData: AssignmentForm
    var assignments: seq<Assignment>
    var filteredAssignments: seq<Assignment>
    var searchTerm: string
    var editingAssignment: Option<Assignment>
    var isEditing: bool
    var error: string
    var success: string

    /** Edit mode and the assignment being edited go together. */
    predicate Valid()
      reads this
    {
      isEditing <==> editingAssignment.Some?
    }

    constructor ()
      ensures Valid()
      ensures formData == EmptyForm && assignments == [] && filteredAssignments == []
      ensures searchTerm == "" && editingAssignment.None? && !isEditing && error == "" && success == ""
    {
      formData := EmptyForm;
      assignments := [];
      filteredAssignments := [];
      searchTerm := "";
      editingAssignment := None;
      isEditing := false;
      error := "";
      success := "";
    }

    /** `(searchTerm ? filteredAssignments : assignments)`: the rows shown. */
    function Displayed(): seq<Assignment>
      reads this
    {
      if searchTerm != "" then filteredAssignments else assignments
    }

    /** `handleInputChange`: only the named field of the form changes. */
    method InputChange(k: Field, v: string)
      requires Valid()
      modifies this`formData
      ensures Valid()
      ensures forall j :: Get(formData, j) == if j == k then v else Get(old(formData), j)
    {
      formData := Set(formData, k, v);
    }

    /** `fetchAssignments` on success: both lists become the fetched list. The search
        term is kept, so a stale term shows the whole list until the next keystroke. */
    method Fetched(data: seq<Assignment>)
      requires Valid()
      modifies this`assignments, this`filteredAssignments
      ensures Valid()
      ensures assignments == data && filteredAssignments == data
      ensures Displayed() == data
    {
      assignments := data;
      filteredAssignments := data;
    }

    /** `fetchAssignments` on failure. */
    method FetchFailed()
      requires Valid()
      modifies this`error
      ensures Valid() && error == FetchFailedMessage
    {
      error := FetchFailedMessage;
    }

    /** `handleSearch`: the term is stored lower-cased and the filtered list recomputed. */
    method HandleSearch(value: string)
      requires Valid()
      modifies this`searchTerm, this`filteredAssignments
      ensures Valid()
      ensures searchTerm == ToLower(value)
      ensures filteredAssignments == Search(assignments, ToLower(value))
      ensures Displayed() == Search(assignments, ToLower(value))
    {
      var term := ToLower(value);
      searchTerm := term;
      filteredAssignments := Search(assignments, term);
      if term == "" {
        EmptyTermKeepsAll(assignments);
      }
    }

    /** `handleEdit`: the form takes the assignment's values and edit mode starts.
        `dayOf` stands for the date's ISO form cut at the `T`. */
    method Edit(a: Assignment, dayOf: string -> string)
      requires Valid()
      modifies this`editingAssignment, this`formData, this`isEditing
      ensures Valid()
      ensures editingAssignment == Some(a) && isEditing
      ensures formData == AssignmentForm(a.projectCode, a.taskCode, a.labourType, a.numberOfLabourers,
                                         dayOf(a.assignmentDate), a.siteName, a.supervisor)
    {
      editingAssignment := Some(a);
      formData := AssignmentForm(a.projectCode, a.taskCode, a.labourType, a.numberOfLabourers,
                                 dayOf(a.assignmentDate), a.siteName, a.supervisor);
      isEditing := true;
    }

    /** `handleSubmit`: in edit mode an update for the edited id is sent, otherwise a
        create; on success the form is reset and edit mode ends. (The refetch that
        follows is a separate call to Fetched.) */
    method Submit(outcome: Result<()>) returns (request: Request)
      requires Valid()
      modifies this`formData, this`isEditing, this`editingAssignment, this`error, this`success
      ensures Valid()
      ensures old(isEditing) ==> request == Update(old(editingAssignment).value.id, old(formData))
      ensures !old(isEditing) ==> request == Create(old(formData))
      ensures outcome.Ok? ==>
                && formData == EmptyForm && !isEditing && editingAssignment.None?
                && success == (if old(isEditing) then UpdatedMessage else CreatedMessage) && error == ""
      ensures outcome.Err? ==>
                && formData == old(formData) && isEditing == old(isEditing)
                && editingAssignment == old(editingAssignment)
                && error == MessageOr(outcome.serverMessage, SubmitFailedMessage) && success == ""
    {
      error := "";
      success := "";
      if isEditing {
        request := Update(editingAssignment.value.id, formData);
      } else {
        request := Create(formData);
      }
      match outcome
      case Ok(_) =>
        success := if isEditing then UpdatedMessage else CreatedMessage;
        formData := EmptyForm;
        isEditing := false;
        editingAssignment := None;
      case Err(serverMessage) =>
        error := MessageOr(serverMessage, SubmitFailedMessage);
    }

    /** `handleCancelEdit`: the same reset as after a successful submit. */
    method CancelEdit()
      requires Valid()
      modifies this`formData, this`isEditing, this`editingAssignment
      ensures Valid()
      ensures formData == EmptyForm && !isEditing && editingAssignment.None?
    {
      formData := EmptyForm;
      isEditing := false;
      editingAssignment := None;
    }
  }
}
