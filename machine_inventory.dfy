/** The equipment inventory screen (frontend/src/pages/machineInventory.jsx): the
    status and text filter, removal by id, and the edit dialog whose update is
    guarded by the date rules. */
module MachineInventory {
  import opened Common
  import opened Text
  import opened Lists
  import opened EquipmentDates

  /** An equipment record as the server returns it. */
  datatype Machine = Machine(
    id: string, name: string, status: string, location: Option<string>,
    purchaseDate: Option<int>, lastMaintenanceDate: Option<int>,
    rentalStart: Option<int>, rentalEnd: Option<int>)

  const AllStatuses: string := "All"

  /** The date rules of `handleUpdateMachine`: a rented machine needs a valid rental
      period; any other machine is checked only when both its purchase and its
      maintenance date are set. */
  predicate UpdateDatesOk(m: Machine)
  {
    if m.status == "Rented" then ValidateDates(m.rentalStart, m.rentalEnd)
    else if m.lastMaintenanceDate.Some? && m.purchaseDate.Some? then
      ValidateDates(m.purchaseDate, m.lastMaintenanceDate)
    else true
  }

  /** A rented machine is rejected exactly when its rental period fails `validateDates`;
      any other machine exactly when both dates are present and maintenance is not
      strictly after purchase (the inner guard of the source is the rule's own). */
  lemma UpdateDatesRule(m: Machine)
    ensures m.status == "Rented" ==> (UpdateDatesOk(m) <==> ValidateDates(m.rentalStart, m.rentalEnd))
    ensures m.status != "Rented" ==>
      (!UpdateDatesOk(m) <==> m.purchaseDate.Some? && m.lastMaintenanceDate.Some?
                              && m.lastMaintenanceDate.value <= m.purchaseDate.value)
    ensures m.status != "Rented" ==> (UpdateDatesOk(m) <==> ValidateDates(m.purchaseDate, m.lastMaintenanceDate))
  {
  }

  /** The filter callback of `filteredMachines`: the status filter first, then the
      lower-cased query against the lower-cased name or, when set, location. */
  predicate Shown(m: Machine, filter: string, query: string)
  {
    if filter != AllStatuses && m.status != filter then false
    else
      var q := ToLower(query);
      Contains(ToLower(m.name), q) || (m.location.Some? && Contains(ToLower(m.location.value), q))
  }

  function ShownBy(filter: string, query: string): Machine -> bool
  {
    (m: Machine) => Shown(m, filter, query)
  }

  /** `filteredMachines`. */
  function FilteredMachines(machines: seq<Machine>, filter: string, query: string): seq<Machine>
  {
    Filter(machines, ShownBy(filter, query))
  }

  /** A machine is listed exactly when its status passes the filter (`All` passes
      every status) and the query occurs in its name or location. */
  lemma FilteredMachinesMembership(machines: seq<Machine>, filter: string, query: string, m: Machine)
    ensures m in FilteredMachines(machines, filter, query) <==>
      && m in machines
      && (filter == AllStatuses || m.status == filter)
      && (Contains(ToLower(m.name), ToLower(query))
          || (m.location.Some? && Contains(ToLower(m.location.value), ToLower(query))))
  {
    FilterMembership(machines, ShownBy(filter, query), m);
  }

  /** With filter `All` and an empty query every machine is listed, in order. */
  lemma NoFilterShowsAll(machines: seq<Machine>)
    ensures FilteredMachines(machines, AllStatuses, "") == machines
  {
    forall i | 0 <= i < |machines| ensures Shown(machines[i], AllStatuses, "") {
      ContainsEmpty(ToLower(machines[i].name));
    }
    FilterKeepsAll(machines, ShownBy(AllStatuses, ""));
  }

  /** An empty query leaves only the status filter. */
  lemma EmptyQueryFiltersStatusOnly(machines: seq<Machine>, filter: string)
    ensures FilteredMachines(machines, filter, "")
         == Filter(machines, (m: Machine) => filter == AllStatuses || m.status == filter)
  {
    forall i | 0 <= i < |machines|
      ensures Shown(machines[i], filter, "") == (filter == AllStatuses || machines[i].status == filter)
    {
      ContainsEmpty(ToLower(machines[i].name));
    }
    FilterSamePredicate(machines, ShownBy(filter, ""),
      (m: Machine) => filter == AllStatuses || m.status == filter);
  }

  function HasOtherId(id: string): Machine -> bool
  {
    (m: Machine) => m.id != id
  }

  /** `machines.filter(machine => machine._id !== id)`. */
  function RemoveById(machines: seq<Machine>, id: string): seq<Machine>
  {
    Filter(machines, HasOtherId(id))
  }

  /** Removal deletes every machine with the id and keeps the others in their order. */
  lemma RemoveByIdSpec(machines: seq<Machine>, id: string, m: Machine)
    ensures IsSubsequence(RemoveById(machines, id), machines)
    ensures m in RemoveById(machines, id) <==> m in machines && m.id != id
  {
    FilterIsSubsequence(machines, HasOtherId(id));
    FilterMembership(machines, HasOtherId(id), m);
  }

  /** Removing an id that no machine has changes nothing. */
  lemma RemoveAbsentId(machines: seq<Machine>, id: string)
    requires forall i :: 0 <= i < |machines| ==> machines[i].id != id
    ensures RemoveById(machines, id) == machines
  {
    FilterKeepsAll(machines, HasOtherId(id));
  }

  function ReplaceWith(id: string, response: Machine): Machine -> Machine
  {
    (m: Machine) => if m.id == id then response else m
  }

  /** `machines.map(machine => machine._id === id ? response : machine)`. */
  function ReplaceById(machines: seq<Machine>, id: string, response: Machine): seq<Machine>
  {
    Map(machines, ReplaceWith(id, response))
  }

  /** The update keeps length and order: each entry with the id becomes the response,
      every other entry is unchanged. */
  lemma ReplaceByIdSpec(machines: seq<Machine>, id: string, response: Machine, i: int)
    requires 0 <= i < |machines|
    ensures |ReplaceById(machines, id, response)| == |machines|
    ensures machines[i].id == id ==> ReplaceById(machines, id, response)[i] == response
    ensures machines[i].id != id ==> ReplaceById(machines, id, response)[i] == machines[i]
  {
  }

  /** When the response keeps the id, the rest of the list is what it was before:
      removing that id from the updated list gives the old list without it. */
  lemma {:induction false} ReplaceThenRemove(machines: seq<Machine>, id: string, response: Machine)
    requires response.id == id
    ensures RemoveById(ReplaceById(machines, id, response), id) == RemoveById(machines, id)
  {
    if machines != [] {
      ReplaceThenRemove(machines[1..], id, response);
      var f := ReplaceWith(id, response);
      assert Map(machines, f) == [f(machines[0])] + Map(machines[1..], f);
      FilterCons(f(machines[0]), Map(machines[1..], f), HasOtherId(id));
    }
  }

  const RemovedMessage: string := "Equipment removed successfully!"
  const RemoveFailedMessage: string := "Failed to remove equipment. Please try again."
  const RentalDatesMessage: string := "Rental end date must be after the start date"
  const MaintenanceDatesMessage: string := "Maintenance date cannot be before purchase date"
  const UpdatedMessage: string := "Equipment updated successfully!"
  const UpdateFailedMessage: string := "Failed to update equipment"
  const LoadFailedMessage: string := "Failed to load equipment. Please refresh the page."

  /** The screen's state. */
  class InventoryScreen {
    var machines: seq<Machine>
    var filter: string
    var searchQuery: string
    var editing: Option<Machine>
    var showEditModal: bool
    var errorMessage: string
    var successMessage: string

    constructor ()
      ensures machines == [] && filter == AllStatuses && searchQuery == ""
      ensures editing.None? && !showEditModal && errorMessage == "" && successMessage == ""
    {
      machines := [];
      filter := AllStatuses;
      searchQuery := "";
      editing := None;
      showEditModal := false;
      errorMessage := "";
      successMessage := "";
    }

    /** The equipment list loaded from the server. */
    method Loaded(data: seq<Machine>)
      modifies this`machines
      ensures machines == data
    {
      machines := data;
    }

    /** A failed load sets the fixed load error. */
    method LoadFailed()
      modifies this`errorMessage
      ensures errorMessage == LoadFailedMessage
    {
      errorMessage := LoadFailedMessage;
    }

    method SetFilter(status: string)
      modifies this`filter
      ensures filter == status
      ensures Listed() == FilteredMachines(machines, status, searchQuery)
    {
      filter := status;
    }

    method SetSearchQuery(query: string)
      modifies this`searchQuery
      ensures searchQuery == query
      ensures Listed() == FilteredMachines(machines, filter, query)
    {
      searchQuery := query;
    }

    /** The rows shown. */
    function Listed(): seq<Machine>
      reads this
    {
      FilteredMachines(machines, filter, searchQuery)
    }

    /** `handleRemoveMachine`: nothing happens unless confirmed; a successful delete
        on the server removes the id from the list. */
    method RemoveMachine(id: string, confirmed: bool, deleted: bool)
      modifies this`machines, this`successMessage, this`errorMessage
      ensures confirmed && deleted ==> machines == RemoveById(old(machines), id)
                                       && successMessage == RemovedMessage
                                       && errorMessage == old(errorMessage)
      ensures confirmed && !deleted ==> machines == old(machines) && errorMessage == RemoveFailedMessage
                                        && successMessage == old(successMessage)
      ensures !confirmed ==> machines == old(machines) && errorMessage == old(errorMessage)
                             && successMessage == old(successMessage)
    {
      if confirmed {
        if deleted {
          machines := RemoveById(machines, id);
          successMessage := RemovedMessage;
        } else {
          errorMessage := RemoveFailedMessage;
        }
      }
    }

    /** `handleEdit`: opens the dialog on a copy of the machine. */
    method Edit(m: Machine)
      modifies this`editing, this`showEditModal
      ensures editing == Some(m) && showEditModal
    {
      editing := Some(m);
      showEditModal := true;
    }

    /** `handleUpdateMachine`: the date rules decide whether the update is sent;
        the server's stored record then replaces every entry with the edited id. */
    method UpdateMachine(response: Result<Machine>) returns (sent: bool)
      requires editing.Some?
      modifies this`machines, this`editing, this`showEditModal, this`errorMessage, this`successMessage
      ensures sent <==> UpdateDatesOk(old(editing).value)
      ensures !sent ==>
                && machines == old(machines) && editing == old(editing) && showEditModal == old(showEditModal)
                && successMessage == old(successMessage)
                && errorMessage == (if old(editing).value.status == "Rented"
                                    then RentalDatesMessage else MaintenanceDatesMessage)
      ensures sent && response.Ok? ==>
                && machines == ReplaceById(old(machines), old(editing).value.id, response.value)
                && editing.None? && !showEditModal && successMessage == UpdatedMessage
                && errorMessage == old(errorMessage)
      ensures sent && response.Err? ==>
                && machines == old(machines) && editing == old(editing) && showEditModal == old(showEditModal)
                && errorMessage == MessageOr(response.serverMessage, UpdateFailedMessage)
                && successMessage == old(successMessage)
    {
      var m := editing.value;
      if m.status == "Rented" {
        if !ValidateDates(m.rentalStart, m.rentalEnd) {
          errorMessage := RentalDatesMessage;
          return false;
        }
      } else {
        if m.lastMaintenanceDate.Some? && m.purchaseDate.Some? {
          if !ValidateDates(m.purchaseDate, m.lastMaintenanceDate) {
            errorMessage := MaintenanceDatesMessage;
            return false;
          }
        }
      }
      sent := true;
      match response
      case Ok(stored) =>
        machines := ReplaceById(machines, m.id, stored);
        successMessage := UpdatedMessage;
        showEditModal := false;
        editing := None;
      case Err(serverMessage) =>
        errorMessage := MessageOr(serverMessage, UpdateFailedMessage);
    }
  }
}
