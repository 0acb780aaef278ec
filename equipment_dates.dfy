/** The date rule shared by the equipment screens (`validateDates` in
    frontend/src/pages/machineInventory.jsx and frontend/src/pages/addMachineForm.jsx).
    Dates are day numbers; an empty date field is None. */
module EquipmentDates {
  import opened Common

  /** `validateDates(start, end)`: a missing date passes, otherwise start must be
      strictly earlier than end. */
  predicate ValidateDates(start: Option<int>, end: Option<int>)
  {
    if start.None? || end.None? then true else start.value < end.value
  }

  /** Missing either date always passes; with both present the rule is strict order,
      so equal dates fail. */
  lemma ValidateDatesSpec(start: Option<int>, end: Option<int>)
    ensures (start.None? || end.None?) ==> ValidateDates(start, end)
    ensures start.Some? && end.Some? ==> (ValidateDates(start, end) <==> start.value < end.value)
    ensures forall d :: !ValidateDates(Some(d), Some(d))
  {
  }

  /** The rule fails exactly when both dates are present and end is not after start. */
  lemma ValidateDatesFailsIff(start: Option<int>, end: Option<int>)
    ensures !ValidateDates(start, end) <==> start.Some? && end.Some? && end.value <= start.value
  {
  }
}
