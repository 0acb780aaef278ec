/** The add-equipment form (frontend/src/pages/addMachineForm.jsx): field edits,
    the owned/rented mode buttons, the date checks and the payload posted. */
module AddMachineForm {
  import opened Common
  import opened EquipmentDates

  /** The form state. Date inputs hold a day or are empty (None). */
  datatype MachineForm = MachineForm(
    name: string, machineType: string, manufacturer: string, serialNumber: string,
    status: string, condition: string, location: string, notes: string,
    purchaseDate: Option<int>, lastMaintenanceDate: Option<int>,
    rentalStart: Option<int>, rentalEnd: Option<int>,
    vendorName: string, vendorContact: string, rentalCost: string)

  const InitialForm: MachineForm := MachineForm(
    "", "", "", "", "Stocked", "Good", "", "",
    None, None, None, None, "", "", "")

  /** The text inputs of the form. */
  datatype TextField = Name | MachineType | Manufacturer | SerialNumber | Status | Condition
                     | Location | Notes | VendorName | VendorContact | RentalCost

  /** The date inputs of the form. */
  datatype DateField = PurchaseDate | LastMaintenanceDate | RentalStart | RentalEnd

  function TextOf(f: MachineForm, k: TextField): string
  {
    match k
    case Name => f.name
    case MachineType => f.machineType
    case Manufacturer => f.manufacturer
    case SerialNumber => f.serialNumber
    case Status => f.status
    case Condition => f.condition
    case Location => f.location
    case Notes => f.notes
    case VendorName => f.vendorName
    case VendorContact => f.vendorContact
    case RentalCost => f.rentalCost
  }

  function DateOf(f: MachineForm, k: DateField): Option<int>
  {
    match k
    case PurchaseDate => f.purchaseDate
    case LastMaintenanceDate => f.lastMaintenanceDate
    case RentalStart => f.rentalStart
    case RentalEnd => f.rentalEnd
  }

  /** `{ ...newMachine, [name]: value }` for a text input. */
  function WithText(f: MachineForm, k: TextField, v: string): (g: MachineForm)
    ensures forall j :: TextOf(g, j) == if j == k then v else TextOf(f, j)
    ensures forall d :: DateOf(g, d) == DateOf(f, d)
  {
    match k
    case Name => f.(name := v)
    case MachineType => f.(machineType := v)
    case Manufacturer => f.(manufacturer := v)
    case SerialNumber => f.(serialNumber := v)
    case Status => f.(status := v)
    case Condition => f.(condition := v)
    case Location => f.(location := v)
    case Notes => f.(notes := v)
    case VendorName => f.(vendorName := v)
    case VendorContact => f.(vendorContact := v)
    case RentalCost => f.(rentalCost := v)
  }

  /** `{ ...newMachine, [name]: value }` for a date input. */
  function WithDate(f: MachineForm, k: DateField, v: Option<int>): (g: MachineForm)
    ensures forall j :: DateOf(g, j) == if j == k then v else DateOf(f, j)
    ensures forall t :: TextOf(g, t) == TextOf(f, t)
  {
    match k
    case PurchaseDate => f.(purchaseDate := v)
    case LastMaintenanceDate => f.(lastMaintenanceDate := v)
    case RentalStart => f.(rentalStart := v)
    case RentalEnd => f.(rentalEnd := v)
  }

  /** The date checks of `handleAddMachine`: rented mode checks the rental period;
      owned mode checks purchase against maintenance when both are set. */
  predicate Rejected(f: MachineForm, isRented: bool)
  {
    if isRented then !ValidateDates(f.rentalStart, f.rentalEnd)
    else f.lastMaintenanceDate.Some? && f.purchaseDate.Some?
         && !ValidateDates(f.purchaseDate, f.lastMaintenanceDate)
  }

  /** Rented mode rejects exactly when both rental dates are set and end is not after
      start; owned mode exactly when both dates are set and maintenance is not after
      purchase. The other mode's dates play no part. */
  lemma RejectedIff(f: MachineForm, isRented: bool)
    ensures isRented ==> (Rejected(f, isRented) <==>
      f.rentalStart.Some? && f.rentalEnd.Some? && f.rentalEnd.value <= f.rentalStart.value)
    ensures !isRented ==> (Rejected(f, isRented) <==>
      f.purchaseDate.Some? && f.lastMaintenanceDate.Some?
      && f.lastMaintenanceDate.value <= f.purchaseDate.value)
  {
  }

  /** The posted record: the form with the status the mode dictates; each date is
      null when its input is empty and the same day otherwise. */
  function Payload(f: MachineForm, isRented: bool): (p: MachineForm)
    ensures p.status == (if isRented then "Rented" else "Stocked")
    ensures forall d :: DateOf(p, d) == DateOf(f, d)
    ensures forall t :: t != Status ==> TextOf(p, t) == TextOf(f, t)
  {
    f.(status := if isRented then "Rented" else "Stocked")
  }

  /** The posted status ignores what the form's status field held. */
  lemma PayloadStatusFromMode(f: MachineForm, g: MachineForm, isRented: bool)
    requires forall t :: t != Status ==> TextOf(f, t) == TextOf(g, t)
    requires forall d :: DateOf(f, d) == DateOf(g, d)
    ensures Payload(f, isRented) == Payload(g, isRented)
  {
    assert TextOf(f, Name) == TextOf(g, Name) && TextOf(f, MachineType) == TextOf(g, MachineType);
    assert TextOf(f, Manufacturer) == TextOf(g, Manufacturer) && TextOf(f, SerialNumber) == TextOf(g, SerialNumber);
    assert TextOf(f, Condition) == TextOf(g, Condition) && TextOf(f, Location) == TextOf(g, Location);
    assert TextOf(f, Notes) == TextOf(g, Notes) && TextOf(f, VendorName) == TextOf(g, VendorName);
    assert TextOf(f, VendorContact) == TextOf(g, VendorContact) && TextOf(f, RentalCost) == TextOf(g, RentalCost);
    assert DateOf(f, PurchaseDate) == DateOf(g, PurchaseDate);
    assert DateOf(f, LastMaintenanceDate) == DateOf(g, LastMaintenanceDate);
    assert DateOf(f, RentalStart) == DateOf(g, RentalStart) && DateOf(f, RentalEnd) == DateOf(g, RentalEnd);
  }

  const RentalDatesMessage: string := "Rental end date must be after the start date"
  const MaintenanceDatesMessage: string := "Maintenance date cannot be before purchase date"
  const AddedMessage: string := "Equipment added successfully!"
  const AddFailedMessage: string := "Failed to add equipment. Please try again."

  /** The form's state. */
  class AddMachineScreen {
    var isRentedForm: bool
    var newMachine: MachineForm
    var errorMessage: string
    var successMessage: string

    constructor ()
      ensures !isRentedForm && newMachine == InitialForm && errorMessage == "" && successMessage == ""
    {
      isRentedForm := false;
      newMachine := InitialForm;
      errorMessage := "";
      successMessage := "";
    }

    /** `handleInputChange` on a text input: only the named field changes. */
    method SetText(k: TextField, v: string)
      modifies this`newMachine
      ensures forall j :: TextOf(newMachine, j) == if j == k then v else TextOf(old(newMachine), j)
      ensures forall d :: DateOf(newMachine, d) == DateOf(old(newMachine), d)
    {
      newMachine := WithText(newMachine, k, v);
    }

    /** `handleInputChange` on a date input: only the named field changes. */
    method SetDate(k: DateField, v: Option<int>)
      modifies this`newMachine
      ensures forall j :: DateOf(newMachine, j) == if j == k then v else DateOf(old(newMachine), j)
      ensures forall t :: TextOf(newMachine, t) == TextOf(old(newMachine), t)
    {
      newMachine := WithDate(newMachine, k, v);
    }

    /** The "Company Owned" button. */
    method SelectOwned()
      modifies this`isRentedForm, this`newMachine
      ensures !isRentedForm && newMachine == old(newMachine).(status := "Stocked")
    {
      isRentedForm := false;
      newMachine := newMachine.(status := "Stocked");
    }

    /** The "Rental Equipment" button. */
    method SelectRented()
      modifies this`isRentedForm, this`newMachine
      ensures isRentedForm && newMachine == old(newMachine).(status := "Rented")
    {
      isRentedForm := true;
      newMachine := newMachine.(status := "Rented");
    }

    /** `handleAddMachine`: a rejected form posts nothing; otherwise the payload is
        posted and `posted` says whether the server accepted it. */
    method AddMachine(posted: bool) returns (payload: Option<MachineForm>)
      modifies this`errorMessage, this`successMessage
      ensures payload.None? <==> Rejected(newMachine, isRentedForm)
      ensures payload.Some? ==> payload.value == Payload(newMachine, isRentedForm)
      ensures payload.None? ==>
                && successMessage == old(successMessage)
                && errorMessage == (if isRentedForm then RentalDatesMessage else MaintenanceDatesMessage)
      ensures payload.Some? && posted ==> successMessage == AddedMessage && errorMessage == old(errorMessage)
      ensures payload.Some? && !posted ==> errorMessage == AddFailedMessage && successMessage == old(successMessage)
    {
      if isRentedForm {
        if !ValidateDates(newMachine.rentalStart, newMachine.rentalEnd) {
          errorMessage := RentalDatesMessage;
          return None;
        }
      } else {
        if newMachine.lastMaintenanceDate.Some? && newMachine.purchaseDate.Some? {
          if !ValidateDates(newMachine.purchaseDate, newMachine.lastMaintenanceDate) {
            errorMessage := MaintenanceDatesMessage;
            return None;
          }
        }
      }
      payload := Some(Payload(newMachine, isRentedForm));
      if posted {
        successMessage := AddedMessage;
      } else {
        errorMessage := AddFailedMessage;
      }
    }
  }
}
