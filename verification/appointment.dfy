/**
 The appointment request as the form keeps it: eight text fields, addressed
 by name the way the form's change handler addresses them.
 */
module Appointment {

  datatype FormData = FormData(
    firstName: string,
    lastName: string,
    phone: string,
    nationalId: string,
    appointmentDate: string,
    appointmentTime: string,
    service: string,
    notes: string)

  /** The `name` attribute of each form control. */
  datatype FieldName =
    | FirstName | LastName | Phone | NationalId
    | AppointmentDate | AppointmentTime | Service | Notes

  /** `formData[name]` */
  function Get(f: FormData, n: FieldName): string {
    match n
    case FirstName => f.firstName
    case LastName => f.lastName
    case Phone => f.phone
    case NationalId => f.nationalId
    case AppointmentDate => f.appointmentDate
    case AppointmentTime => f.appointmentTime
    case Service => f.service
    case Notes => f.notes
  }

  /** `{ ...f, [name]: value }`: the named field takes the new value, every other field keeps its own. */
  function Set(f: FormData, n: FieldName, value: string): (g: FormData)
    ensures Get(g, n) == value
    ensures forall m :: m != n ==> Get(g, m) == Get(f, m)
  {
    match n
    case FirstName => f.(firstName := value)
    case LastName => f.(lastName := value)
    case Phone => f.(phone := value)
    case NationalId => f.(nationalId := value)
    case AppointmentDate => f.(appointmentDate := value)
    case AppointmentTime => f.(appointmentTime := value)
    case Service => f.(service := value)
    case Notes => f.(notes := value)
  }

  /** `initialFormData`: every field empty. */
  const Initial: FormData := FormData("", "", "", "", "", "", "", "")

  /** The fields the validator insists on, in the order it checks them; `notes` is not among them. */
  const RequiredFields: seq<FieldName> :=
    [FirstName, LastName, Phone, NationalId, AppointmentDate, AppointmentTime, Service]

  lemma InitialIsEmpty(n: FieldName)
    ensures Get(Initial, n) == ""
  {
  }

  lemma RequiredFieldsAreAllButNotes(n: FieldName)
    ensures n in RequiredFields <==> n != Notes
  {
  }

}
