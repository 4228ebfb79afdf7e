/**
 What the two route handlers see of HTTP and JSON: the `ok` test on a status
 code, a request body that either failed to parse or is an object whose
 properties may be absent, and JavaScript's string conversions of such a
 property.
 */
module Http {

  import opened Appointment
  import Optional

  /** `Response.ok`: the status is in the 200-299 range. */
  predicate IsOk(status: int) {
    200 <= status <= 299
  }

  /** A property read off a parsed JSON object or off `process.env`: absent (`undefined`),
      or a string. */
  datatype Field = Missing | Present(s: string)

  /** JavaScript truthiness of such a property: a non-empty string. */
  predicate Truthy(v: Field) {
    v.Present? && v.s != ""
  }

  /** Truthiness in terms of the two falsy values a property can take. */
  lemma TruthyIff(v: Field)
    ensures Truthy(v) <==> v != Missing && v != Present("")
  {
  }

  /** `String(v)`, which is also what a template literal `${v}` produces. */
  function Str(v: Field): (r: string)
    ensures v.Present? ==> r == v.s
    ensures v.Missing? ==> r == "undefined"
  {
    match v
    case Missing => "undefined"
    case Present(s) => s
  }

  /** `v || '-'`: the string itself when it is non-empty, a dash otherwise. */
  function OrDash(v: Field): (r: string)
    ensures r != ""
    ensures Truthy(v) ==> r == v.s
    ensures !Truthy(v) ==> r == "-"
  {
    if Truthy(v) then v.s else "-"
  }

  /** The appointment object a handler reads from `await request.json()`. */
  datatype Payload = Payload(
    firstName: Field,
    lastName: Field,
    phone: Field,
    nationalId: Field,
    appointmentDate: Field,
    appointmentTime: Field,
    service: Field,
    notes: Field)

  /** The request body: it failed to parse (the thrown error's message), or it is an object. */
  datatype RequestBody = Malformed(error: string) | Json(payload: Payload)

  /** The form's data as it arrives at a handler after `JSON.stringify` on the client and
      `request.json()` on the server: every property present, with the form's string. */
  function Encode(f: FormData): (p: Payload)
    ensures Str(p.firstName) == f.firstName && Str(p.lastName) == f.lastName
    ensures Str(p.phone) == f.phone && Str(p.nationalId) == f.nationalId
    ensures Str(p.appointmentDate) == f.appointmentDate && Str(p.appointmentTime) == f.appointmentTime
    ensures Str(p.service) == f.service && Str(p.notes) == f.notes
  {
    Payload(Present(f.firstName), Present(f.lastName), Present(f.phone), Present(f.nationalId),
            Present(f.appointmentDate), Present(f.appointmentTime), Present(f.service), Present(f.notes))
  }

  /** The inverse of `Encode`: a payload whose every property is present reads back as form data. */
  function Decode(p: Payload): (r: Optional.Option<FormData>)
    ensures r.Some? <==> (p.firstName.Present? && p.lastName.Present? && p.phone.Present? && p.nationalId.Present?
                          && p.appointmentDate.Present? && p.appointmentTime.Present? && p.service.Present?
                          && p.notes.Present?)
  {
    if p.firstName.Present? && p.lastName.Present? && p.phone.Present? && p.nationalId.Present?
       && p.appointmentDate.Present? && p.appointmentTime.Present? && p.service.Present? && p.notes.Present?
    then Optional.Some(FormData(p.firstName.s, p.lastName.s, p.phone.s, p.nationalId.s,
                                p.appointmentDate.s, p.appointmentTime.s, p.service.s, p.notes.s))
    else Optional.None
  }

  /** Nothing is lost between the form and a handler. */
  lemma EncodeDecode(f: FormData)
    ensures Decode(Encode(f)) == Optional.Some(f)
  {
  }

}
