/**
 The appointment page's state and the handlers that change it: typing into a
 field, picking a date and time, ticking the consent box, submitting, and
 going back to an empty form. Each handler is a function from the state before
 to the state after; the two requests a submission sends are returned with the
 state, and their settled replies are inputs.
 */
module Form {

  import opened Optional
  import opened Text
  import opened Appointment
  import opened Validation
  import Schedule
  import Http

  /** What the change handler reads off the picker's `Date`: the UTC ISO text
      (`toISOString()`) and the local hour and minute. */
  datatype PickedDate = PickedDate(iso: string, hours: int, minutes: int)

  /** `getHours()` and `getMinutes()` never leave these ranges. */
  predicate ValidPick(d: PickedDate) {
    Schedule.ValidClock(d.hours, d.minutes)
  }

  /** The page's state (the address pop-up's visibility is presentation only and left out). */
  datatype FormState = FormState(
    data: FormData,
    selected: Option<PickedDate>,
    isSubmitted: bool,
    isLoading: bool,
    error: string,
    hasConsented: bool)

  /** The state on first render. */
  const Start: FormState := FormState(Initial, None, false, false, "", false)

  /** The form is on screen and its controls are enabled. */
  predicate Editing(s: FormState) {
    !s.isSubmitted && !s.isLoading
  }

  // ---------------------------------------------------------------------------
  // handleInputChange

  /** `handleInputChange`: the named field takes the new value and any error is cleared. */
  function InputChanged(s: FormState, name: FieldName, value: string): (s': FormState)
    ensures Get(s'.data, name) == value
    ensures forall m :: m != name ==> Get(s'.data, m) == Get(s.data, m)
    ensures s'.error == ""
    ensures s'.selected == s.selected && s'.isSubmitted == s.isSubmitted
    ensures s'.isLoading == s.isLoading && s'.hasConsented == s.hasConsented
  {
    s.(data := Set(s.data, name, value), error := "")
  }

  // ---------------------------------------------------------------------------
  // handleDateChange

  /** `` `${String(h).padStart(2, '0')}:${String(m).padStart(2, '0')}` `` */
  function TimeText(hours: int, minutes: int): (t: string)
    requires Schedule.ValidClock(hours, minutes)
    ensures |t| == 5 && t[2] == ':'
    ensures AllDigits(t[..2]) && AllDigits(t[3..])
    ensures ParseDecimal(t[..2]) == hours && ParseDecimal(t[3..]) == minutes
  {
    var hh := TwoDigits(hours);
    var mm := TwoDigits(minutes);
    ClockSlices(hh, mm);
    hh + ":" + mm
  }

  lemma ClockSlices(hh: string, mm: string)
    requires |hh| == 2 && |mm| == 2
    ensures var t := hh + ":" + mm; |t| == 5 && t[2] == ':' && t[..2] == hh && t[3..] == mm
  {
    var t := hh + ":" + mm;
    assert t[..2] == hh;
    assert t[3..] == mm;
  }

  /** `date.toISOString().split('T')[0]` */
  function DatePart(iso: string): string {
    BeforeFirst(iso, 'T')
  }

  /** `handleDateChange`: a picked date fills the date and `HH:MM` time fields, clearing the
      picker empties both; no other field changes and any error is cleared. */
  function DateChanged(s: FormState, d: Option<PickedDate>): (s': FormState)
    requires d.Some? ==> ValidPick(d.value)
    ensures s'.selected == d
    ensures d.None? ==> s'.data.appointmentDate == "" && s'.data.appointmentTime == ""
    ensures d.Some? ==>
              var time := s'.data.appointmentTime;
              && |time| == 5 && time[2] == ':' && AllDigits(time[..2]) && AllDigits(time[3..])
              && ParseDecimal(time[..2]) == d.value.hours
              && ParseDecimal(time[3..]) == d.value.minutes
    ensures d.Some? ==>
              var date := s'.data.appointmentDate;
              && |date| <= |d.value.iso| && date == d.value.iso[..|date|] && 'T' !in date
              && (|date| < |d.value.iso| ==> d.value.iso[|date|] == 'T')
    ensures forall n :: n != AppointmentDate && n != AppointmentTime ==> Get(s'.data, n) == Get(s.data, n)
    ensures s'.error == ""
    ensures s'.isSubmitted == s.isSubmitted && s'.isLoading == s.isLoading
    ensures s'.hasConsented == s.hasConsented
  {
    var data :=
      match d
      case Some(p) => s.data.(appointmentDate := DatePart(p.iso),
                              appointmentTime := TimeText(p.hours, p.minutes))
      case None => s.data.(appointmentDate := "", appointmentTime := "");
    s.(selected := d, data := data, error := "")
  }

  /** The consent checkbox's `onChange`. */
  function ConsentChanged(s: FormState, checked: bool): (s': FormState)
    ensures s'.hasConsented == checked
    ensures s'.data == s.data && s'.selected == s.selected && s'.error == s.error
    ensures s'.isSubmitted == s.isSubmitted && s'.isLoading == s.isLoading
  {
    s.(hasConsented := checked)
  }

  // ---------------------------------------------------------------------------
  // handleSubmit

  const NotifyPath: string := "/api/notify"
  const SheetPath: string := "/api/saveToSheet"

  /** The one message shown for every failed submission, whatever failed. */
  const GenericFailure: string := "เกิดข้อผิดพลาดในการลงทะเบียน กรุณาลองใหม่อีกครั้ง"

  /** A POST the page sends: the path and the form data it serialises as the body. */
  datatype Request = Request(path: string, body: FormData)

  /** How one of the two requests settled, as the page sees it: a response with a status,
      or a rejected promise. */
  datatype Reply = Responded(status: int) | Rejected

  predicate ReplyOk(r: Reply) {
    r.Responded? && Http.IsOk(r.status)
  }

  /** A state together with the requests issued on the way to it. */
  datatype Submission = Submission(state: FormState, requests: seq<Request>)

  /** Whether `handleSubmit` goes on to send anything: the form validates and consent is given. */
  predicate MaySend(s: FormState) {
    Validate(s.data) == Valid && s.hasConsented
  }

  /** The synchronous half of `handleSubmit`: validate, check consent, and either stop or
      start loading and send the same form data to both endpoints, the second without
      waiting for the first. */
  function BeginSubmit(s: FormState): (sub: Submission)
    ensures |sub.requests| == 0 || |sub.requests| == 2
    ensures sub.requests != [] <==> Validate(s.data) == Valid && s.hasConsented
    ensures sub.requests != [] ==>
              && sub.requests[0] == Request(NotifyPath, s.data)
              && sub.requests[1] == Request(SheetPath, s.data)
              && sub.state.isLoading && sub.state.error == ""
    ensures Validate(s.data).Invalid? ==> sub.state.error == Message(Validate(s.data).error)
    ensures Validate(s.data) == Valid && !s.hasConsented ==> sub.state == s
    ensures sub.state.data == s.data && sub.state.selected == s.selected
    ensures sub.state.hasConsented == s.hasConsented && sub.state.isSubmitted == s.isSubmitted
  {
    match Validate(s.data)
    case Invalid(e) => Submission(s.(error := Message(e)), [])
    case Valid =>
      if !s.hasConsented then Submission(s, [])
      else Submission(s.(isLoading := true, error := ""),
                      [Request(NotifyPath, s.data), Request(SheetPath, s.data)])
  }

  /** The asynchronous half of `handleSubmit`, once both requests have answered, or either
      has been rejected: success only when both responses are ok, the single generic message
      otherwise, and loading over either way. The form data is kept in both cases. */
  function Settle(s: FormState, notify: Reply, sheet: Reply): (s': FormState)
    ensures !s'.isLoading
    ensures ReplyOk(notify) && ReplyOk(sheet) ==> s'.isSubmitted && s'.error == s.error
    ensures !(ReplyOk(notify) && ReplyOk(sheet)) ==>
              s'.isSubmitted == s.isSubmitted && s'.error == GenericFailure
    ensures s'.data == s.data && s'.selected == s.selected && s'.hasConsented == s.hasConsented
  {
    var s1 :=
      if notify.Rejected? || sheet.Rejected? then s.(error := GenericFailure)
      else if !Http.IsOk(notify.status) || !Http.IsOk(sheet.status) then s.(error := GenericFailure)
      else s.(isSubmitted := true);
    s1.(isLoading := false)
  }

  /** `handleSubmit` from start to finish, given how the two requests would settle. */
  function Submit(s: FormState, notify: Reply, sheet: Reply): (sub: Submission)
    ensures sub.state.data == s.data
    ensures sub.requests != [] <==> MaySend(s)
    ensures MaySend(s) ==> !sub.state.isLoading
    ensures !MaySend(s) ==> sub.state.isSubmitted == s.isSubmitted && sub.state.isLoading == s.isLoading
  {
    var begun := BeginSubmit(s);
    if begun.requests == [] then begun
    else Submission(Settle(begun.state, notify, sheet), begun.requests)
  }

  /** From the editing form, a submission succeeds exactly when it is allowed to send and both
      replies are ok; a success leaves no error, a failure leaves exactly the generic one. */
  lemma SubmitOutcome(s: FormState, notify: Reply, sheet: Reply)
    requires Editing(s)
    ensures Submit(s, notify, sheet).state.isSubmitted <==> MaySend(s) && ReplyOk(notify) && ReplyOk(sheet)
    ensures MaySend(s) && ReplyOk(notify) && ReplyOk(sheet) ==> Submit(s, notify, sheet).state.error == ""
    ensures MaySend(s) && !(ReplyOk(notify) && ReplyOk(sheet)) ==>
              Submit(s, notify, sheet).state.error == GenericFailure
  {
  }

  /** An invalid form sends nothing and shows the first failing rule's message. */
  lemma InvalidFormSendsNothing(s: FormState, notify: Reply, sheet: Reply)
    requires Validate(s.data).Invalid?
    ensures Submit(s, notify, sheet).requests == []
    ensures Submit(s, notify, sheet).state == s.(error := Message(Validate(s.data).error))
  {
  }

  /** Without consent nothing is sent and nothing changes. */
  lemma NoConsentChangesNothing(s: FormState, notify: Reply, sheet: Reply)
    requires !s.hasConsented && Validate(s.data) == Valid
    ensures Submit(s, notify, sheet) == Submission(s, [])
  {
  }

  // ---------------------------------------------------------------------------
  // handleResetAndGoBack

  /** `handleResetAndGoBack`: back to the empty form with no date and no consent. The error
      and loading flags are not touched. */
  function Reset(s: FormState): (s': FormState)
    ensures forall n :: Get(s'.data, n) == ""
    ensures s'.selected == None && !s'.hasConsented && !s'.isSubmitted
    ensures s'.error == s.error && s'.isLoading == s.isLoading
  {
    s.(isSubmitted := false, data := Initial, selected := None, hasConsented := false)
  }

  /** Reset forgets everything the user entered: two states that agree on the error and
      loading flags reset to the same state, and resetting the start state changes nothing. */
  lemma ResetForgets(s: FormState, t: FormState)
    requires s.error == t.error && s.isLoading == t.isLoading
    ensures Reset(s) == Reset(t)
    ensures Reset(Start) == Start
  {
  }

  /** A freshly reset form cannot be submitted: every required field is empty. */
  lemma ResetFormDoesNotValidate(s: FormState)
    ensures Validate(Reset(s).data) == Invalid(MissingRequired)
  {
    assert AllWhitespace(Reset(s).data.firstName);
  }

  // ---------------------------------------------------------------------------
  // What the validator does not check

  /** Choosing another service keeps the time picked under the old service's window. */
  lemma ServiceChangeKeepsTime(s: FormState, service: string)
    ensures InputChanged(s, Service, service).data.appointmentTime == s.data.appointmentTime
    ensures InputChanged(s, Service, service).selected == s.selected
  {
  }

  /** The validator only asks that the time field have content: a form that validates still
      validates with any other non-blank time, inside the service's window or not. */
  lemma ValidationIgnoresSlotWindow(f: FormData, time: string)
    requires !AllWhitespace(time)
    ensures Validate(f) == Valid ==> Validate(f.(appointmentTime := time)) == Valid
  {
  }

  /** So a form can validate with a time the picker would never offer for its service. */
  lemma OutOfWindowTimeValidates()
    ensures var f := FormData("Somchai", "Jaidee", "081-234-5678", "1103702345678",
                              "2025-01-08", "09:00", Schedule.ChildDevelopment, "");
            Validate(f) == Valid && !Schedule.TimeAllowed(9, 0, f.service)
  {
    var f := FormData("Somchai", "Jaidee", "081-234-5678", "1103702345678",
                      "2025-01-08", "09:00", Schedule.ChildDevelopment, "");
    assert !AllWhitespace(f.firstName) by { assert !IsWhitespace(f.firstName[0]); }
    assert !AllWhitespace(f.lastName) by { assert !IsWhitespace(f.lastName[0]); }
    assert !AllWhitespace(f.phone) by { assert !IsWhitespace(f.phone[0]); }
    assert !AllWhitespace(f.nationalId) by { assert !IsWhitespace(f.nationalId[0]); }
    assert !AllWhitespace(f.appointmentDate) by { assert !IsWhitespace(f.appointmentDate[0]); }
    assert !AllWhitespace(f.appointmentTime) by { assert !IsWhitespace(f.appointmentTime[0]); }
    assert !AllWhitespace(f.service) by { assert !IsWhitespace(f.service[0]); }
    HyphenatedPhonePasses();
    ThirteenDigitIdPasses();
  }

}
