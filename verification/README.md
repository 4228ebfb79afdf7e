# Pregnancy appointment registration: the form's decision logic and its two routes

This project models the appointment registration page of a maternal and child health
clinic, and the two server routes it posts to.

The page keeps eight text fields. It validates them: seven fields are required, the
phone number must hold 9 or 10 digits, and the national ID must hold 13 digits. Hyphens
and whitespace are ignored in both numbers. The user must also tick a consent box.
When both conditions hold, the page posts the same form data to two routes at once:

- `/api/notify` builds a flex message and pushes it to a messaging group.
- `/api/saveToSheet` forwards the data to a spreadsheet script.

The page shows its success view only when both responses are ok. Otherwise it shows
one generic error and keeps the data. The date-time picker offers weekdays only, in
30-minute steps, inside a window that depends on the service: 13:00-15:30 for child
development and 09:00-11:30 for everything else.

Modules, in dependency order:

- `Optional` is the option type.
- `Text` covers what the validator and the date handler do to strings:
  - JavaScript's whitespace set, as one fixed list;
  - ASCII digits;
  - `trim()`;
  - `replace(/[-\s]/g, '')`;
  - `String(n)`;
  - `padStart`;
  - `split(sep)[0]`.
- `Appointment` holds the form's record, the field names, `{ ...f, [name]: value }` and `initialFormData`.
- `Validation` models `validateForm`. Its verdict is characterised without reference to
  trimming or regular expressions.
- `Schedule` is the picker's slot policy, as an admissibility predicate over weekday,
  hour, minute and service.
- `Http` holds the route-side view of the request body: a parse failure, or an object
  whose properties are absent or strings. It also holds `Response.ok` and JavaScript's
  `String(v)` and `v || '-'`.
- `Form` is the page's state and its handlers, written as functions from state to state.
  The two fetches are abstract replies.
- `Notify` and `SaveToSheet` are the two routes' `POST` handlers. Their upstream services
  are abstract replies.
- `EndToEnd` composes the page's submit with both routes. It proves exactly what must go
  right for the page to report success.

Each handler in the model takes the outside world as parameters:

- the server clock's text;
- the picked date's ISO text, hour and minute;
- each upstream service's reply;
- whether each page request arrived.

A successful submit keeps the data for the summary view (`Form.Settle`). The form
returns to `initialFormData` when the user presses the success view's back button,
which runs `handleResetAndGoBack` (`Form.Reset`).

Two things the model states on purpose, because the code allows them:

- The validator does not check the slot window.
- Changing the service does not clear a time picked under the old window.

See `Form.ServiceChangeKeepsTime`, `Form.ValidationIgnoresSlotWindow` and
`Form.OutOfWindowTimeValidates`.

Neither route waits for the other. So a submission can fail on the page after the
spreadsheet row was stored, and submitting again stores it twice. This happens when the
messaging route fails, and also when the storage route's response is lost on its way
back to the page. See `EndToEnd.FailedSubmissionMayStillStore` and
`EndToEnd.LostResponseMayStillStore`.

## Model

| member | source | states |
|---|---|---|
| Text.IsWhitespace | app/PregnancyAppointmentSchedule/page.js:133 | the whitespace set of `trim()` and `\s`: within ASCII exactly space, tab, line feed, vertical tab, form feed and carriage return; never a digit or a hyphen |
| Text.Trim | app/PregnancyAppointmentSchedule/page.js:133 | `trim()` never lengthens a string, and the result neither starts nor ends with whitespace |
| Text.TrimIsInfix | app/PregnancyAppointmentSchedule/page.js:133 | the trimmed string is the contiguous piece of the input that starts right after its leading whitespace |
| Text.TrimDropsOnlyWhitespace | app/PregnancyAppointmentSchedule/page.js:133 | everything `trim()` removes, on either side, is whitespace |
| Text.TrimEmptyIffAllWhitespace | app/PregnancyAppointmentSchedule/page.js:133 | `!value.trim()` holds exactly when every character of the value is whitespace (so also for the empty string) |
| Text.StripSeparators | app/PregnancyAppointmentSchedule/page.js:142 | the separator strip never lengthens a string and leaves no hyphen or whitespace behind |
| Text.StripAppend | app/PregnancyAppointmentSchedule/page.js:142 | stripping a concatenation is concatenating the stripped parts |
| Text.StripIgnoresInsertedSeparator | app/PregnancyAppointmentSchedule/page.js:142 | inserting a hyphen or whitespace character anywhere does not change the stripped string |
| Text.StripKeepsSeparatorFree | app/PregnancyAppointmentSchedule/page.js:142 | a string with no separator is stripped to itself |
| Text.StripKeepsPlainDigits | app/PregnancyAppointmentSchedule/page.js:142 | a string of digits is stripped to itself |
| Text.StripDigitsCharacterization | app/PregnancyAppointmentSchedule/page.js:141-142 | the stripped string is all digits exactly when the input holds only digits, hyphens and whitespace; its length is then the input's digit count |
| Text.DecimalString | app/PregnancyAppointmentSchedule/page.js:116 | `String(n)` is a non-empty digit string with no leading zero (except for 0 itself), one digit long exactly below ten, two digits from 10 to 99 |
| Text.DecimalRoundTrip | app/PregnancyAppointmentSchedule/page.js:116 | reading back `String(n)` as a decimal gives `n` |
| Text.LeadingZero | app/PregnancyAppointmentSchedule/page.js:116 | a leading `'0'` pad keeps a digit string's value |
| Text.PadStart | app/PregnancyAppointmentSchedule/page.js:116 | `padStart` leaves long strings alone, pads short ones to the width, and only with the fill character in front of the original |
| Text.TwoDigits | app/PregnancyAppointmentSchedule/page.js:116 | `String(n).padStart(2, '0')` for `n < 100` is two digits that read back as `n` |
| Text.BeforeFirst | app/PregnancyAppointmentSchedule/page.js:115 | `split(sep)[0]` is the prefix before the first separator: a prefix of the input without the separator, followed in the input by the separator or by nothing |
| Appointment.Set | app/PregnancyAppointmentSchedule/page.js:104-106 | `{ ...prev, [name]: value }` gives the named field the value and keeps every other field |
| Appointment.InitialIsEmpty | app/PregnancyAppointmentSchedule/page.js:61-70 | every field of `initialFormData` is empty |
| Appointment.RequiredFieldsAreAllButNotes | app/PregnancyAppointmentSchedule/page.js:132 | the required fields are exactly the fields other than `notes` |
| Validation.BlankAmong | app/PregnancyAppointmentSchedule/page.js:133 | the filter keeps exactly the listed fields whose value trims to empty |
| Validation.EmptyFieldsIffMissing | app/PregnancyAppointmentSchedule/page.js:132-135 | the list of empty fields is non-empty exactly when some required field is whitespace only |
| Validation.PhoneShape | app/PregnancyAppointmentSchedule/page.js:141-142 | the phone test passes exactly when the phone holds only digits, hyphens and whitespace, with 9 or 10 digits in all |
| Validation.NationalIdShape | app/PregnancyAppointmentSchedule/page.js:148-149 | the national-ID test passes exactly when the ID holds only digits, hyphens and whitespace, with exactly 13 digits |
| Validation.Validate | app/PregnancyAppointmentSchedule/page.js:131-155 | the verdict, in the fixed order missing, then phone, then national ID: each failure exactly when the earlier checks pass and its own fails; valid exactly when all three pass |
| Validation.NotesNeverMatter | app/PregnancyAppointmentSchedule/page.js:132 | changing `notes` never changes the verdict |
| Validation.PhoneSeparatorsDoNotMatter | app/PregnancyAppointmentSchedule/page.js:142 | inserting a separator anywhere in a phone number does not change the phone test |
| Validation.NationalIdSeparatorsDoNotMatter | app/PregnancyAppointmentSchedule/page.js:149 | inserting a separator anywhere in a national ID does not change the ID test |
| Validation.HyphenatedPhonePasses | app/PregnancyAppointmentSchedule/page.js:141-142 | `081-234-5678` passes the phone test |
| Validation.ShortPhoneFails | app/PregnancyAppointmentSchedule/page.js:141-142 | `12345` fails the phone test |
| Validation.ThirteenDigitIdPasses | app/PregnancyAppointmentSchedule/page.js:148-149 | a 13-digit ID passes the ID test |
| Validation.TwelveDigitIdFails | app/PregnancyAppointmentSchedule/page.js:148-149 | a 12-digit ID fails the ID test |
| Schedule.WindowFor | app/PregnancyAppointmentSchedule/page.js:361-366 | each service's window opens and closes on the 30-minute grid, inside one day, opening no later than it closes |
| Schedule.DayAllowed | app/PregnancyAppointmentSchedule/page.js:359 | `filterDate` lets exactly Monday to Friday through |
| Schedule.TimeAllowed | app/PregnancyAppointmentSchedule/page.js:361-367 | the picker lists a time exactly when it is on the hour or half hour and, for child development, from 13:00 to 15:30, for any other service from 09:00 to 11:30 |
| Schedule.Admissible | app/PregnancyAppointmentSchedule/page.js:359-367 | a choice is admissible exactly when it falls on a weekday and is one of the service's enumerated slots |
| Schedule.WorkedExamples | app/PregnancyAppointmentSchedule/page.js:359-367 | child development 14:00 Wednesday is admissible and 16:00 is not; nothing at 10:00 on a Saturday; antenatal care 10:00 Tuesday is admissible and 12:00 is not |
| Schedule.Steps | app/PregnancyAppointmentSchedule/page.js:367 | the 30-minute steps from `lo` to `hi` are exactly the times in that range on the grid from `lo`, strictly increasing, `(hi - lo) / 30 + 1` of them |
| Schedule.SixSlotsPerService | app/PregnancyAppointmentSchedule/page.js:361-367 | every service is offered exactly six slots, earliest first |
| Schedule.SlotsAreTheAllowedTimes | app/PregnancyAppointmentSchedule/page.js:361-367 | a time is allowed for a service exactly when it is one of that service's slots |
| Schedule.WeekendsNeverAdmissible | app/PregnancyAppointmentSchedule/page.js:359 | Saturday and Sunday are never admissible, for any time or service |
| Schedule.WindowsDisjoint | app/PregnancyAppointmentSchedule/page.js:361-366 | no time is allowed both for child development and for another service |
| Http.Str | app/api/notify/route.js:49 | `String(v)` is the string itself, and `"undefined"` for an absent property |
| Http.OrDash | app/api/notify/route.js:62 | the dash fallback is never empty: the value when it is a non-empty string, a dash otherwise |
| Http.Encode | app/PregnancyAppointmentSchedule/page.js:175 | each property the route reads off the serialised form converts back to that field's text |
| Http.Decode | app/api/saveToSheet/route.js:28 | a parsed object reads back as form data exactly when all eight properties are present |
| Http.EncodeDecode | app/PregnancyAppointmentSchedule/page.js:175 | serialising the form and reading it back loses nothing |
| Form.InputChanged | app/PregnancyAppointmentSchedule/page.js:104-109 | a field edit sets the named field, keeps every other field, the picked date and the flags, and clears the error |
| Form.TimeText | app/PregnancyAppointmentSchedule/page.js:116 | the time text is five characters `HH:MM`, two digits on each side of the colon, reading back as the hour and the minute |
| Form.DateChanged | app/PregnancyAppointmentSchedule/page.js:111-125 | a picked date fills the date with the ISO text before its `T` and the time with `HH:MM` reading back as the picked clock; clearing empties both; no other field or flag changes; the error is cleared |
| Form.ConsentChanged | app/PregnancyAppointmentSchedule/page.js:416 | ticking the box sets consent and changes nothing else |
| Form.BeginSubmit | app/PregnancyAppointmentSchedule/page.js:161-182 | two requests, to the notify path then the sheet path, both carrying the form data, are sent exactly when the form validates and consent is given; then loading starts and the error clears; an invalid form gets its rule's message; without consent nothing changes |
| Form.Settle | app/PregnancyAppointmentSchedule/page.js:185-207 | loading always ends; success exactly when both replies are ok; otherwise the generic message; data, date and consent kept |
| Form.Submit | app/PregnancyAppointmentSchedule/page.js:161-208 | requests are sent exactly when the form may be sent; the data is kept; loading is over once anything was sent; when nothing was sent the success view and loading flags are unchanged |
| Form.SubmitOutcome | app/PregnancyAppointmentSchedule/page.js:165-204 | from the editing form, the success view appears exactly when sending is allowed and both replies are ok; success leaves no error and failure the generic one |
| Form.InvalidFormSendsNothing | app/PregnancyAppointmentSchedule/page.js:165 | an invalid form sends nothing and only gains its rule's message |
| Form.NoConsentChangesNothing | app/PregnancyAppointmentSchedule/page.js:165 | a valid form without consent sends nothing and changes nothing |
| Form.Reset | app/PregnancyAppointmentSchedule/page.js:213-218 | reset empties every field, clears the picked date, consent and the success view, and leaves the error and loading flags alone |
| Form.ResetForgets | app/PregnancyAppointmentSchedule/page.js:213-218 | reset forgets all the user entered: states that agree on error and loading reset alike, and the first-render state is a fixed point |
| Form.ResetFormDoesNotValidate | app/PregnancyAppointmentSchedule/page.js:213-218 | a reset form fails validation with the missing-fields message |
| Form.ServiceChangeKeepsTime | app/PregnancyAppointmentSchedule/page.js:104-106 | choosing another service keeps the time and date picked before |
| Form.ValidationIgnoresSlotWindow | app/PregnancyAppointmentSchedule/page.js:131-155 | a valid form stays valid with any non-blank time in place of its own |
| Form.OutOfWindowTimeValidates | app/PregnancyAppointmentSchedule/page.js:131-155 | a child-development form with a 09:00 time validates though the picker would not offer that time |
| Notify.Configured | app/api/notify/route.js:18 | the credential guard passes exactly when none of the three settings is absent or the empty string |
| Notify.BodyRows | app/api/notify/route.js:60-91 | `bodyContents` has nine entries, separators exactly at positions 3 and 7, every other entry a box of a label text and a value text |
| Notify.ReceiptRow | app/api/notify/route.js:34-57 | a receipt row is a horizontal box of exactly two texts, the grey label first and the dark value second |
| Notify.BodyRowsInOrder | app/api/notify/route.js:60-91 | the body is name, national ID, phone, separator, service, date, time, separator, notes box; each row's value is the matching request property |
| Notify.DashForEmpty | app/api/notify/route.js:62-83 | an empty or absent national ID or notes value shows as a dash; a present one shows as it is |
| Notify.BuildFlex | app/api/notify/route.js:94-159 | the alternative text is the fixed prefix and the full name; the body is the vertical box of the body rows |
| Notify.AltTextNamesTheBodyRow | app/api/notify/route.js:61-96 | the name in the alternative text is the value of the body's name row |
| Notify.Handle | app/api/notify/route.js:9-194 | a missing setting gives a 500 and no call; a call to the configured URL with the bearer token, addressed to the group and carrying exactly one message, is made exactly when configured and the body parsed; success exactly when the service answered ok; a refusal passes the service's status on when its body parses; any throw is a 500; success matches an ok status |
| SaveToSheet.UrlConfigured | app/api/saveToSheet/route.js:16 | the URL guard passes exactly when the URL is neither empty nor the placeholder |
| SaveToSheet.Handle | app/api/saveToSheet/route.js:9-73 | a placeholder or empty URL gives a 500 and no call; the parsed body is forwarded unchanged exactly when there is one; saved exactly when the script answered ok with `result: 'success'`; every failure is a 500, never the script's status, with details telling the cases apart |
| SaveToSheet.ShippedUrlIsConfigured | app/api/saveToSheet/route.js:12-23 | the URL the route ships with passes its own guard |
| EndToEnd.Seen | app/PregnancyAppointmentSchedule/page.js:185-191 | the page sees an ok reply exactly when the request arrived and the route's status is ok |
| EndToEnd.Run | app/PregnancyAppointmentSchedule/page.js:161-208 | a submission sends exactly when allowed, keeps the data, and runs each route exactly when its request reaches it |
| EndToEnd.SuccessIffAllWentRight | app/PregnancyAppointmentSchedule/page.js:191 | from the editing form, success exactly when the form validates with consent, both requests arrive, the messaging settings are present, the messaging service answers ok, and the script answers ok with `result: 'success'` |
| EndToEnd.FailureKeepsForm | app/PregnancyAppointmentSchedule/page.js:202-206 | a failed submission changes only the error, to the generic message |
| EndToEnd.StorageRunsRegardless | app/PregnancyAppointmentSchedule/page.js:172-188 | the storage route forwards the form whatever the notify route does |
| EndToEnd.FailedSubmissionMayStillStore | app/PregnancyAppointmentSchedule/page.js:185-196 | with the messaging settings missing and the script succeeding, the page reports failure while the row is saved |
| EndToEnd.LostResponseMayStillStore | app/PregnancyAppointmentSchedule/page.js:185-204 | when the script succeeds but the storage route's response never reaches the page, the page shows the generic failure while the row is saved |

## Left out

- Presentation is not modelled: the address pop-up, the success summary and its
  `toLocaleDateString`, styling, and controls disabled while loading
  (page.js:21-52, 220-511).
- `minDate={new Date()}` is not modelled. The model has no clock, and the weekday, hour
  and minute are inputs.
- Time zones are not modelled. The date comes from `toISOString()` in UTC and the time
  from local `getHours()`/`getMinutes()`. The model takes the ISO text and the local
  clock as separate inputs, so their agreement is not stated.
- The picker's own enforcement of `filterDate`, `minTime`, `maxTime` and
  `timeIntervals` belongs to the date-picker library. `Schedule` states the policy, and
  `Form.DateChanged` accepts any valid clock.
- HTML-only constraints (`maxLength`, `pattern`, `required`) are enforced by the browser,
  not by the code.
- Network I/O and the interleaving of the two fetches under `Promise.all` are not
  modelled. Each reply is an input, and a rejection of either promise gives the same
  outcome as a non-ok status.
- JSON values other than strings and absent properties are not modelled. The request
  body is a parse failure or an object of optional string properties, so `String(v)` of
  numbers or objects is left out. Properties beyond the eight form fields are not
  modelled either: `saveToSheet/route.js` forwards them to the script, and the model's
  body cannot hold them.
- Logging (`console.*`) is left out, and so is reading the error bodies only to log them
  (page.js:192-194, saveToSheet/route.js:45).
- Notify.Handle: a refused call's status is passed on as is. The restrictions
  `NextResponse.json` puts on unusual status codes are not modelled, nor is the
  `response.json()` error body beyond whether it parses.
- Notify.BuildFlex: the header and footer are built but their styling attributes are
  not. The footer's `toLocaleString('th-TH')` timestamp is an input.
- SaveToSheet.Handle: a successful response's `data` carries only the script's `result`
  property, `'success'`. Its other properties are not modelled.
- `redirect: 'follow'` on the call to the script is transport detail and is left out.
