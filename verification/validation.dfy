/**
 The form's validator: required fields first, then the phone number, then the
 national ID; the first failing rule decides the one message shown.
 */
module Validation {

  import opened Text
  import opened Appointment

  datatype ValidationError = MissingRequired | InvalidPhone | InvalidNationalId

  /** The verdict of `validateForm`: `true`, or `false` with the message it sets. */
  datatype Verdict = Valid | Invalid(error: ValidationError)

  /** The message `validateForm` hands to `setError` for each failure. */
  function Message(e: ValidationError): string {
    match e
    case MissingRequired => "กรุณากรอกข้อมูลที่จำเป็นให้ครบถ้วน"
    case InvalidPhone => "กรุณากรอกเบอร์โทรศัพท์ให้ถูกต้อง"
    case InvalidNationalId => "กรุณากรอกเลขบัตรประชาชน 13 หลักให้ถูกต้อง"
  }

  /** `!value.trim()` */
  predicate IsBlank(s: string) {
    Trim(s) == []
  }

  /** `requiredFields.filter(field => !formData[field].trim())`, over any list of field names. */
  function BlankAmong(f: FormData, fields: seq<FieldName>): (r: seq<FieldName>)
    ensures forall n :: n in r <==> n in fields && IsBlank(Get(f, n))
    ensures |r| <= |fields|
  {
    if fields == [] then []
    else
      var rest := BlankAmong(f, fields[1..]);
      if IsBlank(Get(f, fields[0])) then [fields[0]] + rest else rest
  }

  /** `emptyFields` */
  function EmptyFields(f: FormData): seq<FieldName> {
    BlankAmong(f, RequiredFields)
  }

  /** `/^[0-9]{9,10}$/.test(phone.replace(/[-\s]/g, ''))`: it passes exactly when the phone
      holds only digits, hyphens and whitespace, with nine or ten digits in all. */
  function PhoneShape(phone: string): (ok: bool)
    ensures ok <==> PhoneAcceptable(phone)
  {
    StripDigitsCharacterization(phone);
    var t := StripSeparators(phone);
    AllDigits(t) && 9 <= |t| <= 10
  }

  /** `/^[0-9]{13}$/.test(nationalId.replace(/[-\s]/g, ''))`: it passes exactly when the ID
      holds only digits, hyphens and whitespace, with thirteen digits in all. */
  function NationalIdShape(id: string): (ok: bool)
    ensures ok <==> NationalIdAcceptable(id)
  {
    StripDigitsCharacterization(id);
    var t := StripSeparators(id);
    AllDigits(t) && |t| == 13
  }

  /** Every required field holds a character that is not whitespace; `notes` is not consulted. */
  predicate RequiredPresent(f: FormData) {
    && !AllWhitespace(f.firstName) && !AllWhitespace(f.lastName)
    && !AllWhitespace(f.phone) && !AllWhitespace(f.nationalId)
    && !AllWhitespace(f.appointmentDate) && !AllWhitespace(f.appointmentTime)
    && !AllWhitespace(f.service)
  }

  lemma BlankFieldIsMissing(f: FormData, n: FieldName)
    requires n in RequiredFields && IsBlank(Get(f, n))
    ensures !RequiredPresent(f)
  {
    TrimEmptyIffAllWhitespace(Get(f, n));
  }

  lemma PresentFieldsAreNotBlank(f: FormData)
    requires RequiredPresent(f)
    ensures EmptyFields(f) == []
  {
    var empty := EmptyFields(f);
    if empty != [] {
      assert empty[0] in empty;
      BlankFieldIsMissing(f, empty[0]);
    }
  }

  lemma WhitespaceFieldIsFiltered(f: FormData, n: FieldName)
    requires n in RequiredFields && AllWhitespace(Get(f, n))
    ensures n in EmptyFields(f)
  {
    TrimEmptyIffAllWhitespace(Get(f, n));
  }

  lemma MissingFieldIsBlank(f: FormData)
    requires !RequiredPresent(f)
    ensures EmptyFields(f) != []
  {
    var n :=
      if AllWhitespace(f.firstName) then FirstName
      else if AllWhitespace(f.lastName) then LastName
      else if AllWhitespace(f.phone) then Phone
      else if AllWhitespace(f.nationalId) then NationalId
      else if AllWhitespace(f.appointmentDate) then AppointmentDate
      else if AllWhitespace(f.appointmentTime) then AppointmentTime
      else Service;
    WhitespaceFieldIsFiltered(f, n);
  }

  /** The filter finds a blank required field exactly when some required field lacks content. */
  lemma EmptyFieldsIffMissing(f: FormData)
    ensures |EmptyFields(f)| > 0 <==> !RequiredPresent(f)
  {
    if RequiredPresent(f) {
      PresentFieldsAreNotBlank(f);
    } else {
      MissingFieldIsBlank(f);
    }
  }

  /** A phone number as a person would describe a valid one: only digits, hyphens and
      whitespace, and nine or ten digits in all. */
  predicate PhoneAcceptable(phone: string) {
    DigitsAndSeparators(phone) && 9 <= DigitCount(phone) <= 10
  }

  /** A national ID as a person would describe a valid one: only digits, hyphens and
      whitespace, and thirteen digits in all. */
  predicate NationalIdAcceptable(id: string) {
    DigitsAndSeparators(id) && DigitCount(id) == 13
  }

  /** `validateForm`. Each verdict is characterised without reference to trimming or
      regular expressions: a missing field is one made of whitespace only, and the phone
      and national ID are judged by the characters they contain and their digit count. */
  function Validate(f: FormData): (v: Verdict)
    ensures v == Invalid(MissingRequired) <==> !RequiredPresent(f)
    ensures v == Invalid(InvalidPhone) <==> RequiredPresent(f) && !PhoneAcceptable(f.phone)
    ensures v == Invalid(InvalidNationalId) <==>
              RequiredPresent(f) && PhoneAcceptable(f.phone) && !NationalIdAcceptable(f.nationalId)
    ensures v == Valid <==>
              RequiredPresent(f) && PhoneAcceptable(f.phone) && NationalIdAcceptable(f.nationalId)
  {
    EmptyFieldsIffMissing(f);
    var empty := EmptyFields(f);
    if |empty| > 0 then Invalid(MissingRequired)
    else if !PhoneShape(f.phone) then Invalid(InvalidPhone)
    else if !NationalIdShape(f.nationalId) then Invalid(InvalidNationalId)
    else Valid
  }

  /** The notes field never changes the verdict. */
  lemma NotesNeverMatter(f: FormData, notes: string)
    ensures Validate(f.(notes := notes)) == Validate(f)
  {
  }

  /** Where the hyphens and spaces sit in a phone number never matters: inserting one anywhere
      leaves the phone check's verdict unchanged. */
  lemma PhoneSeparatorsDoNotMatter(a: string, c: char, b: string)
    requires IsSeparator(c)
    ensures PhoneShape(a + [c] + b) <==> PhoneShape(a + b)
  {
    StripIgnoresInsertedSeparator(a, c, b);
  }

  /** The same for the national ID. */
  lemma NationalIdSeparatorsDoNotMatter(a: string, c: char, b: string)
    requires IsSeparator(c)
    ensures NationalIdShape(a + [c] + b) <==> NationalIdShape(a + b)
  {
    StripIgnoresInsertedSeparator(a, c, b);
  }

  /** A hyphenated ten-digit mobile number passes the phone rule. */
  lemma HyphenatedPhonePasses()
    ensures PhoneShape("081-234-5678")
  {
    var plain := "0812345678";
    StripKeepsPlainDigits(plain);
    StripIgnoresInsertedSeparator("081234", '-', "5678");
    assert "081234" + "5678" == plain;
    StripIgnoresInsertedSeparator("081", '-', "234-5678");
    assert "081" + "234-5678" == "081234" + ['-'] + "5678";
    assert "081" + ['-'] + "234-5678" == "081-234-5678";
  }

  /** Five digits fail the phone rule. */
  lemma ShortPhoneFails()
    ensures !PhoneShape("12345")
  {
    StripKeepsPlainDigits("12345");
  }

  /** Thirteen digits pass the national-ID rule. */
  lemma ThirteenDigitIdPasses()
    ensures NationalIdShape("1103702345678")
  {
    StripKeepsPlainDigits("1103702345678");
  }

  /** Twelve digits fail the national-ID rule. */
  lemma TwelveDigitIdFails()
    ensures !NationalIdShape("110370234567")
  {
    StripKeepsPlainDigits("110370234567");
  }

}
