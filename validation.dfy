// The client's form validators. A form is a map from field name to text;
// a field that is missing or empty is falsy. Each validator answers a map
// from field name to error message that holds exactly the fields whose own
// check failed.

module Validation {
  import opened Common

  type Form = map<string, string>
  type Errors = map<string, string>

  /** values.key, with a missing field read as the empty text. */
  function Get(v: Form, key: string): string {
    if key in v then v[key] else ""
  }

  /** The field is truthy: present and non-empty. */
  predicate Present(v: Form, key: string) {
    Get(v, key) != ""
  }

  // ---------------------------------------------------------------------
  // The rules that are shared between validators

  /** No space strictly between positions a and b of s. */
  predicate NoSpaceBetween(s: string, a: int, b: int)
    requires 0 <= a && b <= |s|
  {
    forall k :: a < k < b ==> !IsSpace(s[k])
  }

  /** The pattern matches with its '@' at position `at` and its '.' at
      position `dot`. */
  predicate MatchesAt(s: string, at: int, dot: int) {
    1 <= at < dot - 1 && dot + 1 < |s| && s[at] == '@' && s[dot] == '.' &&
    !IsSpace(s[at - 1]) && !IsSpace(s[dot + 1]) && NoSpaceBetween(s, at, dot)
  }

  /** /\S+@\S+\.\S+/.test(s): somewhere in s a non-space character, an '@',
      a non-empty run of non-space characters, a '.' and a non-space
      character follow each other. The pattern is not anchored. */
  predicate EmailLike(s: string) {
    exists at, dot :: 0 <= at < dot < |s| && MatchesAt(s, at, dot)
  }

  /** A piece of text that the pattern matches as a whole: no spaces, an
      '@' not at the start, and a later '.' with text on both sides. */
  predicate EmailShaped(w: string) {
    NoSpaceBetween(w, 0, |w|) && |w| > 0 && !IsSpace(w[0]) &&
    exists at, dot :: 0 <= at < dot < |w| && MatchesAt(w, at, dot)
  }

  /** The pattern matches s iff some piece of s is shaped like an address. */
  lemma EmailLikeIffShapedPiece(s: string)
    ensures EmailLike(s) <==> exists i, j :: 0 <= i < j <= |s| && EmailShaped(s[i..j])
  {
    if EmailLike(s) {
      var at, dot :| 0 <= at < dot < |s| && MatchesAt(s, at, dot);
      var w := s[at - 1..dot + 2];
      assert w[1] == '@' && w[dot - at + 1] == '.';
      forall k | 0 < k < |w| ensures !IsSpace(w[k]) {
        assert w[k] == s[at - 1 + k];
      }
      assert MatchesAt(w, 1, dot - at + 1);
      assert EmailShaped(w);
    }
    if i, j :| 0 <= i < j <= |s| && EmailShaped(s[i..j]) {
      var w := s[i..j];
      var at, dot :| 0 <= at < dot < |w| && MatchesAt(w, at, dot);
      forall k | i + at < k < i + dot ensures !IsSpace(s[k]) {
        assert s[k] == w[k - i];
      }
      assert s[i + at - 1] == w[at - 1] && s[i + dot + 1] == w[dot + 1];
      assert MatchesAt(s, i + at, i + dot);
    }
  }

  /** The pattern is not anchored: text around an address does not matter,
      but a space inside its domain part does. */
  lemma EmailExamples()
    ensures EmailLike("a@b.c")
    ensures EmailLike("mail: x@y.org ")
    ensures !EmailLike("a@b")
    ensures !EmailLike("a @b.c")
    ensures !EmailLike("a@ b.c")
  {
    var s := "a@b.c";
    assert MatchesAt(s, 1, 3);
    var t := "mail: x@y.org ";
    assert MatchesAt(t, 7, 9);
    var u := "a @b.c";
    assert u[1] == ' ';
    assert forall at :: 0 <= at < |u| && u[at] == '@' ==> at == 2;
    var w := "a@ b.c";
    assert forall at :: 0 <= at < |w| && w[at] == '@' ==> at == 1;
    assert forall dot :: 0 <= dot < |w| && w[dot] == '.' ==> dot == 4;
    assert IsSpace(w[2]);
  }

  /** One check of a validator: the field it reports on and its message
      when the check fails. */
  type Check = (string, Option<string>)

  /** The errors object filled by the checks in order. */
  function Collect(checks: seq<Check>): (e: Errors)
    ensures forall k :: k in e <==> exists i :: 0 <= i < |checks| && checks[i].0 == k && checks[i].1.Some?
  {
    if checks == [] then map[]
    else
      var n := |checks| - 1;
      var e := Collect(checks[..n]);
      assert forall i :: 0 <= i < n ==> checks[..n][i] == checks[i];
      if checks[n].1.Some? then e[checks[n].0 := checks[n].1.value] else e
  }

  /** The message collected for a field is the message of one of that
      field's failing checks. */
  lemma {:induction false} CollectMessages(checks: seq<Check>)
    ensures forall k :: k in Collect(checks) ==>
              exists i :: 0 <= i < |checks| && checks[i].0 == k && checks[i].1 == Some(Collect(checks)[k])
  {
    if checks != [] {
      var n := |checks| - 1;
      CollectMessages(checks[..n]);
      assert forall i :: 0 <= i < n ==> checks[..n][i] == checks[i];
    }
  }

  /** No error is collected iff every check passed. */
  lemma CollectEmpty(checks: seq<Check>)
    ensures Collect(checks) == map[] <==> forall i :: 0 <= i < |checks| ==> checks[i].1.None?
  {
    var e := Collect(checks);
    if forall i :: 0 <= i < |checks| ==> checks[i].1.None? {
      assert forall k :: k !in e;
      assert e.Keys == {};
    } else {
      var i :| 0 <= i < |checks| && checks[i].1.Some?;
      assert checks[i].0 in e;
    }
  }

  /** When no other check reports on the same field, a check's field is in
      the errors iff it failed, with its message. */
  lemma {:induction false} CollectAt(checks: seq<Check>, i: nat)
    requires i < |checks|
    requires forall j :: 0 <= j < |checks| && j != i ==> checks[j].0 != checks[i].0
    ensures checks[i].0 in Collect(checks) <==> checks[i].1.Some?
    ensures checks[i].1.Some? ==> Collect(checks)[checks[i].0] == checks[i].1.value
  {
    var n := |checks| - 1;
    if i < n {
      assert forall j :: 0 <= j < n ==> checks[..n][j] == checks[j];
      CollectAt(checks[..n], i);
    }
  }

  /** if (!values.key) errors.key = msg */
  function Need(v: Form, key: string, msg: string): (c: Check)
    ensures c.0 == key && (c.1.Some? <==> !Present(v, key)) && (c.1.Some? ==> c.1.value == msg)
  {
    (key, if Present(v, key) then None else Some(msg))
  }

  /** One `if (!values.key) errors.key = msg` per field, in order. */
  function Needs(v: Form, fields: seq<(string, string)>): (checks: seq<Check>)
    ensures |checks| == |fields|
    ensures forall i :: 0 <= i < |fields| ==> checks[i] == Need(v, fields[i].0, fields[i].1)
  {
    seq(|fields|, i requires 0 <= i < |fields| => Need(v, fields[i].0, fields[i].1))
  }

  /** The errors of a form whose checks are all `if (!values.key)
      errors.key = msg`: each listed field is reported iff it is missing,
      with its own message, and no other key is reported. */
  predicate ReportsMissing(v: Form, fields: seq<(string, string)>, e: Errors) {
    (forall i :: 0 <= i < |fields| ==>
       (fields[i].0 in e <==> !Present(v, fields[i].0)) && (fields[i].0 in e ==> e[fields[i].0] == fields[i].1)) &&
    (forall k :: k in e ==> exists i :: 0 <= i < |fields| && fields[i].0 == k)
  }

  /** No field is listed twice. */
  predicate DistinctFields(fields: seq<(string, string)>) {
    forall i, j :: 0 <= i < j < |fields| ==> fields[i].0 != fields[j].0
  }

  /** With distinct fields, the required-field checks report exactly the
      missing fields, each with its own message. */
  lemma CollectNeeds(v: Form, fields: seq<(string, string)>)
    requires DistinctFields(fields)
    ensures ReportsMissing(v, fields, Collect(Needs(v, fields)))
  {
    var checks := Needs(v, fields);
    forall i | 0 <= i < |fields|
      ensures fields[i].0 in Collect(checks) <==> !Present(v, fields[i].0)
      ensures fields[i].0 in Collect(checks) ==> Collect(checks)[fields[i].0] == fields[i].1
    {
      CollectAt(checks, i);
    }
  }

  /** Required, then at least `min` characters long. */
  function MinLength(v: Form, key: string, min: nat, missing: string, short: string): (c: Check)
    requires min > 0
    ensures c.0 == key && (c.1.Some? <==> |Get(v, key)| < min)
    ensures c.1.Some? ==> c.1.value == if Present(v, key) then short else missing
  {
    (key, if !Present(v, key) then Some(missing) else if |Get(v, key)| < min then Some(short) else None)
  }

  /** Required, then equal to the password. */
  function Confirmation(v: Form, missing: string): (c: Check)
    ensures c.0 == "confirmPassword"
    ensures c.1.Some? <==> !Present(v, "confirmPassword") || Get(v, "confirmPassword") != Get(v, "password")
    ensures c.1.Some? ==> c.1.value == if Present(v, "confirmPassword") then "Passwords do not match" else missing
  {
    var confirm := Get(v, "confirmPassword");
    ("confirmPassword", if confirm == "" then Some(missing)
                        else if confirm != Get(v, "password") then Some("Passwords do not match") else None)
  }

  /** Required, then matching the address pattern. */
  function Email(v: Form): (c: Check)
    ensures c.0 == "email" && (c.1.Some? <==> !EmailLike(Get(v, "email")))
    ensures c.1.Some? ==> c.1.value == if Present(v, "email") then "Email is invalid" else "Email is required"
  {
    var email := Get(v, "email");
    ("email", if email == "" then Some("Email is required")
              else if !EmailLike(email) then Some("Email is invalid") else None)
  }

  /** Required, then 10 to 15 digits once every non-digit is deleted. */
  function Contact(v: Form): (c: Check)
    ensures c.0 == "contactNumber" && (c.1.Some? <==> !(10 <= |Digits(Get(v, "contactNumber"))| <= 15))
    ensures c.1.Some? ==>
              c.1.value == if Present(v, "contactNumber") then "Contact number must be between 10-15 digits"
                           else "Contact number is required"
  {
    var contact := Get(v, "contactNumber");
    ("contactNumber", if contact == "" then Some("Contact number is required")
                      else if !(10 <= |Digits(contact)| <= 15) then Some("Contact number must be between 10-15 digits")
                      else None)
  }

  // ---------------------------------------------------------------------
  // The validators

  /** The fields of the login form, each required, with its message. */
  const LoginFields := [("username", "Username is required"), ("password", "Password is required")]

  function ValidateLogin(v: Form): (e: Errors)
    ensures ReportsMissing(v, LoginFields, e)
  {
    FieldsDistinct();
    CollectNeeds(v, LoginFields);
    Collect(Needs(v, LoginFields))
  }

  /** The required-field forms list each field once. */
  lemma FieldsDistinct()
    ensures DistinctFields(LoginFields) && DistinctFields(MedicalRecordFields)
    ensures DistinctFields(PrescriptionFields) && DistinctFields(PharmacyOrderFields)
    ensures DistinctFields(EmergencyFields)
  {
  }

  /** A login form passes iff both fields are filled. */
  lemma ValidateLoginEmpty(v: Form)
    ensures ValidateLogin(v) == map[] <==> Present(v, "username") && Present(v, "password")
  {
    var e := ValidateLogin(v);
    assert LoginFields[0].0 == "username" && LoginFields[1].0 == "password";
    if Present(v, "username") && Present(v, "password") {
      assert forall i :: 0 <= i < |LoginFields| ==> LoginFields[i].0 !in e;
      assert e.Keys == {};
    }
  }

  function RegistrationChecks(v: Form): seq<Check> {
    [MinLength(v, "username", 3, "Username is required", "Username must be at least 3 characters"),
     MinLength(v, "password", 6, "Password is required", "Password must be at least 6 characters"),
     Confirmation(v, "Please confirm your password"),
     Email(v),
     Need(v, "name", "Full name is required"),
     Need(v, "dateOfBirth", "Date of birth is required"),
     Need(v, "gender", "Please select your gender"),
     Contact(v)]
  }

  const RegistrationKeys := ["username", "password", "confirmPassword", "email", "name", "dateOfBirth",
                             "gender", "contactNumber"]

  function ValidateRegistration(v: Form): (e: Errors)
    ensures forall k :: k in e ==> k in RegistrationKeys
  {
    var checks := RegistrationChecks(v);
    assert forall i :: 0 <= i < |checks| ==> checks[i].0 == RegistrationKeys[i];
    Collect(checks)
  }

  /** The i-th registration check alone decides its field. */
  lemma RegistrationCheckAt(v: Form, i: nat)
    requires i < |RegistrationKeys|
    ensures RegistrationChecks(v)[i].0 == RegistrationKeys[i]
    ensures RegistrationKeys[i] in ValidateRegistration(v) <==> RegistrationChecks(v)[i].1.Some?
    ensures RegistrationChecks(v)[i].1.Some? ==>
              ValidateRegistration(v)[RegistrationKeys[i]] == RegistrationChecks(v)[i].1.value
  {
    var checks := RegistrationChecks(v);
    RegistrationCheckKeys(v);
    assert forall j :: 0 <= j < |checks| && j != i ==> checks[j].0 != checks[i].0 by {
      RegistrationKeysDistinct();
    }
    CollectAt(checks, i);
  }

  /** The registration checks report on the registration fields, in order. */
  lemma RegistrationCheckKeys(v: Form)
    ensures |RegistrationChecks(v)| == |RegistrationKeys|
    ensures forall j :: 0 <= j < |RegistrationKeys| ==> RegistrationChecks(v)[j].0 == RegistrationKeys[j]
  {
    var c := RegistrationChecks(v);
    assert c[0].0 == RegistrationKeys[0] && c[1].0 == RegistrationKeys[1];
    assert c[2].0 == RegistrationKeys[2] && c[3].0 == RegistrationKeys[3];
    assert c[4].0 == RegistrationKeys[4] && c[5].0 == RegistrationKeys[5];
    assert c[6].0 == RegistrationKeys[6] && c[7].0 == RegistrationKeys[7];
  }

  lemma RegistrationKeysDistinct()
    ensures forall i, j :: 0 <= i < |RegistrationKeys| && 0 <= j < |RegistrationKeys| && i != j ==>
              RegistrationKeys[i] != RegistrationKeys[j]
  {
  }

  /** Username and password: missing, too short, or accepted. */
  lemma RegistrationLengths(v: Form)
    ensures var e := ValidateRegistration(v);
            ("username" in e <==> |Get(v, "username")| < 3) &&
            ("username" in e ==> e["username"] == if Present(v, "username") then "Username must be at least 3 characters"
                                                  else "Username is required")
    ensures var e := ValidateRegistration(v);
            ("password" in e <==> |Get(v, "password")| < 6) &&
            ("password" in e ==> e["password"] == if Present(v, "password") then "Password must be at least 6 characters"
                                                  else "Password is required")
  {
    var checks := RegistrationChecks(v);
    assert checks[0] == MinLength(v, "username", 3, "Username is required", "Username must be at least 3 characters");
    assert checks[1] == MinLength(v, "password", 6, "Password is required", "Password must be at least 6 characters");
    RegistrationCheckAt(v, 0);
    RegistrationCheckAt(v, 1);
  }

  /** The confirmation is missing, different from the password, or
      accepted; the email is missing, not an address, or accepted. */
  lemma RegistrationConfirmAndEmail(v: Form)
    ensures var e := ValidateRegistration(v);
            ("confirmPassword" in e <==> !Present(v, "confirmPassword") || Get(v, "confirmPassword") != Get(v, "password")) &&
            ("confirmPassword" in e ==> e["confirmPassword"] == if Present(v, "confirmPassword") then "Passwords do not match"
                                                                else "Please confirm your password")
    ensures var e := ValidateRegistration(v);
            ("email" in e <==> !EmailLike(Get(v, "email"))) &&
            ("email" in e ==> e["email"] == if Present(v, "email") then "Email is invalid" else "Email is required")
  {
    RegistrationCheckAt(v, 2);
    RegistrationCheckAt(v, 3);
  }

  /** Name, date of birth and gender are required; the contact number
      needs 10 to 15 digits. */
  lemma RegistrationRequiredAndContact(v: Form)
    ensures var e := ValidateRegistration(v);
            ("name" in e <==> !Present(v, "name")) && ("dateOfBirth" in e <==> !Present(v, "dateOfBirth")) &&
            ("gender" in e <==> !Present(v, "gender"))
    ensures var e := ValidateRegistration(v);
            ("contactNumber" in e <==> !(10 <= |Digits(Get(v, "contactNumber"))| <= 15)) &&
            ("contactNumber" in e ==>
               e["contactNumber"] == if Present(v, "contactNumber") then "Contact number must be between 10-15 digits"
                                     else "Contact number is required")
  {
    RegistrationCheckAt(v, 4);
    RegistrationCheckAt(v, 5);
    RegistrationCheckAt(v, 6);
    RegistrationCheckAt(v, 7);
  }

  /** A registration form passes iff every rule holds. */
  lemma ValidateRegistrationEmpty(v: Form)
    ensures ValidateRegistration(v) == map[] <==>
              |Get(v, "username")| >= 3 && |Get(v, "password")| >= 6 &&
              Get(v, "confirmPassword") == Get(v, "password") && EmailLike(Get(v, "email")) &&
              Present(v, "name") && Present(v, "dateOfBirth") && Present(v, "gender") &&
              10 <= |Digits(Get(v, "contactNumber"))| <= 15
  {
    var checks := RegistrationChecks(v);
    assert ValidateRegistration(v) == Collect(checks);
    CollectEmpty(checks);
    RegistrationAccountPasses(v);
    RegistrationPersonPasses(v);
    EightPass(checks);
  }

  /** Eight checks all pass iff each one does. */
  lemma EightPass(checks: seq<Check>)
    requires |checks| == 8
    ensures (forall i :: 0 <= i < |checks| ==> checks[i].1.None?) <==>
              checks[0].1.None? && checks[1].1.None? && checks[2].1.None? && checks[3].1.None? &&
              checks[4].1.None? && checks[5].1.None? && checks[6].1.None? && checks[7].1.None?
  {
  }

  /** When the account checks (username to email) pass. */
  lemma RegistrationAccountPasses(v: Form)
    ensures var checks := RegistrationChecks(v);
            |checks| == 8 &&
            (checks[0].1.None? <==> |Get(v, "username")| >= 3) &&
            (checks[1].1.None? <==> |Get(v, "password")| >= 6) &&
            (checks[2].1.None? <==> Get(v, "confirmPassword") == Get(v, "password") && Present(v, "confirmPassword")) &&
            (checks[3].1.None? <==> EmailLike(Get(v, "email")))
  {
  }

  /** When the personal checks (name to contact number) pass. */
  lemma RegistrationPersonPasses(v: Form)
    ensures var checks := RegistrationChecks(v);
            |checks| == 8 &&
            (checks[4].1.None? <==> Present(v, "name")) &&
            (checks[5].1.None? <==> Present(v, "dateOfBirth")) &&
            (checks[6].1.None? <==> Present(v, "gender")) &&
            (checks[7].1.None? <==> 10 <= |Digits(Get(v, "contactNumber"))| <= 15)
  {
  }

  /** The fields of the medical record form, each required, with its message. */
  const MedicalRecordFields := [("patient_id", "Patient is required"), ("diagnosis", "Diagnosis is required"),
                                ("treatment", "Treatment is required")]

  function ValidateMedicalRecord(v: Form): (e: Errors)
    ensures ReportsMissing(v, MedicalRecordFields, e)
  {
    FieldsDistinct();
    CollectNeeds(v, MedicalRecordFields);
    Collect(Needs(v, MedicalRecordFields))
  }

  /** The fields of the prescription form, each required, with its message. */
  const PrescriptionFields := [("patient_id", "Patient is required"), ("medication_name", "Medication name is required"),
                               ("dosage", "Dosage is required"), ("frequency", "Frequency is required"),
                               ("duration", "Duration is required")]

  function ValidatePrescription(v: Form): (e: Errors)
    ensures ReportsMissing(v, PrescriptionFields, e)
  {
    FieldsDistinct();
    CollectNeeds(v, PrescriptionFields);
    Collect(Needs(v, PrescriptionFields))
  }

  /** new Date(values.appointment_date) < new Date(). `dateOf` stands for
      the parse as a time value (None for an invalid date, which compares
      false), `now` for the clock. */
  function PastDate(v: Form, dateOf: string -> Option<int>, now: int): (c: Check)
    ensures c.0 == "appointment_date"
    ensures c.1.Some? <==> !Present(v, "appointment_date") ||
                           (dateOf(Get(v, "appointment_date")).Some? && dateOf(Get(v, "appointment_date")).value < now)
    ensures c.1.Some? ==> c.1.value == if Present(v, "appointment_date") then "Appointment date cannot be in the past"
                                       else "Appointment date is required"
  {
    var d := Get(v, "appointment_date");
    ("appointment_date", if d == "" then Some("Appointment date is required")
                         else if dateOf(d).Some? && dateOf(d).value < now then Some("Appointment date cannot be in the past")
                         else None)
  }

  function AppointmentChecks(v: Form, dateOf: string -> Option<int>, now: int): seq<Check> {
    [Need(v, "patient_id", "Patient is required"), Need(v, "doctor_id", "Doctor is required"),
     Need(v, "hospital_id", "Hospital is required"), PastDate(v, dateOf, now),
     Need(v, "reason", "Reason for appointment is required")]
  }

  function ValidateAppointment(v: Form, dateOf: string -> Option<int>, now: int): (e: Errors)
    ensures forall k :: k in e && k != "appointment_date" <==>
              (k == "patient_id" || k == "doctor_id" || k == "hospital_id" || k == "reason") && !Present(v, k)
    ensures "appointment_date" in e <==>
              !Present(v, "appointment_date") ||
              (dateOf(Get(v, "appointment_date")).Some? && dateOf(Get(v, "appointment_date")).value < now)
    ensures "appointment_date" in e ==>
              e["appointment_date"] == if Present(v, "appointment_date") then "Appointment date cannot be in the past"
                                       else "Appointment date is required"
  {
    AppointmentOtherKeys(v, dateOf, now);
    AppointmentDateKey(v, dateOf, now);
    Collect(AppointmentChecks(v, dateOf, now))
  }

  lemma AppointmentOtherKeys(v: Form, dateOf: string -> Option<int>, now: int)
    ensures var e := Collect(AppointmentChecks(v, dateOf, now));
            forall k :: k in e && k != "appointment_date" <==>
              (k == "patient_id" || k == "doctor_id" || k == "hospital_id" || k == "reason") && !Present(v, k)
  {
    var checks := AppointmentChecks(v, dateOf, now);
    var e := Collect(checks);
    AppointmentCheckKeys(v, dateOf, now);
    forall k ensures k in e && k != "appointment_date" <==>
                     (k == "patient_id" || k == "doctor_id" || k == "hospital_id" || k == "reason") && !Present(v, k)
    {
      if k in e && k != "appointment_date" {
        var i :| 0 <= i < |checks| && checks[i].0 == k && checks[i].1.Some?;
        assert i == 0 || i == 1 || i == 2 || i == 4;
      }
    }
  }

  lemma AppointmentDateKey(v: Form, dateOf: string -> Option<int>, now: int)
    ensures "appointment_date" in Collect(AppointmentChecks(v, dateOf, now)) <==>
              !Present(v, "appointment_date") ||
              (dateOf(Get(v, "appointment_date")).Some? && dateOf(Get(v, "appointment_date")).value < now)
    ensures var e := Collect(AppointmentChecks(v, dateOf, now));
            "appointment_date" in e ==>
              e["appointment_date"] == if Present(v, "appointment_date") then "Appointment date cannot be in the past"
                                       else "Appointment date is required"
  {
    var checks := AppointmentChecks(v, dateOf, now);
    AppointmentCheckKeys(v, dateOf, now);
    CollectAt(checks, 3);
    assert checks[3] == PastDate(v, dateOf, now);
  }

  /** The fields of the appointment checks, and the outcome of those that
      only ask for a value. */
  lemma AppointmentCheckKeys(v: Form, dateOf: string -> Option<int>, now: int)
    ensures var checks := AppointmentChecks(v, dateOf, now);
            |checks| == 5 &&
            checks[0].0 == "patient_id" && checks[1].0 == "doctor_id" && checks[2].0 == "hospital_id" &&
            checks[3].0 == "appointment_date" && checks[4].0 == "reason" &&
            (checks[0].1.Some? <==> !Present(v, "patient_id")) && (checks[1].1.Some? <==> !Present(v, "doctor_id")) &&
            (checks[2].1.Some? <==> !Present(v, "hospital_id")) && (checks[4].1.Some? <==> !Present(v, "reason"))
  {
  }

  /** A date is "in the past" only when it is strictly before now. */
  lemma AppointmentNowIsNotPast(v: Form, dateOf: string -> Option<int>, now: int)
    requires Present(v, "appointment_date") && dateOf(Get(v, "appointment_date")) == Some(now)
    ensures "appointment_date" !in ValidateAppointment(v, dateOf, now)
    ensures ValidateAppointment(v, dateOf, now + 1)["appointment_date"] == "Appointment date cannot be in the past"
  {
    var checks := AppointmentChecks(v, dateOf, now + 1);
    assert checks[0].0 == "patient_id" && checks[1].0 == "doctor_id" && checks[2].0 == "hospital_id";
    assert checks[3].0 == "appointment_date" && checks[4].0 == "reason";
    CollectAt(checks, 3);
  }

  /** The fields of the emergency request form, each required, with its message. */
  const EmergencyFields := [("patient_id", "Patient information is required"), ("location", "Location is required"),
                            ("emergency_type", "Emergency type is required")]

  function ValidateEmergencyRequest(v: Form): (e: Errors)
    ensures ReportsMissing(v, EmergencyFields, e)
  {
    FieldsDistinct();
    CollectNeeds(v, EmergencyFields);
    Collect(Needs(v, EmergencyFields))
  }

  /** The fields of the pharmacy order form, each required, with its message. */
  const PharmacyOrderFields := [("patient_id", "Patient is required"), ("prescription_id", "Prescription is required"),
                                ("pharmacy_name", "Pharmacy name is required"),
                                ("delivery_address", "Delivery address is required")]

  function ValidatePharmacyOrder(v: Form): (e: Errors)
    ensures ReportsMissing(v, PharmacyOrderFields, e)
  {
    FieldsDistinct();
    CollectNeeds(v, PharmacyOrderFields);
    Collect(Needs(v, PharmacyOrderFields))
  }

  function ValidateForgotPassword(v: Form): (e: Errors)
    ensures forall k :: k in e <==> k == "email" && !EmailLike(Get(v, "email"))
    ensures "email" in e ==> e["email"] == if Present(v, "email") then "Email is invalid" else "Email is required"
  {
    CollectMessages([Email(v)]);
    Collect([Email(v)])
  }

  function ValidateResetPassword(v: Form): (e: Errors)
    ensures forall k :: k in e ==> k == "password" || k == "confirmPassword"
    ensures "password" in e <==> |Get(v, "password")| < 6
    ensures "confirmPassword" in e <==> !Present(v, "confirmPassword") || Get(v, "confirmPassword") != Get(v, "password")
    ensures "password" in e ==> e["password"] == if Present(v, "password") then "Password must be at least 6 characters"
                                                 else "New password is required"
    ensures "confirmPassword" in e ==> e["confirmPassword"] == if Present(v, "confirmPassword") then "Passwords do not match"
                                                               else "Please confirm your new password"
  {
    var checks := [MinLength(v, "password", 6, "New password is required", "Password must be at least 6 characters"),
                   Confirmation(v, "Please confirm your new password")];
    CollectAt(checks, 0);
    CollectAt(checks, 1);
    Collect(checks)
  }

  function ValidateProfile(v: Form): (e: Errors)
    ensures forall k :: k in e ==> k == "name" || k == "email"
    ensures "name" in e <==> !Present(v, "name")
    ensures "email" in e <==> !EmailLike(Get(v, "email"))
    ensures "name" in e ==> e["name"] == "Full name is required"
    ensures "email" in e ==> e["email"] == if Present(v, "email") then "Email is invalid" else "Email is required"
  {
    var checks := [Need(v, "name", "Full name is required"), Email(v)];
    assert checks[0].0 == "name" && checks[1].0 == "email";
    CollectMessages(checks);
    Collect(checks)
  }

  /** The reset form refuses the same confirmations as the registration
      form, and every form with an email refuses the same addresses. */
  lemma SharedRules(v: Form)
    ensures "confirmPassword" in ValidateResetPassword(v) <==> "confirmPassword" in ValidateRegistration(v)
    ensures "email" in ValidateForgotPassword(v) <==> "email" in ValidateRegistration(v)
    ensures "email" in ValidateProfile(v) <==> "email" in ValidateRegistration(v)
  {
    RegistrationConfirmAndEmail(v);
  }
}
