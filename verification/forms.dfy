/**
 * The "get form data / cleanse data" blocks of the create and update
 * handlers: a submitted form (field name to text) becomes the argument
 * tuple handed to the stored procedure. Reading a field the form does not
 * carry raises, which the handler turns into a flashed notice and a
 * redirect to the list view without calling the procedure; that outcome
 * is `None` here.
 */
module Forms {
  import opened Common
  import opened Fields

  type Form = map<string, string>

  /** `stored` is the phone number `raw` as the phone rule normalises it. */
  predicate PhoneRule(raw: string, stored: string) {
    if |raw| == 10 then IsDashedPhone(stored) && Undash(stored) == raw else stored == raw
  }

  /** `stored` is the state code `raw` with its letters upper-cased. */
  predicate StateRule(raw: string, stored: string) {
    NoLowerAscii(stored) && SameIgnoringCase(raw, stored)
  }

  /** `stored` is NULL exactly when `raw` is not an integer literal, and otherwise the integer it denotes. */
  predicate IntRule(raw: string, stored: Option<int>) {
    (stored.Some? <==> IsIntLiteral(raw)) && (stored.Some? ==> stored.value == LiteralValue(raw))
  }

  /** The coerced foreign key obeys the integer rule. */
  lemma ParseIntObeysRule(raw: string)
    ensures IntRule(raw, ParseInt(raw))
  {
    ParseIntCorrect(raw);
  }

  // ---------------------------------------------------------------------
  // Clinics
  // ---------------------------------------------------------------------

  datatype ClinicArgs = ClinicArgs(address: string, city: string, state: string, postalCode: string, phone: string)

  const ClinicFields: set<string> := {"address", "city", "state", "postalCode", "phoneNumber"}

  function ClinicArgsOf(form: Form): ClinicArgs
    requires ClinicFields <= form.Keys
  {
    ClinicArgs(form["address"], form["city"], Upper(form["state"]),
               form["postalCode"], FormatPhone(form["phoneNumber"]))
  }

  /** Arguments of `sp_insert_clinic`: the state upper-cased, the phone dashed when it has ten characters. */
  function CreateClinic(form: Form): (r: Option<ClinicArgs>)
    ensures r.Some? <==> ClinicFields <= form.Keys
    ensures r.Some? ==> StateRule(form["state"], r.value.state)
    ensures r.Some? ==> PhoneRule(form["phoneNumber"], r.value.phone)
    ensures r.Some? ==> r.value.address == form["address"] && r.value.city == form["city"]
                        && r.value.postalCode == form["postalCode"]
  {
    if ClinicFields <= form.Keys then Some(ClinicArgsOf(form)) else None
  }

  /** Arguments of `sp_update_clinic`: the clinic id as submitted, then the same normalisation as on creation. */
  function UpdateClinic(form: Form): (r: Option<(string, ClinicArgs)>)
    ensures r.Some? <==> {"clinicId"} + ClinicFields <= form.Keys
    ensures r.Some? ==> r.value.0 == form["clinicId"]
    ensures r.Some? ==> CreateClinic(form) == Some(r.value.1)
  {
    if {"clinicId"} + ClinicFields <= form.Keys then Some((form["clinicId"], ClinicArgsOf(form))) else None
  }

  // ---------------------------------------------------------------------
  // Patients
  // ---------------------------------------------------------------------

  datatype PatientArgs = PatientArgs(
    firstName: string, lastName: string, phone: string, email: string,
    dateOfBirth: Option<string>, gender: string, clinicId: Option<int>)

  const PatientFields: set<string> := {"firstName", "lastName", "phoneNumber", "email", "dateOfBirth", "gender", "clinic"}

  /** Arguments of `sp_insert_patient`: the phone rule, the primary clinic NULL unless an integer; the birth date is passed as typed. */
  function CreatePatient(form: Form): (r: Option<PatientArgs>)
    ensures r.Some? <==> PatientFields <= form.Keys
    ensures r.Some? ==> PhoneRule(form["phoneNumber"], r.value.phone)
    ensures r.Some? ==> IntRule(form["clinic"], r.value.clinicId)
    ensures r.Some? ==> r.value.dateOfBirth == Some(form["dateOfBirth"])
    ensures r.Some? ==> r.value.firstName == form["firstName"] && r.value.lastName == form["lastName"]
                        && r.value.email == form["email"] && r.value.gender == form["gender"]
  {
    if PatientFields <= form.Keys then
      ParseIntObeysRule(form["clinic"]);
      Some(PatientArgs(form["firstName"], form["lastName"], FormatPhone(form["phoneNumber"]),
                       form["email"], Some(form["dateOfBirth"]), form["gender"], ParseInt(form["clinic"])))
    else None
  }

  /** Arguments of `sp_update_patient`: as on creation, except that an empty birth date becomes NULL. */
  function UpdatePatient(form: Form): (r: Option<(string, PatientArgs)>)
    ensures r.Some? <==> {"patientId"} + PatientFields <= form.Keys
    ensures r.Some? ==> r.value.0 == form["patientId"]
    ensures r.Some? ==> (r.value.1.dateOfBirth.None? <==> form["dateOfBirth"] == "")
                        && (r.value.1.dateOfBirth.Some? ==> r.value.1.dateOfBirth.value == form["dateOfBirth"])
    ensures r.Some? ==> CreatePatient(form) == Some(r.value.1.(dateOfBirth := Some(form["dateOfBirth"])))
  {
    if {"patientId"} + PatientFields <= form.Keys then
      var created := CreatePatient(form).value;
      Some((form["patientId"], created.(dateOfBirth := BlankToNone(form["dateOfBirth"]))))
    else None
  }

  // ---------------------------------------------------------------------
  // Appointments
  // ---------------------------------------------------------------------

  datatype AppointmentUpdateArgs = AppointmentUpdateArgs(
    appointmentId: string, dateTime: Option<string>,
    clinicId: Option<int>, patientId: Option<int>, statusId: Option<int>)

  const AppointmentUpdateFields: set<string> := {"appointmentId", "dateTime", "clinicId", "patientId", "statusId"}

  /** Arguments of `sp_update_appointment`: an empty date-time and every non-integer key become NULL. */
  function UpdateAppointment(form: Form): (r: Option<AppointmentUpdateArgs>)
    ensures r.Some? <==> AppointmentUpdateFields <= form.Keys
    ensures r.Some? ==> r.value.appointmentId == form["appointmentId"]
    ensures r.Some? ==> (r.value.dateTime.None? <==> form["dateTime"] == "")
                        && (r.value.dateTime.Some? ==> r.value.dateTime.value == form["dateTime"])
    ensures r.Some? ==> IntRule(form["clinicId"], r.value.clinicId)
                        && IntRule(form["patientId"], r.value.patientId)
                        && IntRule(form["statusId"], r.value.statusId)
  {
    if AppointmentUpdateFields <= form.Keys then
      ParseIntObeysRule(form["clinicId"]);
      ParseIntObeysRule(form["patientId"]);
      ParseIntObeysRule(form["statusId"]);
      Some(AppointmentUpdateArgs(form["appointmentId"], BlankToNone(form["dateTime"]),
        ParseInt(form["clinicId"]), ParseInt(form["patientId"]), ParseInt(form["statusId"])))
    else None
  }

  // ---------------------------------------------------------------------
  // Scheduled tests (the AppointmentsTests link table)
  // ---------------------------------------------------------------------

  datatype ScheduledTestCreateArgs = ScheduledTestCreateArgs(appointmentId: string, testId: string, resultId: Option<string>)

  const ScheduledTestCreateFields: set<string> := {"appointmentId", "testId", "testResultId"}

  /** Arguments of `sp_insert_appointmenttest`: only the "Select a result" placeholder becomes NULL. */
  function CreateScheduledTest(form: Form): (r: Option<ScheduledTestCreateArgs>)
    ensures r.Some? <==> ScheduledTestCreateFields <= form.Keys
    ensures r.Some? ==> r.value.appointmentId == form["appointmentId"] && r.value.testId == form["testId"]
    ensures r.Some? ==> (r.value.resultId.None? <==> form["testResultId"] == NoResultChosen)
                        && (r.value.resultId.Some? ==> r.value.resultId.value == form["testResultId"])
  {
    if ScheduledTestCreateFields <= form.Keys then
      Some(ScheduledTestCreateArgs(form["appointmentId"], form["testId"], PlaceholderToNone(form["testResultId"])))
    else None
  }

  datatype ScheduledTestUpdateArgs = ScheduledTestUpdateArgs(
    appointmentTestId: string, appointmentId: Option<int>, testId: Option<int>, resultId: Option<int>)

  const ScheduledTestUpdateFields: set<string> := {"appointmentTestId", "appointmentId", "testId", "testResultId"}

  /** Arguments of `sp_update_appointmenttest`: every key that is not an integer becomes NULL. */
  function UpdateScheduledTest(form: Form): (r: Option<ScheduledTestUpdateArgs>)
    ensures r.Some? <==> ScheduledTestUpdateFields <= form.Keys
    ensures r.Some? ==> r.value.appointmentTestId == form["appointmentTestId"]
    ensures r.Some? ==> IntRule(form["appointmentId"], r.value.appointmentId)
                        && IntRule(form["testId"], r.value.testId)
                        && IntRule(form["testResultId"], r.value.resultId)
  {
    if ScheduledTestUpdateFields <= form.Keys then
      ParseIntObeysRule(form["appointmentId"]);
      ParseIntObeysRule(form["testId"]);
      ParseIntObeysRule(form["testResultId"]);
      Some(ScheduledTestUpdateArgs(form["appointmentTestId"],
        ParseInt(form["appointmentId"]), ParseInt(form["testId"]), ParseInt(form["testResultId"])))
    else None
  }

  /** Whichever form stores it, leaving the result drop-down at its placeholder stores NULL. */
  lemma PlaceholderResultIsNull(form: Form)
    requires ScheduledTestUpdateFields <= form.Keys && form["testResultId"] == NoResultChosen
    ensures CreateScheduledTest(form).Some? && CreateScheduledTest(form).value.resultId.None?
    ensures UpdateScheduledTest(form).Some? && UpdateScheduledTest(form).value.resultId.None?
  {
  }
}
