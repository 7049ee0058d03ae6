// The Express backend's route handlers over an in-memory store. Each table
// of the database is a sequence field of the Store; a row's serial id is its
// position plus one. Every handler is one atomic step: the result of the
// token middleware comes in as a Gate, the handler answers with a status
// code and either a value or an error message, and changes only the tables
// it writes.

module Backend {
  import opened Common
  import opened Access
  import Tally

  datatype Response<T> = Ok(status: nat, value: T) | Err(status: nat, error: string)

  /** The answer of a handler stopped by a middleware or a check. */
  function Refuse<T>(d: Denial): Response<T> {
    Err(d.status, d.message)
  }

  // ---------------------------------------------------------------------
  // Rows

  datatype User = User(userId: int, username: string, passwordHash: string, email: string,
                       patientId: Option<int>, doctorId: Option<int>)
  datatype UserRole = UserRole(userId: int, roleName: Option<string>)
  datatype Patient = Patient(patientId: int, name: string, dateOfBirth: int, gender: string,
                             contactNumber: string, email: string, medicalId: string)
  datatype Doctor = Doctor(doctorId: int, name: string, hospitalId: Option<int>)
  datatype Appointment = Appointment(appointmentId: int, patientId: int, doctorId: int, hospitalId: int,
                                     date: int, reason: string, isTeleconsultation: bool, status: string)
  /** An empty diagnosis stands for a null one. */
  datatype Record = Record(recordId: int, patientId: int, hospitalId: Option<int>, doctorId: Option<int>,
                           diagnosis: string, treatment: string, notes: string,
                           followUpDate: Option<int>, uploadedBy: string)
  /** An empty medication name stands for a null one. */
  datatype Prescription = Prescription(prescriptionId: int, recordId: Option<int>, patientId: int,
                                       doctorId: Option<int>, medicationName: string, dosage: string,
                                       frequency: string, duration: string, instructions: string)
  /** A row of emergency_requests; `status` is `None` where the column is NULL. */
  datatype Emergency = Emergency(requestId: int, patientId: int, location: string, coordinates: string,
                                 emergencyType: string, notes: string, status: Option<string>,
                                 respondedBy: Option<int>)
  datatype PharmacyOrder = PharmacyOrder(orderId: int, patientId: int, prescriptionId: int,
                                         pharmacyName: string, deliveryAddress: string)

  /** All tables at once, to say which of them a handler leaves alone. */
  datatype Tables = Tables(users: seq<User>, userRoles: seq<UserRole>, patients: seq<Patient>,
                           doctors: seq<Doctor>, appointments: seq<Appointment>, records: seq<Record>,
                           prescriptions: seq<Prescription>, emergencies: seq<Emergency>,
                           orders: seq<PharmacyOrder>)

  // ---------------------------------------------------------------------
  // Request bodies and answers

  datatype Registration = Registration(username: string, password: string, email: string, name: string,
                                       dateOfBirth: int, gender: string, contactNumber: string,
                                       role: Option<string>)
  datatype Registered = Registered(message: string, medicalId: Option<string>)
  datatype SessionUser = SessionUser(id: int, username: string, email: string, role: Option<string>,
                                     patientId: Option<int>, doctorId: Option<int>)
  datatype Session = Session(token: string, user: SessionUser)
  datatype RecordRequest = RecordRequest(patientId: int, diagnosis: string, treatment: string,
                                         notes: string, followUpDate: Option<int>)
  datatype AppointmentRequest = AppointmentRequest(patientId: int, doctorId: int, hospitalId: int,
                                                   date: int, reason: string, isTeleconsultation: bool)
  datatype PrescriptionRequest = PrescriptionRequest(patientId: int, recordId: Option<int>,
                                                     medicationName: string, dosage: string,
                                                     frequency: string, duration: string,
                                                     instructions: string)
  datatype EmergencyRequest = EmergencyRequest(patientId: int, location: string, coordinates: string,
                                               emergencyType: string, notes: string)
  datatype OrderRequest = OrderRequest(patientId: int, prescriptionId: int, pharmacyName: string,
                                       deliveryAddress: string)
  /** Which query the search route runs; NoQuery answers with the rows of
      an empty array, that is with no body at all. */
  datatype SearchQuery = PatientQuery(keyword: string) | DoctorQuery(keyword: string)
                       | RecordQuery(keyword: string) | NoQuery
  datatype Statistics = Statistics(recordCount: nat, prescriptionCount: nat,
                                   commonDiagnoses: seq<Tally.Entry>,
                                   commonMedications: seq<Tally.Entry>)

  const InvalidLogin := "Invalid username or password"
  const DuplicateUser := "Username or email already exists"
  const DoctorBusy := "Doctor is not available at this time"
  const CannotModify := "Not authorized to modify this appointment"

  /** The status the appointments and emergency_requests tables give a new
      row (the inserts do not set one). */
  const InitialStatus := "pending"

  /** 'MED' + Math.floor(100000 + Math.random() * 900000), with the drawn
      integer as n. */
  function MedicalId(n: nat): string {
    "MED" + NatToString(n)
  }

  lemma MedicalIdShape(n: nat)
    requires 100000 <= n <= 999999
    ensures |MedicalId(n)| == 9 && MedicalId(n)[..3] == "MED"
    ensures forall i :: 3 <= i < 9 ==> IsDigit(MedicalId(n)[i])
  {
    assert Pow10(5) == 100000 by {
      assert Pow10(1) == 10;
      assert Pow10(2) == 100;
      assert Pow10(3) == 1000;
      assert Pow10(4) == 10000;
    }
    NatToStringLength(n, 5);
    assert MedicalId(n)[3..] == NatToString(n);
  }

  /** No two appointments of one doctor at the same time. */
  predicate NoDoubleBooking(s: seq<Appointment>) {
    forall i, j :: 0 <= i < j < |s| ==> !(s[i].doctorId == s[j].doctorId && s[i].date == s[j].date)
  }

  /** `if (status)`, `if (appointment_date)`: a field of the PATCH body is
      applied only when it is present and non-empty. */
  function Patched(a: Appointment, status: Option<string>, date: Option<int>): (b: Appointment)
    ensures b.appointmentId == a.appointmentId && b.patientId == a.patientId && b.doctorId == a.doctorId
    ensures b.status == (if status.Some? && status.value != "" then status.value else a.status)
    ensures b.date == (if date.Some? then date.value else a.date)
    ensures b.hospitalId == a.hospitalId && b.reason == a.reason && b.isTeleconsultation == a.isTeleconsultation
  {
    var a1 := if status.Some? && status.value != "" then a.(status := status.value) else a;
    if date.Some? then a1.(date := date.value) else a1
  }

  /** PATCH does not look for a clash: whatever the table, moving
      appointment k onto the time of another appointment j of the same
      doctor leaves the table with a double booking, whether or not the
      status changes too. */
  lemma PatchCanDoubleBook(s: seq<Appointment>, j: nat, k: nat, status: Option<string>)
    requires j < |s| && k < |s| && j != k
    requires s[j].doctorId == s[k].doctorId
    ensures !NoDoubleBooking(s[k := Patched(s[k], status, Some(s[j].date))])
  {
    var t := s[k := Patched(s[k], status, Some(s[j].date))];
    assert t[j] == s[j];
    assert t[k].doctorId == t[j].doctorId && t[k].date == t[j].date;
  }

  /** The diagnoses (medication names) that count in the statistics: the
      non-empty ones, in row order. */
  function Diagnoses(rs: seq<Record>): (r: seq<string>)
    ensures forall d :: d in r <==> d != "" && exists x :: x in rs && x.diagnosis == d
    ensures "" !in r
    ensures forall d :: d != "" ==> multiset(r)[d] == |Filter(rs, (x: Record) => x.diagnosis == d)|
  {
    if rs == [] then []
    else (if rs[0].diagnosis != "" then [rs[0].diagnosis] else []) + Diagnoses(rs[1..])
  }

  function Medications(ps: seq<Prescription>): (r: seq<string>)
    ensures forall m :: m in r <==> m != "" && exists x :: x in ps && x.medicationName == m
    ensures "" !in r
    ensures forall m :: m != "" ==> multiset(r)[m] == |Filter(ps, (x: Prescription) => x.medicationName == m)|
  {
    if ps == [] then []
    else (if ps[0].medicationName != "" then [ps[0].medicationName] else []) + Medications(ps[1..])
  }

  /** The gate of a self-service route: authenticated, and not a patient
      acting for another patient. */
  function SelfService(auth: Gate, target: int, message: string): (g: Gate)
    ensures g.Pass? <==> auth.Pass? && !ActsForOtherPatient(auth.claims, target)
    ensures auth.Deny? ==> g == auth
    ensures auth.Pass? && ActsForOtherPatient(auth.claims, target) ==> g == Deny(Denial(403, message))
    ensures g.Pass? ==> g == auth
  {
    match auth
    case Deny(d) => Deny(d)
    case Pass(c) => if ActsForOtherPatient(c, target) then Deny(Denial(403, message)) else Pass(c)
  }

  class Store {
    var users: seq<User>
    var userRoles: seq<UserRole>
    var patients: seq<Patient>
    var doctors: seq<Doctor>
    var appointments: seq<Appointment>
    var records: seq<Record>
    var prescriptions: seq<Prescription>
    var emergencies: seq<Emergency>
    var orders: seq<PharmacyOrder>

    function Snapshot(): Tables
      reads this
    {
      Tables(users, userRoles, patients, doctors, appointments, records, prescriptions, emergencies, orders)
    }

    /** Serial ids, unique usernames and emails, at most one role per user. */
    ghost predicate Valid()
      reads this
    {
      UsersValid() && SerialIds()
    }

    ghost predicate UsersValid()
      reads this
    {
      (forall i :: 0 <= i < |users| ==> users[i].userId == i + 1) &&
      (forall i, j :: 0 <= i < j < |users| ==>
         users[i].username != users[j].username && users[i].email != users[j].email) &&
      (forall i, j :: 0 <= i < j < |userRoles| ==> userRoles[i].userId != userRoles[j].userId) &&
      (forall i :: 0 <= i < |userRoles| ==> 1 <= userRoles[i].userId <= |users|)
    }

    ghost predicate SerialIds()
      reads this
    {
      (forall i :: 0 <= i < |patients| ==> patients[i].patientId == i + 1) &&
      (forall i :: 0 <= i < |appointments| ==> appointments[i].appointmentId == i + 1) &&
      (forall i :: 0 <= i < |records| ==> records[i].recordId == i + 1) &&
      (forall i :: 0 <= i < |prescriptions| ==> prescriptions[i].prescriptionId == i + 1) &&
      (forall i :: 0 <= i < |emergencies| ==> emergencies[i].requestId == i + 1) &&
      (forall i :: 0 <= i < |orders| ==> orders[i].orderId == i + 1)
    }

    constructor (doctors: seq<Doctor>)
      ensures Valid()
      ensures Snapshot() == Tables([], [], [], doctors, [], [], [], [], [])
    {
      users := [];
      userRoles := [];
      patients := [];
      this.doctors := doctors;
      appointments := [];
      records := [];
      prescriptions := [];
      emergencies := [];
      orders := [];
    }

    // -------------------------------------------------------------------
    // Login and registration

    /** The role of the LEFT JOIN on user_roles: null without a role row. */
    function RoleOf(userId: int): (role: Option<string>)
      reads this
      ensures role.Some? ==> exists r :: r in userRoles && r.userId == userId && r.roleName == role
    {
      var k := FirstWhere(userRoles, (r: UserRole) => r.userId == userId);
      if k < |userRoles| then userRoles[k].roleName else None
    }

    function ClaimsOf(u: User): Claims
      reads this
    {
      Claims(u.userId, u.username, RoleOf(u.userId), u.patientId, u.doctorId)
    }

    /** POST /api/auth/login. `compare` is bcrypt.compare and `sign` is
        jwt.sign with the server's secret. */
    function Login(username: string, password: string, compare: (string, string) -> bool,
                   sign: Claims -> string): (r: Response<Session>)
      reads this
      ensures r.Err? ==> r == Err(401, InvalidLogin)
      ensures r.Ok? ==> exists i :: 0 <= i < |users| && users[i].username == username &&
                          compare(password, users[i].passwordHash) &&
                          r == Ok(200, Session(sign(ClaimsOf(users[i])),
                                               SessionUser(users[i].userId, username, users[i].email,
                                                           RoleOf(users[i].userId), users[i].patientId,
                                                           users[i].doctorId)))
    {
      var k := FirstWhere(users, (u: User) => u.username == username);
      if k == |users| then Err(401, InvalidLogin)
      else
        var u := users[k];
        if !compare(password, u.passwordHash) then Err(401, InvalidLogin)
        else Ok(200, Session(sign(ClaimsOf(u)),
                             SessionUser(u.userId, u.username, u.email, RoleOf(u.userId), u.patientId, u.doctorId)))
    }

    /** With unique usernames, login succeeds iff the user exists and the
        password matches the stored hash; an unknown user and a wrong
        password get the same answer. */
    lemma LoginCases(username: string, password: string, compare: (string, string) -> bool,
                     sign: Claims -> string)
      requires Valid()
      ensures Login(username, password, compare, sign).Ok? <==>
                exists u :: u in users && u.username == username && compare(password, u.passwordHash)
      ensures (forall u :: u in users ==> u.username != username) ==>
                Login(username, password, compare, sign) == Err(401, InvalidLogin)
      ensures (forall u :: u in users && u.username == username ==> !compare(password, u.passwordHash)) ==>
                Login(username, password, compare, sign) == Err(401, InvalidLogin)
    {
      var k := FirstWhere(users, (u: User) => u.username == username);
      if u :| u in users && u.username == username && compare(password, u.passwordHash) {
        var i :| 0 <= i < |users| && users[i] == u;
        assert k <= i;
      }
    }

    predicate Taken(username: string, email: string)
      reads this
    {
      exists u :: u in users && (u.username == username || u.email == email)
    }

    /** POST /api/auth/register. `n` is the drawn medical-id number and
        `passwordHash` the bcrypt hash of the password. */
    method Register(req: Registration, n: nat, passwordHash: string) returns (r: Response<Registered>)
      requires Valid()
      requires 100000 <= n <= 999999
      modifies this
      ensures Valid()
      ensures old(Taken(req.username, req.email)) ==>
                r == Err(400, DuplicateUser) && Snapshot() == old(Snapshot())
      ensures !old(Taken(req.username, req.email)) ==>
                var patientId := if req.role == Some("patient") then Some(|old(patients)| + 1) else None;
                r == Ok(201, Registered("User registered successfully",
                                        if req.role == Some("patient") then Some(MedicalId(n)) else None)) &&
                users == old(users) + [User(|old(users)| + 1, req.username, passwordHash, req.email, patientId, None)] &&
                userRoles == old(userRoles) + [UserRole(|old(users)| + 1, req.role)] &&
                patients == (if req.role == Some("patient")
                             then old(patients) + [Patient(|old(patients)| + 1, req.name, req.dateOfBirth, req.gender,
                                                           req.contactNumber, req.email, MedicalId(n))]
                             else old(patients)) &&
                Snapshot() == old(Snapshot()).(users := users, userRoles := userRoles, patients := patients)
    {
      if Taken(req.username, req.email) {
        return Err(400, DuplicateUser);
      }
      var medicalId: Option<string> := None;
      var patientId: Option<int> := None;
      if req.role == Some("patient") {
        medicalId := Some(MedicalId(n));
        var id := |patients| + 1;
        patients := patients + [Patient(id, req.name, req.dateOfBirth, req.gender, req.contactNumber, req.email, medicalId.value)];
        patientId := Some(id);
      }
      var userId := |users| + 1;
      users := users + [User(userId, req.username, passwordHash, req.email, patientId, None)];
      userRoles := userRoles + [UserRole(userId, req.role)];
      r := Ok(201, Registered("User registered successfully", medicalId));
    }

    // -------------------------------------------------------------------
    // Reads

    /** GET /api/patients/:medical_id, open to anyone. The rows of the
        joined records are not modelled; the answer lists the patients. */
    function PatientsByMedicalId(medicalId: string): (r: seq<Patient>)
      reads this
      ensures forall p :: p in r <==> p in patients && p.medicalId == medicalId
      ensures Subseq(r, patients)
    {
      FilterIsSubseq(patients, (p: Patient) => p.medicalId == medicalId);
      Filter(patients, (p: Patient) => p.medicalId == medicalId)
    }

    /** GET /api/patients/:patient_id/records (the ORDER BY is not modelled). */
    function PatientRecords(auth: Gate, patientId: int): (r: Response<seq<Record>>)
      reads this
      ensures r.Err? <==> auth.Deny? || ActsForOtherPatient(auth.claims, patientId)
      ensures auth.Pass? && r.Err? ==> r == Err(403, "Not authorized to view these records")
      ensures r.Ok? ==> r.status == 200 && forall x :: x in r.value <==> x in records && x.patientId == patientId
    {
      match SelfService(auth, patientId, "Not authorized to view these records")
      case Deny(d) => Refuse(d)
      case Pass(_) => Ok(200, Filter(records, (x: Record) => x.patientId == patientId))
    }

    /** GET /api/patients/:patient_id/prescriptions. */
    function PatientPrescriptions(auth: Gate, patientId: int): (r: Response<seq<Prescription>>)
      reads this
      ensures r.Err? <==> auth.Deny? || ActsForOtherPatient(auth.claims, patientId)
      ensures auth.Pass? && r.Err? ==> r == Err(403, "Not authorized to view these prescriptions")
      ensures r.Ok? ==> r.status == 200 && forall x :: x in r.value <==> x in prescriptions && x.patientId == patientId
    {
      match SelfService(auth, patientId, "Not authorized to view these prescriptions")
      case Deny(d) => Refuse(d)
      case Pass(_) => Ok(200, Filter(prescriptions, (x: Prescription) => x.patientId == patientId))
    }

    /** GET /api/patients/:patient_id/appointments. */
    function PatientAppointments(auth: Gate, patientId: int): (r: Response<seq<Appointment>>)
      reads this
      ensures r.Err? <==> auth.Deny? || ActsForOtherPatient(auth.claims, patientId)
      ensures auth.Pass? && r.Err? ==> r == Err(403, "Not authorized to view these appointments")
      ensures r.Ok? ==> r.status == 200 && forall x :: x in r.value <==> x in appointments && x.patientId == patientId
    {
      match SelfService(auth, patientId, "Not authorized to view these appointments")
      case Deny(d) => Refuse(d)
      case Pass(_) => Ok(200, Filter(appointments, (x: Appointment) => x.patientId == patientId))
    }

    /** GET /api/emergency/active for admin and staff: the pending and
        dispatched requests of patients that exist (an inner join). */
    function ActiveEmergencies(auth: Gate): (r: Response<seq<Emergency>>)
      reads this
      ensures r.Err? <==> Admit(auth, EmergencyResponders).Deny?
      ensures r.Ok? ==> r.status == 200 && forall e :: e in r.value <==>
                e in emergencies && (e.status == Some("pending") || e.status == Some("dispatched")) &&
                exists p :: p in patients && p.patientId == e.patientId
    {
      var ps := patients;
      match Admit(auth, EmergencyResponders)
      case Deny(d) => Refuse(d)
      case Pass(_) =>
        Ok(200, Filter(emergencies, (e: Emergency) =>
          (e.status == Some("pending") || e.status == Some("dispatched")) && exists p :: p in ps && p.patientId == e.patientId))
    }

    /** GET /api/pharmacy/orders/:patient_id: the patient's orders whose
        prescription exists (an inner join). */
    function PatientOrders(auth: Gate, patientId: int): (r: Response<seq<PharmacyOrder>>)
      reads this
      ensures r.Err? <==> auth.Deny? || ActsForOtherPatient(auth.claims, patientId)
      ensures auth.Pass? && r.Err? ==> r == Err(403, "Not authorized to view orders for this patient")
      ensures r.Ok? ==> r.status == 200 && forall o :: o in r.value <==>
                o in orders && o.patientId == patientId &&
                exists q :: q in prescriptions && q.prescriptionId == o.prescriptionId
    {
      var qs := prescriptions;
      match SelfService(auth, patientId, "Not authorized to view orders for this patient")
      case Deny(d) => Refuse(d)
      case Pass(_) =>
        Ok(200, Filter(orders, (o: PharmacyOrder) =>
          o.patientId == patientId && exists q :: q in qs && q.prescriptionId == o.prescriptionId))
    }

    /** GET /api/search for doctors, admins and staff: which query runs. */
    function Search(auth: Gate, kind: Option<string>, keyword: Option<string>): (r: Response<SearchQuery>)
      ensures r.Err? <==> Admit(auth, Searchers).Deny?
      ensures r.Ok? && r.value != NoQuery ==> keyword.Some? && keyword.value != "" && r.value.keyword == keyword.value
      ensures r.Ok? && r.value.PatientQuery? ==> kind == Some("patient")
      ensures r.Ok? && r.value.DoctorQuery? ==> kind == Some("doctor")
      ensures r.Ok? && r.value.RecordQuery? ==> kind == Some("record")
      ensures r.Ok? && keyword.Some? && keyword.value != "" && kind in {Some("patient"), Some("doctor"), Some("record")} ==>
                r.value != NoQuery
    {
      match Admit(auth, Searchers)
      case Deny(d) => Refuse(d)
      case Pass(_) =>
        if keyword.None? || keyword.value == "" then Ok(200, NoQuery)
        else if kind == Some("patient") then Ok(200, PatientQuery(keyword.value))
        else if kind == Some("doctor") then Ok(200, DoctorQuery(keyword.value))
        else if kind == Some("record") then Ok(200, RecordQuery(keyword.value))
        else Ok(200, NoQuery)
    }

    /** GET /api/statistics/patient/:patient_id. */
    method PatientStatistics(auth: Gate, patientId: int) returns (r: Response<Statistics>)
      ensures r.Err? <==> auth.Deny? || ActsForOtherPatient(auth.claims, patientId)
      ensures auth.Pass? && r.Err? ==> r == Err(403, "Not authorized to view statistics for this patient")
      ensures r.Ok? ==>
                var rs := Filter(records, (x: Record) => x.patientId == patientId);
                var ps := Filter(prescriptions, (x: Prescription) => x.patientId == patientId);
                r.status == 200 &&
                r.value.recordCount == |rs| && r.value.prescriptionCount == |ps| &&
                r.value.commonDiagnoses == Tally.Top(Diagnoses(rs)) &&
                r.value.commonMedications == Tally.Top(Medications(ps)) &&
                |r.value.commonDiagnoses| <= 5 && |r.value.commonMedications| <= 5 &&
                (forall i :: 0 <= i < |r.value.commonDiagnoses| ==>
                   r.value.commonDiagnoses[i].0 != "" &&
                   r.value.commonDiagnoses[i].1 == multiset(Diagnoses(rs))[r.value.commonDiagnoses[i].0]) &&
                (forall i :: 0 <= i < |r.value.commonMedications| ==>
                   r.value.commonMedications[i].0 != "" &&
                   r.value.commonMedications[i].1 == multiset(Medications(ps))[r.value.commonMedications[i].0]) &&
                Tally.Ordered(r.value.commonDiagnoses, Diagnoses(rs)) &&
                Tally.Ordered(r.value.commonMedications, Medications(ps))
    {
      match SelfService(auth, patientId, "Not authorized to view statistics for this patient")
      case Deny(d) =>
        r := Refuse(d);
      case Pass(_) =>
        var rs := Filter(records, (x: Record) => x.patientId == patientId);
        var ps := Filter(prescriptions, (x: Prescription) => x.patientId == patientId);
        var diagnoses := Tally.CommonValues(Diagnoses(rs));
        var medications := Tally.CommonValues(Medications(ps));
        r := Ok(200, Statistics(|rs|, |ps|, diagnoses, medications));
    }

    // -------------------------------------------------------------------
    // Writes

    /** The hospital of the caller's doctor row, looked up only when the
        claim carries a (truthy) doctor id. */
    function HospitalOf(doctorId: Option<int>): Option<int>
      reads this
    {
      if doctorId.None? || doctorId.value == 0 then None
      else
        var k := FirstWhere(doctors, (d: Doctor) => d.doctorId == doctorId.value);
        if k < |doctors| then doctors[k].hospitalId else None
    }

    /** POST /api/records for doctors and admins. */
    method CreateRecord(auth: Gate, req: RecordRequest) returns (r: Response<string>)
      requires Valid()
      modifies this
      ensures Valid()
      ensures Admit(auth, RecordWriters).Deny? ==>
                r == Refuse(Admit(auth, RecordWriters).denial) && Snapshot() == old(Snapshot())
      ensures Admit(auth, RecordWriters).Pass? ==>
                var c := auth.claims;
                r == Ok(201, "Record created successfully") &&
                records == old(records) + [Record(|old(records)| + 1, req.patientId, old(HospitalOf(c.doctorId)),
                                                  c.doctorId, req.diagnosis, req.treatment, req.notes,
                                                  req.followUpDate, c.username)] &&
                Snapshot() == old(Snapshot()).(records := records)
    {
      match Admit(auth, RecordWriters)
      case Deny(d) =>
        r := Refuse(d);
      case Pass(c) =>
        var hospitalId := HospitalOf(c.doctorId);
        records := records + [Record(|records| + 1, req.patientId, hospitalId, c.doctorId, req.diagnosis,
                                     req.treatment, req.notes, req.followUpDate, c.username)];
        r := Ok(201, "Record created successfully");
    }

    predicate Conflict(doctorId: int, date: int)
      reads this
    {
      exists a :: a in appointments && a.doctorId == doctorId && a.date == date
    }

    /** POST /api/appointments: refused when the doctor already has an
        appointment at that time, whatever its status. */
    method BookAppointment(auth: Gate, req: AppointmentRequest) returns (r: Response<string>)
      requires Valid()
      modifies this
      ensures Valid()
      ensures NoDoubleBooking(old(appointments)) ==> NoDoubleBooking(appointments)
      ensures SelfService(auth, req.patientId, "Not authorized to create appointments for this patient").Deny? ==>
                r == Refuse(SelfService(auth, req.patientId, "Not authorized to create appointments for this patient").denial) &&
                Snapshot() == old(Snapshot())
      ensures SelfService(auth, req.patientId, "Not authorized to create appointments for this patient").Pass? &&
              old(Conflict(req.doctorId, req.date)) ==>
                r == Err(400, DoctorBusy) && Snapshot() == old(Snapshot())
      ensures SelfService(auth, req.patientId, "Not authorized to create appointments for this patient").Pass? &&
              !old(Conflict(req.doctorId, req.date)) ==>
                r == Ok(201, "Appointment scheduled successfully") &&
                appointments == old(appointments) + [Appointment(|old(appointments)| + 1, req.patientId, req.doctorId,
                                                                 req.hospitalId, req.date, req.reason,
                                                                 req.isTeleconsultation, InitialStatus)] &&
                Snapshot() == old(Snapshot()).(appointments := appointments)
    {
      match SelfService(auth, req.patientId, "Not authorized to create appointments for this patient")
      case Deny(d) =>
        r := Refuse(d);
      case Pass(_) =>
        if Conflict(req.doctorId, req.date) {
          r := Err(400, DoctorBusy);
        } else {
          var a := Appointment(|appointments| + 1, req.patientId, req.doctorId, req.hospitalId, req.date,
                               req.reason, req.isTeleconsultation, InitialStatus);
          appointments := appointments + [a];
          r := Ok(201, "Appointment scheduled successfully");
        }
    }

    /** PATCH /api/appointments/:appointment_id. The checks run in order:
        existence, the patient's ownership, the doctor's assignment, and a
        non-empty update. The new date is not checked for a clash: the
        new table is the old one with row k patched, which PatchCanDoubleBook
        shows can hold a double booking. */
    method PatchAppointment(auth: Gate, appointmentId: int, status: Option<string>, date: Option<int>)
      returns (r: Response<string>)
      requires Valid()
      modifies this
      ensures Valid()
      ensures auth.Deny? ==> r == Refuse(auth.denial) && Snapshot() == old(Snapshot())
      ensures auth.Pass? ==>
                var c := auth.claims;
                var k := FirstWhere(old(appointments), (a: Appointment) => a.appointmentId == appointmentId);
                if k == |old(appointments)| then
                  r == Err(404, "Appointment not found") && Snapshot() == old(Snapshot())
                else
                  var a := old(appointments)[k];
                  if ActsForOtherPatient(c, a.patientId) ||
                     (c.role == Some("doctor") && c.doctorId != Some(a.doctorId)) then
                    r == Err(403, CannotModify) && Snapshot() == old(Snapshot())
                  else if (status.None? || status.value == "") && date.None? then
                    r == Err(400, "No fields to update") && Snapshot() == old(Snapshot())
                  else
                    r == Ok(200, "Appointment updated successfully") &&
                    appointments == old(appointments)[k := Patched(a, status, date)] &&
                    Snapshot() == old(Snapshot()).(appointments := appointments)
    {
      match auth
      case Deny(d) =>
        r := Refuse(d);
      case Pass(c) =>
        var k := FirstWhere(appointments, (a: Appointment) => a.appointmentId == appointmentId);
        if k == |appointments| {
          r := Err(404, "Appointment not found");
          return;
        }
        var a := appointments[k];
        if ActsForOtherPatient(c, a.patientId) {
          r := Err(403, CannotModify);
          return;
        }
        if c.role == Some("doctor") && c.doctorId != Some(a.doctorId) {
          r := Err(403, CannotModify);
          return;
        }
        if (status.None? || status.value == "") && date.None? {
          r := Err(400, "No fields to update");
          return;
        }
        appointments := appointments[k := Patched(a, status, date)];
        r := Ok(200, "Appointment updated successfully");
    }

    /** POST /api/prescriptions for doctors and admins; the prescribing
        doctor is the caller's doctor id. */
    method CreatePrescription(auth: Gate, req: PrescriptionRequest) returns (r: Response<string>)
      requires Valid()
      modifies this
      ensures Valid()
      ensures Admit(auth, PrescriptionWriters).Deny? ==>
                r == Refuse(Admit(auth, PrescriptionWriters).denial) && Snapshot() == old(Snapshot())
      ensures Admit(auth, PrescriptionWriters).Pass? ==>
                r == Ok(201, "Prescription created successfully") &&
                prescriptions == old(prescriptions) +
                  [Prescription(|old(prescriptions)| + 1, req.recordId, req.patientId, auth.claims.doctorId,
                                req.medicationName, req.dosage, req.frequency, req.duration, req.instructions)] &&
                Snapshot() == old(Snapshot()).(prescriptions := prescriptions)
    {
      match Admit(auth, PrescriptionWriters)
      case Deny(d) =>
        r := Refuse(d);
      case Pass(c) =>
        prescriptions := prescriptions +
          [Prescription(|prescriptions| + 1, req.recordId, req.patientId, c.doctorId, req.medicationName,
                        req.dosage, req.frequency, req.duration, req.instructions)];
        r := Ok(201, "Prescription created successfully");
    }

    /** POST /api/emergency. */
    method CreateEmergency(auth: Gate, req: EmergencyRequest) returns (r: Response<string>)
      requires Valid()
      modifies this
      ensures Valid()
      ensures SelfService(auth, req.patientId, "Not authorized to request emergency services for this patient").Deny? ==>
                r == Refuse(SelfService(auth, req.patientId, "Not authorized to request emergency services for this patient").denial) &&
                Snapshot() == old(Snapshot())
      ensures SelfService(auth, req.patientId, "Not authorized to request emergency services for this patient").Pass? ==>
                r == Ok(201, "Emergency request sent successfully") &&
                emergencies == old(emergencies) +
                  [Emergency(|old(emergencies)| + 1, req.patientId, req.location, req.coordinates,
                             req.emergencyType, req.notes, Some(InitialStatus), None)] &&
                Snapshot() == old(Snapshot()).(emergencies := emergencies)
    {
      match SelfService(auth, req.patientId, "Not authorized to request emergency services for this patient")
      case Deny(d) =>
        r := Refuse(d);
      case Pass(_) =>
        emergencies := emergencies +
          [Emergency(|emergencies| + 1, req.patientId, req.location, req.coordinates, req.emergencyType,
                     req.notes, Some(InitialStatus), None)];
        r := Ok(201, "Emergency request sent successfully");
    }

    /** PATCH /api/emergency/:request_id for admin and staff: sets status
        and responder on the matching request, and answers 200 even when
        no request matches. A field missing from the body is stored as
        NULL (`None`), so a body without a status clears it. */
    method PatchEmergency(auth: Gate, requestId: int, status: Option<string>, respondedBy: Option<int>)
      returns (r: Response<string>)
      requires Valid()
      modifies this
      ensures Valid()
      ensures Admit(auth, EmergencyResponders).Deny? ==>
                r == Refuse(Admit(auth, EmergencyResponders).denial) && Snapshot() == old(Snapshot())
      ensures Admit(auth, EmergencyResponders).Pass? ==>
                r == Ok(200, "Emergency request updated successfully") &&
                |emergencies| == |old(emergencies)| &&
                (forall i :: 0 <= i < |emergencies| ==>
                   emergencies[i] == if old(emergencies)[i].requestId == requestId
                                     then old(emergencies)[i].(status := status, respondedBy := respondedBy)
                                     else old(emergencies)[i]) &&
                Snapshot() == old(Snapshot()).(emergencies := emergencies)
    {
      match Admit(auth, EmergencyResponders)
      case Deny(d) =>
        r := Refuse(d);
      case Pass(_) =>
        var old_ := emergencies;
        emergencies := seq(|old_|, i requires 0 <= i < |old_| =>
          if old_[i].requestId == requestId then old_[i].(status := status, respondedBy := respondedBy) else old_[i]);
        r := Ok(200, "Emergency request updated successfully");
    }

    /** POST /api/pharmacy/orders. */
    method CreateOrder(auth: Gate, req: OrderRequest) returns (r: Response<string>)
      requires Valid()
      modifies this
      ensures Valid()
      ensures SelfService(auth, req.patientId, "Not authorized to place orders for this patient").Deny? ==>
                r == Refuse(SelfService(auth, req.patientId, "Not authorized to place orders for this patient").denial) &&
                Snapshot() == old(Snapshot())
      ensures SelfService(auth, req.patientId, "Not authorized to place orders for this patient").Pass? ==>
                r == Ok(201, "Order placed successfully") &&
                orders == old(orders) + [PharmacyOrder(|old(orders)| + 1, req.patientId, req.prescriptionId,
                                                       req.pharmacyName, req.deliveryAddress)] &&
                Snapshot() == old(Snapshot()).(orders := orders)
    {
      match SelfService(auth, req.patientId, "Not authorized to place orders for this patient")
      case Deny(d) =>
        r := Refuse(d);
      case Pass(_) =>
        orders := orders + [PharmacyOrder(|orders| + 1, req.patientId, req.prescriptionId, req.pharmacyName,
                                          req.deliveryAddress)];
        r := Ok(201, "Order placed successfully");
    }
  }
}
