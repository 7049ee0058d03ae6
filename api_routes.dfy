// The Python API's hospital, doctor and patient routes over an in-memory
// store: each table is a sequence field of the Store, and a row's id, which
// the database assigns on commit, is its position plus one.

module ApiRoutes {
  import opened Common

  datatype Hospital = Hospital(id: int, name: string, address: string, phone: Option<string>)
  datatype Doctor = Doctor(id: int, firstName: string, lastName: Option<string>, specialization: string,
                           hospitalId: int)
  datatype Patient = Patient(id: int, firstName: string, lastName: Option<string>, medicalId: string,
                             phone: Option<string>, email: Option<string>)

  datatype HospitalCreate = HospitalCreate(name: string, address: string, phone: Option<string>)
  datatype DoctorCreate = DoctorCreate(firstName: string, lastName: Option<string>, specialization: string,
                                       hospitalId: int)
  /** The patient request also accepts an age and a gender, which the
      patients table has no column for. */
  datatype PatientCreate = PatientCreate(firstName: string, lastName: Option<string>, medicalId: string,
                                         phone: Option<string>, email: Option<string>, age: Option<int>,
                                         gender: Option<string>)

  /** A handler's answer: the stored row, or an HTTPException. */
  datatype Response<T> = Ok(value: T) | HttpError(status: nat, detail: string)

  const HospitalNotFound := "Hospital not found"
  const MedicalIdExists := "Medical ID already exists"

  /** The request schema admits medical ids of 6 to 20 characters. */
  predicate MedicalIdLength(medicalId: string) {
    6 <= |medicalId| <= 20
  }

  class Store {
    var hospitals: seq<Hospital>
    var doctors: seq<Doctor>
    var patients: seq<Patient>

    /** Serial ids; every doctor's hospital exists (the foreign key); the
        medical ids are unique (the column's unique constraint) and of
        the length the schema admits. */
    ghost predicate Valid()
      reads this
    {
      (forall i :: 0 <= i < |hospitals| ==> hospitals[i].id == i + 1) &&
      (forall i :: 0 <= i < |doctors| ==> doctors[i].id == i + 1) &&
      (forall i :: 0 <= i < |patients| ==> patients[i].id == i + 1) &&
      (forall i :: 0 <= i < |doctors| ==> HospitalExists(doctors[i].hospitalId)) &&
      (forall i, j :: 0 <= i < j < |patients| ==> patients[i].medicalId != patients[j].medicalId) &&
      (forall i :: 0 <= i < |patients| ==> MedicalIdLength(patients[i].medicalId))
    }

    constructor ()
      ensures Valid()
      ensures hospitals == [] && doctors == [] && patients == []
    {
      hospitals := [];
      doctors := [];
      patients := [];
    }

    /** The query for the hospital with that id finds a row. */
    predicate HospitalExists(id: int)
      reads this
    {
      exists h :: h in hospitals && h.id == id
    }

    /** The query for a patient with that medical id finds a row. */
    predicate MedicalIdTaken(medicalId: string)
      reads this
    {
      exists p :: p in patients && p.medicalId == medicalId
    }

    /** create_hospital: stores one hospital with the given fields. */
    method CreateHospital(req: HospitalCreate) returns (r: Response<Hospital>)
      requires Valid()
      modifies this
      ensures Valid()
      ensures r == Ok(Hospital(|old(hospitals)| + 1, req.name, req.address, req.phone))
      ensures hospitals == old(hospitals) + [r.value]
      ensures doctors == old(doctors) && patients == old(patients)
    {
      var h := Hospital(|hospitals| + 1, req.name, req.address, req.phone);
      hospitals := hospitals + [h];
      r := Ok(h);
      assert forall i :: 0 <= i < |doctors| ==> old(HospitalExists(doctors[i].hospitalId)) ==> HospitalExists(doctors[i].hospitalId);
    }

    /** create_doctor: 404 "Hospital not found" and nothing stored when no
        hospital has the id; otherwise stores one doctor with the given
        fields. */
    method CreateDoctor(req: DoctorCreate) returns (r: Response<Doctor>)
      requires Valid()
      modifies this
      ensures Valid()
      ensures !old(HospitalExists(req.hospitalId)) ==>
                r == HttpError(404, HospitalNotFound) && hospitals == old(hospitals) && doctors == old(doctors) &&
                patients == old(patients)
      ensures old(HospitalExists(req.hospitalId)) ==>
                r == Ok(Doctor(|old(doctors)| + 1, req.firstName, req.lastName, req.specialization, req.hospitalId)) &&
                doctors == old(doctors) + [r.value] && hospitals == old(hospitals) && patients == old(patients)
    {
      if !HospitalExists(req.hospitalId) {
        return HttpError(404, HospitalNotFound);
      }
      var d := Doctor(|doctors| + 1, req.firstName, req.lastName, req.specialization, req.hospitalId);
      doctors := doctors + [d];
      r := Ok(d);
    }

    /** create_patient: 400 "Medical ID already exists" and nothing stored
        when a patient has the medical id; otherwise stores one patient with
        the given fields, the age and gender being dropped. */
    method CreatePatient(req: PatientCreate) returns (r: Response<Patient>)
      requires Valid()
      requires MedicalIdLength(req.medicalId)
      modifies this
      ensures Valid()
      ensures old(MedicalIdTaken(req.medicalId)) ==>
                r == HttpError(400, MedicalIdExists) && hospitals == old(hospitals) && doctors == old(doctors) &&
                patients == old(patients)
      ensures !old(MedicalIdTaken(req.medicalId)) ==>
                r == Ok(Patient(|old(patients)| + 1, req.firstName, req.lastName, req.medicalId, req.phone,
                                req.email)) &&
                patients == old(patients) + [r.value] && hospitals == old(hospitals) && doctors == old(doctors)
    {
      if MedicalIdTaken(req.medicalId) {
        return HttpError(400, MedicalIdExists);
      }
      var p := Patient(|patients| + 1, req.firstName, req.lastName, req.medicalId, req.phone, req.email);
      assert forall i :: 0 <= i < |patients| ==> patients[i].medicalId != req.medicalId by {
        forall i | 0 <= i < |patients| ensures patients[i].medicalId != req.medicalId {
          assert patients[i] in patients;
        }
      }
      patients := patients + [p];
      r := Ok(p);
    }

    /** get_hospitals: every stored hospital, in table order. */
    function GetHospitals(): (r: seq<Hospital>)
      reads this
      ensures |r| == |hospitals| && forall h :: h in r <==> h in hospitals
      ensures multiset(r) == multiset(hospitals)
    {
      hospitals
    }

    /** get_doctors: every stored doctor, in table order. */
    function GetDoctors(): (r: seq<Doctor>)
      reads this
      ensures |r| == |doctors| && forall d :: d in r <==> d in doctors
      ensures multiset(r) == multiset(doctors)
    {
      doctors
    }

    /** get_patients: every stored patient, in table order. */
    function GetPatients(): (r: seq<Patient>)
      reads this
      ensures |r| == |patients| && forall p :: p in r <==> p in patients
      ensures multiset(r) == multiset(patients)
    {
      patients
    }

    /** In a valid store a medical id names at most one patient, and every
        listed doctor works at a listed hospital. */
    lemma ValidStoreFacts(medicalId: string)
      requires Valid()
      ensures forall p, q :: p in GetPatients() && q in GetPatients() && p.medicalId == q.medicalId ==> p == q
      ensures forall d :: d in GetDoctors() ==> exists h :: h in GetHospitals() && h.id == d.hospitalId
    {
      forall p, q | p in patients && q in patients && p.medicalId == q.medicalId ensures p == q {
        var i :| 0 <= i < |patients| && patients[i] == p;
        var j :| 0 <= j < |patients| && patients[j] == q;
        assert i == j || patients[i].medicalId != patients[j].medicalId;
      }
      forall d | d in doctors ensures HospitalExists(d.hospitalId) {
        var i :| 0 <= i < |doctors| && doctors[i] == d;
      }
    }
  }
}
