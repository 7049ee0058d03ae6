// The hospital's doctor list: a search over name and specialization, a
// department choice drawn from the departments that occur, and the badge
// for a doctor's status.

module HospitalDoctors {
  import opened Common

  datatype Doctor = Doctor(id: int, name: string, specialization: string, department: string, status: string)

  predicate Keep(d: Doctor, search: string, department: string) {
    (IncludesIgnoreCase(d.name, search) || IncludesIgnoreCase(d.specialization, search)) &&
    (department == "" || d.department == department)
  }

  /** filteredDoctors */
  function FilteredDoctors(ds: seq<Doctor>, search: string, department: string): seq<Doctor> {
    Filter(ds, (d: Doctor) => Keep(d, search, department))
  }

  /** A doctor is listed exactly when the name or specialization contains
      the search text (ignoring case) and the department is the chosen one
      or none is chosen; order is kept, and with no search and no
      department every doctor is listed. */
  lemma FilteredDoctorsFacts(ds: seq<Doctor>, search: string, department: string)
    ensures Subseq(FilteredDoctors(ds, search, department), ds)
    ensures forall d :: d in FilteredDoctors(ds, search, department) <==>
              d in ds && (IncludesIgnoreCase(d.name, search) || IncludesIgnoreCase(d.specialization, search)) &&
              (department == "" || d.department == department)
    ensures search == "" && department == "" ==> FilteredDoctors(ds, search, department) == ds
  {
    FilterIsSubseq(ds, (d: Doctor) => Keep(d, search, department));
    if search == "" && department == "" {
      forall d | d in ds ensures Keep(d, search, department) {
        IncludesIgnoreCaseEmpty(d.name);
      }
      FilterAll(ds, (d: Doctor) => Keep(d, search, department));
    }
  }

  /** The department choices: each department once, in order of first
      occurrence. */
  function Departments(ds: seq<Doctor>): seq<string> {
    DistinctColumn(ds, (d: Doctor) => d.department)
  }

  /** getStatusBadge: active and leave have their own badge; any other
      status is shown as it is, in grey. */
  function StatusBadge(status: string): (b: Badge)
    ensures status == "active" ==> b == Badge("Active", "badge-green")
    ensures status == "leave" ==> b == Badge("On Leave", "badge-yellow")
    ensures status != "active" && status != "leave" ==> b == Badge(status, "badge-gray")
  {
    if status == "active" then Badge("Active", "badge-green")
    else if status == "leave" then Badge("On Leave", "badge-yellow")
    else Badge(status, "badge-gray")
  }
}
