// The hospital's appointment list: a search over patient, doctor and
// patient id, then status, department and date-window filters applied one
// after the other; the status badge and the action offered for each status.

module HospitalAppointments {
  import opened Common

  /** An appointment as the page lists it; the date is a day number. */
  datatype Appointment = Appointment(id: int, patientName: string, patientId: string, doctorName: string,
                                     department: string, date: int, status: string)

  /** The filters; a date bound is a day, or null when unset. */
  datatype Filters = Filters(status: string, department: string, dateFrom: Option<int>, dateTo: Option<int>)

  const NoFilters := Filters("", "", None, None)

  function SearchStage(term: string): Appointment -> bool {
    (a: Appointment) =>
      term == "" || IncludesIgnoreCase(a.patientName, term) || IncludesIgnoreCase(a.doctorName, term) ||
      IncludesIgnoreCase(a.patientId, term)
  }

  function StatusStage(status: string): Appointment -> bool {
    (a: Appointment) => status == "" || a.status == status
  }

  function DepartmentStage(department: string): Appointment -> bool {
    (a: Appointment) => department == "" || a.department == department
  }

  /** From the start of the dateFrom day on. */
  function FromStage(from: Option<int>): Appointment -> bool {
    (a: Appointment) => from.None? || a.date >= from.value
  }

  /** Up to the end of the dateTo day. */
  function ToStage(to: Option<int>): Appointment -> bool {
    (a: Appointment) => to.None? || a.date <= to.value
  }

  function UpToStatus(term: string, f: Filters): Appointment -> bool {
    (a: Appointment) => SearchStage(term)(a) && StatusStage(f.status)(a)
  }

  function UpToDepartment(term: string, f: Filters): Appointment -> bool {
    (a: Appointment) => UpToStatus(term, f)(a) && DepartmentStage(f.department)(a)
  }

  function UpToFrom(term: string, f: Filters): Appointment -> bool {
    (a: Appointment) => UpToDepartment(term, f)(a) && FromStage(f.dateFrom)(a)
  }

  predicate Keep(a: Appointment, term: string, f: Filters) {
    UpToFrom(term, f)(a) && ToStage(f.dateTo)(a)
  }

  function Filtered(apps: seq<Appointment>, term: string, f: Filters): seq<Appointment> {
    Filter(apps, (a: Appointment) => Keep(a, term, f))
  }

  /** applyFilters: each set filter narrows the list in turn. */
  method ApplyFilters(appointments: seq<Appointment>, term: string, f: Filters) returns (filtered: seq<Appointment>)
    ensures filtered == Filtered(appointments, term, f)
  {
    filtered := appointments;
    if term != "" {
      filtered := Filter(filtered, SearchStage(term));
    } else {
      FilterAll(appointments, SearchStage(term));
    }
    ghost var before := filtered;
    if f.status != "" {
      filtered := Filter(filtered, StatusStage(f.status));
    }
    FilterStage(appointments, SearchStage(term), StatusStage(f.status), UpToStatus(term, f), before, filtered,
                f.status != "");
    before := filtered;
    if f.department != "" {
      filtered := Filter(filtered, DepartmentStage(f.department));
    }
    FilterStage(appointments, UpToStatus(term, f), DepartmentStage(f.department), UpToDepartment(term, f),
                before, filtered, f.department != "");
    before := filtered;
    if f.dateFrom.Some? {
      filtered := Filter(filtered, FromStage(f.dateFrom));
    }
    FilterStage(appointments, UpToDepartment(term, f), FromStage(f.dateFrom), UpToFrom(term, f), before,
                filtered, f.dateFrom.Some?);
    before := filtered;
    if f.dateTo.Some? {
      filtered := Filter(filtered, ToStage(f.dateTo));
    }
    FilterStage(appointments, UpToFrom(term, f), ToStage(f.dateTo), (a: Appointment) => Keep(a, term, f),
                before, filtered, f.dateTo.Some?);
  }

  /** The filtered list keeps the order of the appointments, lists one
      exactly when every set filter accepts it (the date between the two
      bounds, both days included), and is the whole list with no filter. */
  lemma FilteredFacts(apps: seq<Appointment>, term: string, f: Filters)
    ensures Subseq(Filtered(apps, term, f), apps)
    ensures forall a :: a in Filtered(apps, term, f) <==>
              a in apps &&
              (term == "" || IncludesIgnoreCase(a.patientName, term) || IncludesIgnoreCase(a.doctorName, term) ||
               IncludesIgnoreCase(a.patientId, term)) &&
              (f.status == "" || a.status == f.status) && (f.department == "" || a.department == f.department) &&
              (f.dateFrom.None? || f.dateFrom.value <= a.date) && (f.dateTo.None? || a.date <= f.dateTo.value)
    ensures term == "" && f == NoFilters ==> Filtered(apps, term, f) == apps
  {
    FilterIsSubseq(apps, (a: Appointment) => Keep(a, term, f));
    forall a
      ensures Keep(a, term, f) <==>
                (term == "" || IncludesIgnoreCase(a.patientName, term) || IncludesIgnoreCase(a.doctorName, term) ||
                 IncludesIgnoreCase(a.patientId, term)) &&
                (f.status == "" || a.status == f.status) && (f.department == "" || a.department == f.department) &&
                (f.dateFrom.None? || f.dateFrom.value <= a.date) && (f.dateTo.None? || a.date <= f.dateTo.value)
    {
      assert UpToFrom(term, f)(a) == (UpToDepartment(term, f)(a) && FromStage(f.dateFrom)(a));
      assert UpToDepartment(term, f)(a) == (UpToStatus(term, f)(a) && DepartmentStage(f.department)(a));
      assert UpToStatus(term, f)(a) == (SearchStage(term)(a) && StatusStage(f.status)(a));
    }
    if term == "" && f == NoFilters {
      FilterAll(apps, (a: Appointment) => Keep(a, term, f));
    }
  }

  /** departments: each department once, in order of first occurrence. */
  function Departments(apps: seq<Appointment>): seq<string> {
    DistinctColumn(apps, (a: Appointment) => a.department)
  }

  const KnownStatuses := ["confirmed", "pending", "in-progress", "completed", "cancelled"]

  /** getStatusBadge */
  function StatusBadge(status: string): (b: Badge)
    ensures status == "confirmed" ==> b == Badge("Confirmed", "badge-blue")
    ensures status == "pending" ==> b == Badge("Pending", "badge-yellow")
    ensures status == "in-progress" ==> b == Badge("In Progress", "badge-green")
    ensures status == "completed" ==> b == Badge("Completed", "badge-gray")
    ensures status == "cancelled" ==> b == Badge("Cancelled", "badge-red")
    ensures status !in KnownStatuses ==> b == Badge(status, "badge-gray")
  {
    if status == "confirmed" then Badge("Confirmed", "badge-blue")
    else if status == "pending" then Badge("Pending", "badge-yellow")
    else if status == "in-progress" then Badge("In Progress", "badge-green")
    else if status == "completed" then Badge("Completed", "badge-gray")
    else if status == "cancelled" then Badge("Cancelled", "badge-red")
    else Badge(status, "badge-gray")
  }

  /** The action offered for an appointment. */
  datatype Action = CheckIn | Complete | Confirm | ViewDetails(appointmentId: int)

  /** getActionButton: the buttons are for confirmed, in-progress and
      pending appointments; every other status links to the details. */
  function ActionFor(a: Appointment): (act: Action)
    ensures act == CheckIn <==> a.status == "confirmed"
    ensures act == Complete <==> a.status == "in-progress"
    ensures act == Confirm <==> a.status == "pending"
    ensures act.ViewDetails? <==> a.status !in {"confirmed", "in-progress", "pending"}
    ensures act.ViewDetails? ==> act.appointmentId == a.id
  {
    if a.status == "confirmed" then CheckIn
    else if a.status == "in-progress" then Complete
    else if a.status == "pending" then Confirm
    else ViewDetails(a.id)
  }

  /** The text of the action's button or link. */
  function ActionLabel(act: Action): string {
    match act
    case CheckIn => "Check In"
    case Complete => "Complete"
    case Confirm => "Confirm"
    case ViewDetails(_) => "View Details"
  }

  /** The text shown for an appointment follows its status, and only the
      details link, which every other status gets, reads "View Details". */
  lemma ActionButtonLabel(a: Appointment)
    ensures a.status == "confirmed" ==> ActionLabel(ActionFor(a)) == "Check In"
    ensures a.status == "in-progress" ==> ActionLabel(ActionFor(a)) == "Complete"
    ensures a.status == "pending" ==> ActionLabel(ActionFor(a)) == "Confirm"
    ensures ActionLabel(ActionFor(a)) == "View Details" <==> a.status !in {"confirmed", "in-progress", "pending"}
  {
  }

  /** Different known statuses get different badges. */
  lemma BadgeTextsDistinct(s: string, t: string)
    requires s in KnownStatuses && t in KnownStatuses && s != t
    ensures StatusBadge(s) != StatusBadge(t)
  {
  }

  class AppointmentsPage {
    var appointments: seq<Appointment>
    var filtered: seq<Appointment>
    var searchTerm: string
    var filters: Filters

    constructor(loaded: seq<Appointment>)
      ensures appointments == loaded && filtered == loaded && searchTerm == "" && filters == NoFilters
    {
      appointments := loaded;
      filtered := loaded;
      searchTerm := "";
      filters := NoFilters;
    }

    /** The effect that re-runs the filters. */
    method Refresh()
      modifies this
      ensures filtered == Filtered(appointments, searchTerm, filters)
      ensures appointments == old(appointments) && searchTerm == old(searchTerm) && filters == old(filters)
    {
      filtered := ApplyFilters(appointments, searchTerm, filters);
    }

    /** handleFilterChange for the status select. */
    method StatusChange(value: string)
      modifies this
      ensures filters == old(filters).(status := value)
      ensures appointments == old(appointments) && filtered == old(filtered) && searchTerm == old(searchTerm)
    {
      filters := filters.(status := value);
    }

    /** handleFilterChange for the department select. */
    method DepartmentChange(value: string)
      modifies this
      ensures filters == old(filters).(department := value)
      ensures appointments == old(appointments) && filtered == old(filtered) && searchTerm == old(searchTerm)
    {
      filters := filters.(department := value);
    }

    /** handleDateChange for the two date pickers. */
    method DateChange(from: bool, date: Option<int>)
      modifies this
      ensures filters == if from then old(filters).(dateFrom := date) else old(filters).(dateTo := date)
      ensures appointments == old(appointments) && filtered == old(filtered) && searchTerm == old(searchTerm)
    {
      if from {
        filters := filters.(dateFrom := date);
      } else {
        filters := filters.(dateTo := date);
      }
    }

    /** resetFilters: clears the four filters and the search, so the next
        filtering lists every appointment. */
    method ResetFilters()
      modifies this
      ensures filters == NoFilters && searchTerm == ""
      ensures appointments == old(appointments) && filtered == old(filtered)
      ensures Filtered(appointments, searchTerm, filters) == appointments
    {
      filters := NoFilters;
      searchTerm := "";
      FilteredFacts(appointments, searchTerm, filters);
    }
  }
}
