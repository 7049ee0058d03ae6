// The doctor's appointment list: a search term, a status filter and a date
// filter narrow the list in three stages; the page keeps per-status counts
// that it recomputes whenever an appointment is completed or cancelled.

module DoctorAppointments {
  import opened Common

  /** An appointment as the page lists it; the date is a day number. */
  datatype Appointment = Appointment(id: int, patientName: string, patientId: string, symptoms: string,
                                     date: int, status: string, treatmentNotes: string)

  const CompletedNote := "Appointment completed successfully"

  /** The search stage: patient name, patient id or symptoms contain the
      term, ignoring case; an empty term keeps everything. */
  function SearchStage(term: string): Appointment -> bool {
    (a: Appointment) =>
      term == "" || IncludesIgnoreCase(a.patientName, term) || IncludesIgnoreCase(a.patientId, term) ||
      IncludesIgnoreCase(a.symptoms, term)
  }

  /** The status stage: 'all' keeps everything, any other value is an exact
      match. */
  function StatusStage(status: string): Appointment -> bool {
    (a: Appointment) => status == "all" || a.status == status
  }

  /** The date stage: no date keeps everything, otherwise the same day. */
  function DateStage(date: Option<int>): Appointment -> bool {
    (a: Appointment) => date.None? || a.date == date.value
  }

  function SearchAndStatus(term: string, status: string): Appointment -> bool {
    (a: Appointment) => SearchStage(term)(a) && StatusStage(status)(a)
  }

  /** Whether an appointment passes all three filters. */
  predicate Keep(a: Appointment, term: string, status: string, date: Option<int>) {
    SearchStage(term)(a) && StatusStage(status)(a) && DateStage(date)(a)
  }

  /** The appointments that pass the filters, in list order. */
  function Filtered(apps: seq<Appointment>, term: string, status: string, date: Option<int>): seq<Appointment> {
    Filter(apps, (a: Appointment) => Keep(a, term, status, date))
  }

  /** applyFilters: starts from the whole list and narrows it stage by
      stage; a stage whose filter is unset is skipped. */
  method ApplyFilters(appointments: seq<Appointment>, term: string, status: string, date: Option<int>)
    returns (result: seq<Appointment>)
    ensures result == Filtered(appointments, term, status, date)
  {
    result := appointments;
    if term != "" {
      result := Filter(result, SearchStage(term));
    } else {
      FilterAll(appointments, SearchStage(term));
    }
    assert result == Filter(appointments, SearchStage(term));
    ghost var afterSearch := result;
    if status != "all" {
      result := Filter(result, StatusStage(status));
    } else {
      FilterAll(afterSearch, StatusStage(status));
    }
    FilterFilter(appointments, SearchStage(term), StatusStage(status), SearchAndStatus(term, status));
    assert result == Filter(appointments, SearchAndStatus(term, status));
    ghost var afterStatus := result;
    if date.Some? {
      result := Filter(result, DateStage(date));
    } else {
      FilterAll(afterStatus, DateStage(date));
    }
    FilterFilter(appointments, SearchAndStatus(term, status), DateStage(date),
                 (a: Appointment) => Keep(a, term, status, date));
  }

  /** The filtered list keeps the order of the appointments, and every
      appointment is in it when no filter is set. */
  lemma FilteredFacts(apps: seq<Appointment>, term: string, status: string, date: Option<int>)
    ensures Subseq(Filtered(apps, term, status, date), apps)
    ensures forall a :: a in Filtered(apps, term, status, date) <==>
              a in apps && (term == "" || IncludesIgnoreCase(a.patientName, term) ||
                            IncludesIgnoreCase(a.patientId, term) || IncludesIgnoreCase(a.symptoms, term)) &&
              (status == "all" || a.status == status) && (date.None? || a.date == date.value)
    ensures term == "" && status == "all" && date.None? ==> Filtered(apps, term, status, date) == apps
  {
    FilterIsSubseq(apps, (a: Appointment) => Keep(a, term, status, date));
    if term == "" && status == "all" && date.None? {
      FilterAll(apps, (a: Appointment) => Keep(a, term, status, date));
    }
  }

  function HasStatus(status: string): Appointment -> bool {
    (a: Appointment) => a.status == status
  }

  /** The number of appointments with this status. */
  function CountStatus(apps: seq<Appointment>, status: string): nat {
    |Filter(apps, HasStatus(status))|
  }

  datatype Stats = Stats(total: nat, completed: nat, pending: nat, cancelled: nat)

  /** The page's counts: the list's length and three per-status counts,
      which never add up to more than the total. */
  function StatsOf(apps: seq<Appointment>): (st: Stats)
    ensures st.total == |apps|
    ensures st.completed == CountStatus(apps, "completed") && st.pending == CountStatus(apps, "pending") &&
            st.cancelled == CountStatus(apps, "cancelled")
    ensures st.completed + st.pending + st.cancelled <= st.total
    ensures forall s :: s in {"completed", "pending", "cancelled"} ==> CountStatus(apps, s) <= st.total
  {
    FilterCountsDisjoint(apps, HasStatus("completed"), HasStatus("pending"), HasStatus("cancelled"));
    Stats(|apps|, CountStatus(apps, "completed"), CountStatus(apps, "pending"), CountStatus(apps, "cancelled"))
  }

  /** With no appointment of a status its count is zero, and with every
      appointment of it the count is the total. */
  lemma CountStatusExtremes(apps: seq<Appointment>, status: string)
    ensures (forall a :: a in apps ==> a.status != status) ==> CountStatus(apps, status) == 0
    ensures (forall a :: a in apps ==> a.status == status) ==> CountStatus(apps, status) == |apps|
  {
    if forall a :: a in apps ==> a.status != status {
      FilterNone(apps, HasStatus(status));
    }
    if forall a :: a in apps ==> a.status == status {
      FilterAll(apps, HasStatus(status));
    }
  }

  class AppointmentsPage {
    var appointments: seq<Appointment>
    var filtered: seq<Appointment>
    var searchTerm: string
    var filterStatus: string
    var filterDate: Option<int>
    var stats: Stats

    /** The counts shown agree with the appointment list. */
    predicate Valid()
      reads this
    {
      stats == StatsOf(appointments)
    }

    /** The page after loading: every appointment listed, no search, status
        'all', no date, and the counts of the loaded list. */
    constructor(loaded: seq<Appointment>)
      ensures appointments == loaded && filtered == loaded && Valid()
      ensures searchTerm == "" && filterStatus == "all" && filterDate.None?
    {
      appointments := loaded;
      filtered := loaded;
      searchTerm := "";
      filterStatus := "all";
      filterDate := None;
      stats := StatsOf(loaded);
    }

    /** The effect that re-runs the filters after the list or a filter
        changed. */
    method Refresh()
      modifies this
      ensures filtered == Filtered(appointments, searchTerm, filterStatus, filterDate)
      ensures appointments == old(appointments) && stats == old(stats)
      ensures searchTerm == old(searchTerm) && filterStatus == old(filterStatus) && filterDate == old(filterDate)
    {
      filtered := ApplyFilters(appointments, searchTerm, filterStatus, filterDate);
    }

    /** handleCompleteAppointment: the appointments with this id become
        'completed' with the fixed treatment note; the others are untouched
        and the counts are recomputed. */
    method Complete(id: int)
      modifies this
      ensures |appointments| == |old(appointments)|
      ensures forall i :: 0 <= i < |appointments| ==>
                appointments[i] == if old(appointments)[i].id == id
                                   then old(appointments)[i].(status := "completed", treatmentNotes := CompletedNote)
                                   else old(appointments)[i]
      ensures Valid() && stats.total == |old(appointments)|
      ensures filtered == old(filtered) && searchTerm == old(searchTerm)
      ensures filterStatus == old(filterStatus) && filterDate == old(filterDate)
    {
      var apps := appointments;
      appointments := seq(|apps|, i requires 0 <= i < |apps| =>
                            if apps[i].id == id then apps[i].(status := "completed", treatmentNotes := CompletedNote)
                            else apps[i]);
      stats := StatsOf(appointments);
    }

    /** handleCancelAppointment: the appointments with this id become
        'cancelled'; nothing else of them changes, the others are untouched
        and the counts are recomputed. */
    method Cancel(id: int)
      modifies this
      ensures |appointments| == |old(appointments)|
      ensures forall i :: 0 <= i < |appointments| ==>
                appointments[i] == if old(appointments)[i].id == id then old(appointments)[i].(status := "cancelled")
                                   else old(appointments)[i]
      ensures Valid() && stats.total == |old(appointments)|
      ensures filtered == old(filtered) && searchTerm == old(searchTerm)
      ensures filterStatus == old(filterStatus) && filterDate == old(filterDate)
    {
      var apps := appointments;
      appointments := seq(|apps|, i requires 0 <= i < |apps| =>
                            if apps[i].id == id then apps[i].(status := "cancelled") else apps[i]);
      stats := StatsOf(appointments);
    }
  }
}
