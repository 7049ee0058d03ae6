// The doctor's prescription list: counts of the prescriptions written
// today, in the last week and in the last month, the five most prescribed
// medications, and a search plus time-range and medication filters kept in
// a filter object whose keys the page's selects overwrite.

module DoctorPrescriptions {
  import opened Common
  import Tally

  /** A prescription as the page lists it; the date is a day number. */
  datatype Prescription = Prescription(id: int, patientName: string, medication: string, diagnosis: string,
                                       date: int)

  /** The medication of each prescription, in order. */
  function MedicationsOf(ps: seq<Prescription>): seq<string> {
    Column(ps, (p: Prescription) => p.medication)
  }

  datatype Stats = Stats(total: nat, thisMonth: nat, thisWeek: nat, today: nat,
                         commonMedications: seq<Tally.Entry>)

  function OnDay(day: int): Prescription -> bool {
    (p: Prescription) => p.date == day
  }

  function Since(day: int): Prescription -> bool {
    (p: Prescription) => p.date >= day
  }

  /** calculateStats: the total, the prescriptions dated today, those dated
      no earlier than a week ago and those no earlier than a month ago, and
      the five most frequent medications with their counts. `oneMonthAgo`
      is the day the calendar gives for the same date a month back. */
  method CalculateStats(ps: seq<Prescription>, today: int, oneMonthAgo: int) returns (st: Stats)
    ensures st.total == |ps|
    ensures st.today == |Filter(ps, OnDay(today))|
    ensures st.thisWeek == |Filter(ps, Since(today - 7))|
    ensures st.thisMonth == |Filter(ps, Since(oneMonthAgo))|
    ensures st.commonMedications == Tally.Top(MedicationsOf(ps))
    ensures |st.commonMedications| <= 5
    ensures Tally.Ordered(st.commonMedications, MedicationsOf(ps))
    ensures forall i :: 0 <= i < |st.commonMedications| ==>
              st.commonMedications[i].1 == multiset(MedicationsOf(ps))[st.commonMedications[i].0]
  {
    var top := Tally.CommonValues(MedicationsOf(ps));
    st := Stats(|ps|, |Filter(ps, Since(oneMonthAgo))|, |Filter(ps, Since(today - 7))|, |Filter(ps, OnDay(today))|,
                top);
  }

  /** Since a month back is at least a week back, the counts are nested:
      today <= this week <= this month <= total. */
  lemma StatsNested(ps: seq<Prescription>, today: int, oneMonthAgo: int)
    requires oneMonthAgo <= today - 7
    ensures |Filter(ps, OnDay(today))| <= |Filter(ps, Since(today - 7))|
    ensures |Filter(ps, Since(today - 7))| <= |Filter(ps, Since(oneMonthAgo))|
    ensures |Filter(ps, Since(oneMonthAgo))| <= |ps|
  {
    FilterCountMonotone(ps, OnDay(today), Since(today - 7));
    FilterCountMonotone(ps, Since(today - 7), Since(oneMonthAgo));
  }

  /** filters.key, undefined when the key is missing. */
  function Get(filters: map<string, string>, key: string): Option<string> {
    if key in filters then Some(filters[key]) else None
  }

  const InitialFilters := map["timeRange" := "all", "medicationType" := "all", "patientType" := "all"]

  function SearchStage(term: string): Prescription -> bool {
    (p: Prescription) =>
      term == "" || IncludesIgnoreCase(p.patientName, term) || IncludesIgnoreCase(p.medication, term) ||
      IncludesIgnoreCase(p.diagnosis, term)
  }

  /** The time-range stage: 'today', 'week' and 'month' keep the
      prescriptions dated on or after their cut-off; any other value
      (including 'all' and a missing key) keeps everything. */
  function TimeStage(range: Option<string>, today: int, oneMonthAgo: int): Prescription -> bool {
    (p: Prescription) =>
      if range == Some("today") then p.date == today
      else if range == Some("week") then p.date >= today - 7
      else if range == Some("month") then p.date >= oneMonthAgo
      else true
  }

  /** The medication stage: 'all' keeps everything; any other value, or a
      missing key (undefined), keeps exactly the prescriptions of that
      medication. */
  function MedicationStage(kind: Option<string>): Prescription -> bool {
    (p: Prescription) => kind == Some("all") || (kind.Some? && p.medication == kind.value)
  }

  function SearchAndTime(term: string, range: Option<string>, today: int, oneMonthAgo: int): Prescription -> bool {
    (p: Prescription) => SearchStage(term)(p) && TimeStage(range, today, oneMonthAgo)(p)
  }

  predicate Keep(p: Prescription, term: string, filters: map<string, string>, today: int, oneMonthAgo: int) {
    SearchStage(term)(p) && TimeStage(Get(filters, "timeRange"), today, oneMonthAgo)(p) &&
    MedicationStage(Get(filters, "medicationType"))(p)
  }

  function Filtered(ps: seq<Prescription>, term: string, filters: map<string, string>, today: int,
                    oneMonthAgo: int): seq<Prescription> {
    Filter(ps, (p: Prescription) => Keep(p, term, filters, today, oneMonthAgo))
  }

  /** applyFilters: the search, then the time range when it is not 'all',
      then the medication when it is not 'all'. */
  method ApplyFilters(ps: seq<Prescription>, term: string, filters: map<string, string>, today: int,
                      oneMonthAgo: int) returns (result: seq<Prescription>)
    ensures result == Filtered(ps, term, filters, today, oneMonthAgo)
  {
    var range := Get(filters, "timeRange");
    var kind := Get(filters, "medicationType");
    result := ps;
    if term != "" {
      result := Filter(result, SearchStage(term));
    } else {
      FilterAll(ps, SearchStage(term));
    }
    ghost var afterSearch := result;
    if range != Some("all") && range == Some("today") {
      result := Filter(result, OnDay(today));
      FilterExt(afterSearch, TimeStage(range, today, oneMonthAgo), OnDay(today));
    } else if range != Some("all") && range == Some("week") {
      result := Filter(result, Since(today - 7));
      FilterExt(afterSearch, TimeStage(range, today, oneMonthAgo), Since(today - 7));
    } else if range != Some("all") && range == Some("month") {
      result := Filter(result, Since(oneMonthAgo));
      FilterExt(afterSearch, TimeStage(range, today, oneMonthAgo), Since(oneMonthAgo));
    } else {
      FilterAll(afterSearch, TimeStage(range, today, oneMonthAgo));
    }
    FilterFilter(ps, SearchStage(term), TimeStage(range, today, oneMonthAgo), SearchAndTime(term, range, today, oneMonthAgo));
    assert result == Filter(ps, SearchAndTime(term, range, today, oneMonthAgo));
    ghost var afterTime := result;
    if kind != Some("all") {
      result := Filter(result, MedicationStage(kind));
    } else {
      FilterAll(afterTime, MedicationStage(kind));
    }
    FilterFilter(ps, SearchAndTime(term, range, today, oneMonthAgo), MedicationStage(kind),
                 (p: Prescription) => Keep(p, term, filters, today, oneMonthAgo));
  }

  /** A prescription is listed exactly when the term is in its patient,
      medication or diagnosis, it is inside the time range and it is of the
      chosen medication; order is kept. */
  lemma FilteredFacts(ps: seq<Prescription>, term: string, filters: map<string, string>, today: int,
                      oneMonthAgo: int)
    ensures Subseq(Filtered(ps, term, filters, today, oneMonthAgo), ps)
    ensures forall p :: p in Filtered(ps, term, filters, today, oneMonthAgo) <==>
              p in ps && (term == "" || IncludesIgnoreCase(p.patientName, term) ||
                          IncludesIgnoreCase(p.medication, term) || IncludesIgnoreCase(p.diagnosis, term)) &&
              TimeStage(Get(filters, "timeRange"), today, oneMonthAgo)(p) &&
              (Get(filters, "medicationType") == Some("all") ||
               Get(filters, "medicationType") == Some(p.medication))
    ensures term == "" && filters == InitialFilters ==> Filtered(ps, term, filters, today, oneMonthAgo) == ps
  {
    FilterIsSubseq(ps, (p: Prescription) => Keep(p, term, filters, today, oneMonthAgo));
    if term == "" && filters == InitialFilters {
      FilterAll(ps, (p: Prescription) => Keep(p, term, filters, today, oneMonthAgo));
    }
  }

  /** Only the timeRange and medicationType keys are read: setting any
      other key (patientType, or the sortBy key the sort select adds) never
      changes the list. */
  lemma OtherKeysIgnored(ps: seq<Prescription>, term: string, filters: map<string, string>, key: string,
                         value: string, today: int, oneMonthAgo: int)
    requires key != "timeRange" && key != "medicationType"
    ensures Filtered(ps, term, filters[key := value], today, oneMonthAgo) == Filtered(ps, term, filters, today, oneMonthAgo)
  {
    assert Get(filters[key := value], "timeRange") == Get(filters, "timeRange");
    assert Get(filters[key := value], "medicationType") == Get(filters, "medicationType");
    FilterExt(ps, (p: Prescription) => Keep(p, term, filters[key := value], today, oneMonthAgo),
              (p: Prescription) => Keep(p, term, filters, today, oneMonthAgo));
  }

  /** uniqueMedications: each prescribed medication once, in the order of
      first prescription. */
  function UniqueMedications(ps: seq<Prescription>): seq<string> {
    DistinctColumn(ps, (p: Prescription) => p.medication)
  }

  class PrescriptionsPage {
    var prescriptions: seq<Prescription>
    var filtered: seq<Prescription>
    var searchTerm: string
    var filters: map<string, string>
    var stats: Stats

    /** The page after loading: every prescription listed and the stats of
        the loaded list. */
    constructor(loaded: seq<Prescription>, today: int, oneMonthAgo: int)
      ensures prescriptions == loaded && filtered == loaded && searchTerm == "" && filters == InitialFilters
      ensures stats.total == |loaded| && stats.today == |Filter(loaded, OnDay(today))|
      ensures stats.thisWeek == |Filter(loaded, Since(today - 7))|
      ensures stats.thisMonth == |Filter(loaded, Since(oneMonthAgo))|
      ensures stats.commonMedications == Tally.Top(MedicationsOf(loaded))
    {
      var st := CalculateStats(loaded, today, oneMonthAgo);
      prescriptions := loaded;
      filtered := loaded;
      searchTerm := "";
      filters := InitialFilters;
      stats := st;
    }

    /** handleFilterChange: overwrites one key of the filter object. */
    method FilterChange(key: string, value: string)
      modifies this
      ensures filters == old(filters)[key := value]
      ensures prescriptions == old(prescriptions) && filtered == old(filtered)
      ensures searchTerm == old(searchTerm) && stats == old(stats)
    {
      filters := filters[key := value];
    }

    /** The effect that re-runs the filters. */
    method Refresh(today: int, oneMonthAgo: int)
      modifies this
      ensures filtered == Filtered(prescriptions, searchTerm, filters, today, oneMonthAgo)
      ensures prescriptions == old(prescriptions) && filters == old(filters)
      ensures searchTerm == old(searchTerm) && stats == old(stats)
    {
      filtered := ApplyFilters(prescriptions, searchTerm, filters, today, oneMonthAgo);
    }
  }
}
