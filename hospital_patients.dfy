// The hospital's patient list: a search over name, email and phone, then
// gender, age-range and department filters applied one after the other;
// the department choices are the departments that occur.

module HospitalPatients {
  import opened Common
  import opened JsNumbers

  datatype Patient = Patient(id: int, name: string, email: string, phone: string, age: int, gender: string,
                             department: string)

  datatype Filters = Filters(gender: string, ageRange: string, department: string)

  datatype FilterName = Gender | AgeRange | Department

  const NoFilters := Filters("", "", "")

  function SetFilter(f: Filters, name: FilterName, value: string): Filters {
    match name
    case Gender => f.(gender := value)
    case AgeRange => f.(ageRange := value)
    case Department => f.(department := value)
  }

  /** The search: name or email contains the term ignoring case, or the
      unchanged phone contains the lower-cased term. */
  function SearchStage(term: string): Patient -> bool {
    (p: Patient) =>
      term == "" || IncludesIgnoreCase(p.name, term) || IncludesIgnoreCase(p.email, term) ||
      Includes(p.phone, Lower(term))
  }

  function GenderStage(gender: string): Patient -> bool {
    (p: Patient) => gender == "" || p.gender == gender
  }

  /** The age test: the age is at least the lower bound, and at most the
      upper bound when that bound is truthy (not 0, NaN or missing). */
  predicate MatchesAge(age: int, range: string) {
    range == "" ||
    var (lo, hi) := RangeBounds(range);
    lo.Num? && age >= lo.value && (Truthy(hi) ==> age <= hi.value)
  }

  function AgeStage(range: string): Patient -> bool {
    (p: Patient) => MatchesAge(p.age, range)
  }

  function DepartmentStage(department: string): Patient -> bool {
    (p: Patient) => department == "" || p.department == department
  }

  function UpToGender(term: string, f: Filters): Patient -> bool {
    (p: Patient) => SearchStage(term)(p) && GenderStage(f.gender)(p)
  }

  function UpToAge(term: string, f: Filters): Patient -> bool {
    (p: Patient) => UpToGender(term, f)(p) && AgeStage(f.ageRange)(p)
  }

  predicate Keep(p: Patient, term: string, f: Filters) {
    UpToAge(term, f)(p) && DepartmentStage(f.department)(p)
  }

  function Filtered(ps: seq<Patient>, term: string, f: Filters): seq<Patient> {
    Filter(ps, (p: Patient) => Keep(p, term, f))
  }

  /** applyFilters: each set filter narrows the list in turn. */
  method ApplyFilters(patients: seq<Patient>, term: string, f: Filters) returns (filtered: seq<Patient>)
    ensures filtered == Filtered(patients, term, f)
  {
    filtered := patients;
    if term != "" {
      filtered := Filter(filtered, SearchStage(term));
    } else {
      FilterAll(patients, SearchStage(term));
    }
    ghost var before := filtered;
    if f.gender != "" {
      filtered := Filter(filtered, GenderStage(f.gender));
    }
    FilterStage(patients, SearchStage(term), GenderStage(f.gender), UpToGender(term, f), before, filtered,
                f.gender != "");
    before := filtered;
    if f.ageRange != "" {
      filtered := Filter(filtered, AgeStage(f.ageRange));
    }
    FilterStage(patients, UpToGender(term, f), AgeStage(f.ageRange), UpToAge(term, f), before, filtered,
                f.ageRange != "");
    before := filtered;
    if f.department != "" {
      filtered := Filter(filtered, DepartmentStage(f.department));
    }
    FilterStage(patients, UpToAge(term, f), DepartmentStage(f.department), (p: Patient) => Keep(p, term, f),
                before, filtered, f.department != "");
  }

  /** The filtered list keeps the patients' order, lists a patient exactly
      when every set filter accepts them, and is the whole list when no
      filter is set. */
  lemma FilteredFacts(ps: seq<Patient>, term: string, f: Filters)
    ensures Subseq(Filtered(ps, term, f), ps)
    ensures forall p :: p in Filtered(ps, term, f) <==>
              p in ps &&
              (term == "" || IncludesIgnoreCase(p.name, term) || IncludesIgnoreCase(p.email, term) ||
               Includes(p.phone, Lower(term))) &&
              (f.gender == "" || p.gender == f.gender) && MatchesAge(p.age, f.ageRange) &&
              (f.department == "" || p.department == f.department)
    ensures term == "" && f == NoFilters ==> Filtered(ps, term, f) == ps
  {
    FilterIsSubseq(ps, (p: Patient) => Keep(p, term, f));
    forall p ensures Keep(p, term, f) <==>
                      (term == "" || IncludesIgnoreCase(p.name, term) || IncludesIgnoreCase(p.email, term) ||
                       Includes(p.phone, Lower(term))) &&
                      (f.gender == "" || p.gender == f.gender) && MatchesAge(p.age, f.ageRange) &&
                      (f.department == "" || p.department == f.department)
    {
      assert UpToAge(term, f)(p) == (UpToGender(term, f)(p) && AgeStage(f.ageRange)(p));
      assert UpToGender(term, f)(p) == (SearchStage(term)(p) && GenderStage(f.gender)(p));
      assert AgeStage(f.ageRange)(p) == MatchesAge(p.age, f.ageRange);
    }
    if term == "" && f == NoFilters {
      FilterAll(ps, (p: Patient) => Keep(p, term, f));
    }
  }

  /** "a-b" keeps a <= age <= b when b is not 0; "a-" parses its upper
      bound as 0, which is falsy, so it keeps every age from a up. */
  lemma AgeRanges(a: nat, b: nat, age: int)
    ensures b != 0 ==> (MatchesAge(age, NatToString(a) + "-" + NatToString(b)) <==> a <= age <= b)
    ensures MatchesAge(age, NatToString(a) + "-") <==> a <= age
  {
    RangeOfTwoNumbers(a, b);
    RangeOpenEnded(a);
  }

  /** The page's "61+" option, written "61-", has no upper limit. */
  lemma SixtyOnePlus(age: int)
    ensures MatchesAge(age, "61-") <==> 61 <= age
  {
    assert NatToString(61) == "61" by {
      assert 61 / 10 == 6 && 61 % 10 == 1;
    }
    OpenEndedOption(61, "61-", age);
  }

  lemma OpenEndedOption(a: nat, option: string, age: int)
    requires NatToString(a) + "-" == option
    ensures MatchesAge(age, option) <==> a <= age
  {
    AgeRanges(a, 1, age);
  }

  /** departments: each department once, in order of first occurrence. */
  function Departments(ps: seq<Patient>): seq<string> {
    DistinctColumn(ps, (p: Patient) => p.department)
  }

  class PatientsPage {
    var patients: seq<Patient>
    var filtered: seq<Patient>
    var searchTerm: string
    var filters: Filters

    constructor(loaded: seq<Patient>)
      ensures patients == loaded && filtered == loaded && searchTerm == "" && filters == NoFilters
    {
      patients := loaded;
      filtered := loaded;
      searchTerm := "";
      filters := NoFilters;
    }

    /** The effect that re-runs the filters. */
    method Refresh()
      modifies this
      ensures filtered == Filtered(patients, searchTerm, filters)
      ensures patients == old(patients) && searchTerm == old(searchTerm) && filters == old(filters)
    {
      filtered := ApplyFilters(patients, searchTerm, filters);
    }

    /** handleFilterChange */
    method FilterChange(name: FilterName, value: string)
      modifies this
      ensures filters == SetFilter(old(filters), name, value)
      ensures patients == old(patients) && filtered == old(filtered) && searchTerm == old(searchTerm)
    {
      filters := SetFilter(filters, name, value);
    }

    /** resetFilters: clears the three filters and the search, so the next
        filtering lists every patient. */
    method ResetFilters()
      modifies this
      ensures filters == NoFilters && searchTerm == ""
      ensures patients == old(patients) && filtered == old(filtered)
      ensures Filtered(patients, searchTerm, filters) == patients
    {
      filters := NoFilters;
      searchTerm := "";
      FilteredFacts(patients, searchTerm, filters);
    }
  }
}
