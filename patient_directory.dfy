// The doctor's patient directory: a search over name and id, and filters on
// gender, an age range chosen as "min-max" text, and a condition; the filter
// button shows how many filters are set.

module PatientDirectory {
  import opened Common
  import opened JsNumbers

  datatype Patient = Patient(id: string, name: string, age: int, gender: string, conditions: seq<string>)

  datatype Filters = Filters(gender: string, ageRange: string, condition: string)

  /** The names of the filter inputs. */
  datatype FilterName = Gender | AgeRange | Condition

  const NoFilters := Filters("", "", "")

  /** { ...prev, [name]: value } */
  function SetFilter(f: Filters, name: FilterName, value: string): Filters {
    match name
    case Gender => f.(gender := value)
    case AgeRange => f.(ageRange := value)
    case Condition => f.(condition := value)
  }

  /** The age test: no range keeps every age; otherwise both bounds are
      numbers and the age lies between them, both ends included. */
  predicate MatchesAge(age: int, range: string) {
    range == "" ||
    var (lo, hi) := RangeBounds(range);
    lo.Num? && hi.Num? && lo.value <= age <= hi.value
  }

  predicate MatchesCondition(conditions: seq<string>, text: string) {
    text == "" || exists c :: c in conditions && IncludesIgnoreCase(c, text)
  }

  predicate Keep(p: Patient, query: string, f: Filters) {
    (IncludesIgnoreCase(p.name, query) || IncludesIgnoreCase(p.id, query)) &&
    (f.gender == "" || p.gender == f.gender) &&
    MatchesAge(p.age, f.ageRange) &&
    MatchesCondition(p.conditions, f.condition)
  }

  /** filteredPatients */
  function FilteredPatients(ps: seq<Patient>, query: string, f: Filters): seq<Patient> {
    Filter(ps, (p: Patient) => Keep(p, query, f))
  }

  /** The listed patients keep their order; a patient is listed exactly
      when their name or id contains the query (ignoring case), the gender is
      the chosen one, the age is in range and a condition contains the
      condition text; with no query and no filter every patient is listed. */
  lemma FilteredPatientsFacts(ps: seq<Patient>, query: string, f: Filters)
    ensures Subseq(FilteredPatients(ps, query, f), ps)
    ensures forall p :: p in FilteredPatients(ps, query, f) <==>
              p in ps && (IncludesIgnoreCase(p.name, query) || IncludesIgnoreCase(p.id, query)) &&
              (f.gender == "" || p.gender == f.gender) && MatchesAge(p.age, f.ageRange) &&
              (f.condition == "" || exists c :: c in p.conditions && IncludesIgnoreCase(c, f.condition))
    ensures query == "" && f == NoFilters ==> FilteredPatients(ps, query, f) == ps
  {
    FilterIsSubseq(ps, (p: Patient) => Keep(p, query, f));
    if query == "" && f == NoFilters {
      forall p | p in ps ensures Keep(p, query, f) {
        IncludesIgnoreCaseEmpty(p.name);
      }
      FilterAll(ps, (p: Patient) => Keep(p, query, f));
    }
  }

  /** A range "a-b" keeps exactly the ages from a to b. */
  lemma AgeRangeInclusive(a: nat, b: nat, age: int)
    ensures MatchesAge(age, NatToString(a) + "-" + NatToString(b)) <==> a <= age <= b
  {
    RangeOfTwoNumbers(a, b);
  }

  /** The directory's age options mean what their labels say. */
  lemma AgeOptions(age: int)
    ensures MatchesAge(age, "0-18") <==> 0 <= age <= 18
    ensures MatchesAge(age, "19-35") <==> 19 <= age <= 35
    ensures MatchesAge(age, "36-50") <==> 36 <= age <= 50
    ensures MatchesAge(age, "51-65") <==> 51 <= age <= 65
    ensures MatchesAge(age, "66-100") <==> 66 <= age <= 100
  {
    AgeOption0To18(age);
    AgeOption19To35(age);
    AgeOption36To50(age);
    AgeOption51To65(age);
    AgeOption66To100(age);
  }

  lemma AgeOption0To18(age: int)
    ensures MatchesAge(age, "0-18") <==> 0 <= age <= 18
  {
    TwoDigits(1, 8);
    AgeOption(0, 18, "0-18", age);
  }

  lemma AgeOption19To35(age: int)
    ensures MatchesAge(age, "19-35") <==> 19 <= age <= 35
  {
    TwoDigits(1, 9); TwoDigits(3, 5);
    AgeOption(19, 35, "19-35", age);
  }

  lemma AgeOption36To50(age: int)
    ensures MatchesAge(age, "36-50") <==> 36 <= age <= 50
  {
    TwoDigits(3, 6); TwoDigits(5, 0);
    AgeOption(36, 50, "36-50", age);
  }

  lemma AgeOption51To65(age: int)
    ensures MatchesAge(age, "51-65") <==> 51 <= age <= 65
  {
    TwoDigits(5, 1); TwoDigits(6, 5);
    AgeOption(51, 65, "51-65", age);
  }

  lemma AgeOption66To100(age: int)
    ensures MatchesAge(age, "66-100") <==> 66 <= age <= 100
  {
    TwoDigits(6, 6); TwoDigits(1, 0);
    assert NatToString(100) == NatToString(10) + "0";
    AgeOption(66, 100, "66-100", age);
  }

  /** String(10 * t + u) for two digits t, u with t > 0. */
  lemma TwoDigits(t: nat, u: nat)
    requires 1 <= t <= 9 && u <= 9
    ensures NatToString(10 * t + u) == [DigitChar(t), DigitChar(u)]
  {
    assert (10 * t + u) / 10 == t && (10 * t + u) % 10 == u;
  }

  lemma AgeOption(a: nat, b: nat, option: string, age: int)
    requires NatToString(a) + "-" + NatToString(b) == option
    ensures MatchesAge(age, option) <==> a <= age <= b
  {
    AgeRangeInclusive(a, b, age);
  }

  /** The badge count: how many filter values are non-empty. */
  function ActiveFilterCount(f: Filters): (n: nat)
    ensures n <= 3
    ensures n == 0 <==> f == NoFilters
    ensures n == 3 <==> f.gender != "" && f.ageRange != "" && f.condition != ""
  {
    (if f.gender != "" then 1 else 0) + (if f.ageRange != "" then 1 else 0) + (if f.condition != "" then 1 else 0)
  }

  /** Setting one filter changes the count by at most one, and clearing it
      never raises the count. */
  lemma SetFilterCount(f: Filters, name: FilterName, value: string)
    ensures ActiveFilterCount(f) - 1 <= ActiveFilterCount(SetFilter(f, name, value)) <= ActiveFilterCount(f) + 1
    ensures value == "" ==> ActiveFilterCount(SetFilter(f, name, value)) <= ActiveFilterCount(f)
  {
  }

  class Directory {
    var patients: seq<Patient>
    var searchQuery: string
    var filters: Filters

    constructor(loaded: seq<Patient>)
      ensures patients == loaded && searchQuery == "" && filters == NoFilters
    {
      patients := loaded;
      searchQuery := "";
      filters := NoFilters;
    }

    /** The patients the directory shows. */
    function Visible(): seq<Patient>
      reads this
    {
      FilteredPatients(patients, searchQuery, filters)
    }

    /** handleFilterChange */
    method FilterChange(name: FilterName, value: string)
      modifies this
      ensures filters == SetFilter(old(filters), name, value)
      ensures patients == old(patients) && searchQuery == old(searchQuery)
    {
      filters := SetFilter(filters, name, value);
    }

    /** resetFilters: clears the three filters and the search, so every
        patient is shown again and the badge count is zero. */
    method ResetFilters()
      modifies this
      ensures filters == NoFilters && searchQuery == "" && patients == old(patients)
      ensures Visible() == patients && ActiveFilterCount(filters) == 0
    {
      filters := NoFilters;
      searchQuery := "";
      FilteredPatientsFacts(patients, searchQuery, filters);
    }
  }
}
