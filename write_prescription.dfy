// The doctor's prescription editor: a list of medication entries, each with
// an id, that the doctor adds to, removes from and edits, with suggestions
// from the medication catalogue, and the checks made before saving.

module WritePrescription {
  import opened Common
  import opened Medications

  datatype Entry = Entry(id: int, medication: string, dosage: string, frequency: string,
                         duration: string, instructions: string)

  /** The entry fields the editor's inputs change. */
  datatype Field = MedicationField | DosageField | FrequencyField | DurationField | InstructionsField

  function Blank(id: int): Entry {
    Entry(id, "", "", "", "", "")
  }

  /** { ...med, [field]: value } */
  function SetField(e: Entry, f: Field, v: string): Entry {
    match f
    case MedicationField => e.(medication := v)
    case DosageField => e.(dosage := v)
    case FrequencyField => e.(frequency := v)
    case DurationField => e.(duration := v)
    case InstructionsField => e.(instructions := v)
  }

  /** Math.max(...entries.map(med => med.id), 0) */
  function MaxId(entries: seq<Entry>): (m: int)
    ensures m >= 0
    ensures forall e :: e in entries ==> e.id <= m
    ensures m == 0 || exists e :: e in entries && e.id == m
  {
    if entries == [] then 0
    else
      var rest := MaxId(entries[1..]);
      assert forall e :: e in entries[1..] ==> e in entries;
      if entries[0].id > rest then entries[0].id else rest
  }

  predicate UniqueIds(entries: seq<Entry>) {
    forall i, j :: 0 <= i < j < |entries| ==> entries[i].id != entries[j].id
  }

  /** An entry has its medication, dosage, frequency and duration. */
  predicate Complete(e: Entry) {
    e.medication != "" && e.dosage != "" && e.frequency != "" && e.duration != ""
  }

  /** With unique ids, dropping the entries of one id drops at most one. */
  lemma {:induction false} RemoveDropsAtMostOne(entries: seq<Entry>, id: int)
    requires UniqueIds(entries)
    ensures |Filter(entries, (e: Entry) => e.id != id)| >= |entries| - 1
  {
    if entries != [] {
      var rest := entries[1..];
      assert UniqueIds(rest) by {
        forall i, j | 0 <= i < j < |rest| ensures rest[i].id != rest[j].id {
          assert rest[i] == entries[i + 1] && rest[j] == entries[j + 1];
        }
      }
      if entries[0].id == id {
        forall e | e in rest ensures e.id != id {
          var k :| 0 <= k < |rest| && rest[k] == e;
          assert entries[k + 1] == e;
        }
        FilterAll(rest, (e: Entry) => e.id != id);
      } else {
        RemoveDropsAtMostOne(rest, id);
      }
    }
  }

  /** What saving the prescription leads to. */
  datatype SaveOutcome = IncompleteEntries | DiagnosisMissing | Saved(path: string)

  class PrescriptionWriter {
    var medications: seq<Entry>
    var suggestions: seq<Drug>
    var showSuggestions: bool
    var activeInput: Option<int>
    var diagnosis: string
    var notes: string
    const catalogue: seq<Drug>

    /** The editor opens with one blank entry of id 1. */
    constructor(catalogue: seq<Drug>)
      ensures medications == [Blank(1)] && suggestions == [] && !showSuggestions
      ensures activeInput.None? && diagnosis == "" && notes == "" && this.catalogue == catalogue
    {
      medications := [Blank(1)];
      suggestions := [];
      showSuggestions := false;
      activeInput := None;
      diagnosis := "";
      notes := "";
      this.catalogue := catalogue;
    }

    /** handleAddMedication: appends a blank entry whose id is one more than
        the largest id (and at least 1), so ids stay unique; until the new
        entry is filled in, the prescription cannot be saved. */
    method AddMedication()
      modifies this
      ensures medications == old(medications) + [Blank(MaxId(old(medications)) + 1)]
      ensures forall e :: e in old(medications) ==> e.id < medications[|medications| - 1].id
      ensures UniqueIds(old(medications)) ==> UniqueIds(medications)
      ensures forall p :: Save(p) == IncompleteEntries
      ensures suggestions == old(suggestions) && showSuggestions == old(showSuggestions)
      ensures activeInput == old(activeInput) && diagnosis == old(diagnosis) && notes == old(notes)
    {
      var newId := MaxId(medications) + 1;
      medications := medications + [Blank(newId)];
      assert !Complete(medications[|medications| - 1]);
    }

    /** handleRemoveMedication: refused while one entry is left; otherwise
        drops the entries with this id and keeps the others in order. With
        unique ids the list never becomes empty. */
    method RemoveMedication(id: int) returns (removed: bool)
      modifies this
      ensures removed <==> |old(medications)| != 1
      ensures !removed ==> medications == old(medications)
      ensures removed ==> medications == Filter(old(medications), (e: Entry) => e.id != id)
      ensures forall e :: e in medications <==> e in old(medications) && (e.id != id || !removed)
      ensures UniqueIds(old(medications)) && |old(medications)| >= 1 ==> |medications| >= 1
      ensures suggestions == old(suggestions) && showSuggestions == old(showSuggestions)
      ensures activeInput == old(activeInput) && diagnosis == old(diagnosis) && notes == old(notes)
    {
      if |medications| == 1 {
        return false;
      }
      if UniqueIds(medications) {
        RemoveDropsAtMostOne(medications, id);
      }
      medications := Filter(medications, (e: Entry) => e.id != id);
      return true;
    }

    /** handleMedicationChange: sets one field of the entries with this id.
        Typing more than two characters of a medication name shows the
        catalogue drugs whose name contains them; shorter text hides the
        suggestions. */
    method ChangeMedication(id: int, field: Field, value: string)
      modifies this
      ensures |medications| == |old(medications)|
      ensures forall i :: 0 <= i < |medications| ==>
                medications[i] == if old(medications)[i].id == id then SetField(old(medications)[i], field, value)
                                  else old(medications)[i]
      ensures field == MedicationField && |value| > 2 ==>
                suggestions == Suggestions(catalogue, value) && showSuggestions && activeInput == Some(id)
      ensures field == MedicationField && |value| <= 2 ==>
                !showSuggestions && suggestions == old(suggestions) && activeInput == old(activeInput)
      ensures field != MedicationField ==>
                suggestions == old(suggestions) && showSuggestions == old(showSuggestions) &&
                activeInput == old(activeInput)
      ensures diagnosis == old(diagnosis) && notes == old(notes)
    {
      var ms := medications;
      medications := seq(|ms|, i requires 0 <= i < |ms| =>
                           if ms[i].id == id then SetField(ms[i], field, value) else ms[i]);
      if field == MedicationField && |value| > 2 {
        suggestions := Suggestions(catalogue, value);
        showSuggestions := true;
        activeInput := Some(id);
      } else if field == MedicationField {
        showSuggestions := false;
      }
    }

    /** handleSelectMedication: the entries with this id take the drug's
        name, and its dosage and frequency when the drug has exactly one
        common value for them; the suggestions are hidden. */
    method SelectMedication(id: int, drug: Drug)
      modifies this
      ensures |medications| == |old(medications)|
      ensures forall i :: 0 <= i < |medications| && old(medications)[i].id != id ==>
                medications[i] == old(medications)[i]
      ensures forall i :: 0 <= i < |medications| && old(medications)[i].id == id ==>
                medications[i] ==
                  old(medications)[i].(medication := drug.name,
                                       dosage := OnlyChoiceOr(drug.commonDosages, old(medications)[i].dosage),
                                       frequency := OnlyChoiceOr(drug.commonFrequencies, old(medications)[i].frequency))
      ensures !showSuggestions && suggestions == old(suggestions) && activeInput == old(activeInput)
      ensures diagnosis == old(diagnosis) && notes == old(notes)
    {
      var ms := medications;
      medications := seq(|ms|, i requires 0 <= i < |ms| =>
                           if ms[i].id == id then
                             ms[i].(medication := drug.name,
                                    dosage := OnlyChoiceOr(drug.commonDosages, ms[i].dosage),
                                    frequency := OnlyChoiceOr(drug.commonFrequencies, ms[i].frequency))
                           else ms[i]);
      showSuggestions := false;
    }

    /** handleSavePrescription: every entry must be complete, and then the
        diagnosis must be given; the entries are checked first. A saved
        prescription goes back to the patient's page, or to the dashboard
        when the page was opened without a patient. */
    function Save(patientId: Option<string>): (o: SaveOutcome)
      reads this
      ensures o == IncompleteEntries <==> exists i :: 0 <= i < |medications| && !Complete(medications[i])
      ensures o == DiagnosisMissing <==>
                (forall i :: 0 <= i < |medications| ==> Complete(medications[i])) && diagnosis == ""
      ensures o.Saved? ==> o.path == (if patientId.Some? && patientId.value != ""
                                      then "/doctor/patients/" + patientId.value else "/doctor")
    {
      if exists i :: 0 <= i < |medications| && !Complete(medications[i]) then IncompleteEntries
      else if diagnosis == "" then DiagnosisMissing
      else if patientId.Some? && patientId.value != "" then Saved("/doctor/patients/" + patientId.value)
      else Saved("/doctor")
    }
  }
}
