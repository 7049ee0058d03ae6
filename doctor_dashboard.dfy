// The doctor's dashboard: the day's appointments, the consultation the
// doctor starts with one of them, and the prescription form filled in
// during it, with medication suggestions from the catalogue.

module DoctorDashboard {
  import opened Common
  import opened Medications

  datatype Visit = Visit(id: int, patientName: string, status: string)

  datatype PrescriptionForm = PrescriptionForm(medication: string, dosage: string, frequency: string,
                                               duration: string, notes: string)

  const EmptyForm := PrescriptionForm("", "", "", "", "")

  /** appointments.map(app => app.id === id ? { ...app, status } : app) */
  function WithStatus(visits: seq<Visit>, id: int, status: string): (r: seq<Visit>)
    ensures |r| == |visits|
    ensures forall i :: 0 <= i < |r| ==> r[i].id == visits[i].id && r[i].patientName == visits[i].patientName
  {
    seq(|visits|, i requires 0 <= i < |visits| =>
          if visits[i].id == id then visits[i].(status := status) else visits[i])
  }

  /** Only the visits with this id change, and they take the new status;
      setting the same status again changes nothing more. */
  lemma WithStatusChangesOnlyThatId(visits: seq<Visit>, id: int, status: string)
    ensures forall i :: 0 <= i < |visits| && visits[i].id != id ==> WithStatus(visits, id, status)[i] == visits[i]
    ensures forall i :: 0 <= i < |visits| && visits[i].id == id ==> WithStatus(visits, id, status)[i].status == status
    ensures WithStatus(WithStatus(visits, id, status), id, status) == WithStatus(visits, id, status)
  {
  }

  /** The form has a medication, dosage, frequency and duration. */
  predicate Filled(f: PrescriptionForm) {
    f.medication != "" && f.dosage != "" && f.frequency != "" && f.duration != ""
  }

  datatype SubmitOutcome = NoPatient | MissingFields | Submitted

  class Dashboard {
    var appointments: seq<Visit>
    var selectedPatient: Option<Visit>
    var form: PrescriptionForm
    var selectedMedication: Option<Drug>
    var showSuggestions: bool
    const catalogue: seq<Drug>

    constructor(appointments: seq<Visit>, catalogue: seq<Drug>)
      ensures this.appointments == appointments && this.catalogue == catalogue
      ensures selectedPatient.None? && form == EmptyForm && selectedMedication.None? && !showSuggestions
    {
      this.appointments := appointments;
      this.catalogue := catalogue;
      selectedPatient := None;
      form := EmptyForm;
      selectedMedication := None;
      showSuggestions := false;
    }

    /** handleStartConsultation: the appointment becomes the selected
        patient and only the appointments with its id turn 'in-progress'. */
    method StartConsultation(appointment: Visit)
      modifies this
      ensures selectedPatient == Some(appointment)
      ensures appointments == WithStatus(old(appointments), appointment.id, "in-progress")
      ensures form == old(form) && selectedMedication == old(selectedMedication)
      ensures showSuggestions == old(showSuggestions)
    {
      selectedPatient := Some(appointment);
      appointments := WithStatus(appointments, appointment.id, "in-progress");
    }

    /** handleMedicationChange: records the typed name; suggestions show
        for more than two characters, and shorter text hides them and drops
        the selected medication. */
    method MedicationChange(name: string)
      modifies this
      ensures form == old(form).(medication := name)
      ensures showSuggestions <==> |name| > 2
      ensures |name| > 2 ==> selectedMedication == old(selectedMedication)
      ensures |name| <= 2 ==> selectedMedication.None?
      ensures appointments == old(appointments) && selectedPatient == old(selectedPatient)
    {
      form := form.(medication := name);
      if |name| > 2 {
        showSuggestions := true;
      } else {
        showSuggestions := false;
        selectedMedication := None;
      }
    }

    /** handleSelectMedication: the drug's name goes into the form, the drug
        becomes the selected medication and the suggestions are hidden. */
    method SelectMedication(drug: Drug)
      modifies this
      ensures form == old(form).(medication := drug.name)
      ensures selectedMedication == Some(drug) && !showSuggestions
      ensures appointments == old(appointments) && selectedPatient == old(selectedPatient)
    {
      form := form.(medication := drug.name);
      selectedMedication := Some(drug);
      showSuggestions := false;
    }

    /** The effect run when the selected medication changes: a drug with a
        single common dosage (frequency) fills the form's dosage
        (frequency); otherwise the form keeps what it had. */
    method FillFromSelection()
      modifies this
      ensures selectedMedication.None? ==> form == old(form)
      ensures selectedMedication.Some? ==>
                form == old(form).(dosage := OnlyChoiceOr(selectedMedication.value.commonDosages, old(form).dosage),
                                   frequency := OnlyChoiceOr(selectedMedication.value.commonFrequencies, old(form).frequency))
      ensures appointments == old(appointments) && selectedPatient == old(selectedPatient)
      ensures selectedMedication == old(selectedMedication) && showSuggestions == old(showSuggestions)
    {
      if selectedMedication.Some? {
        var drug := selectedMedication.value;
        if |drug.commonDosages| == 1 {
          form := form.(dosage := drug.commonDosages[0]);
        }
        if |drug.commonFrequencies| == 1 {
          form := form.(frequency := drug.commonFrequencies[0]);
        }
      }
    }

    /** handlePrescriptionSubmit: nothing happens without a selected
        patient; a form missing a required field is refused and nothing
        changes; otherwise the form is cleared, the patient's appointment
        is marked 'completed' and the selections are dropped. */
    method Submit() returns (outcome: SubmitOutcome)
      modifies this
      ensures outcome == NoPatient <==> old(selectedPatient).None?
      ensures outcome == MissingFields <==> old(selectedPatient).Some? && !Filled(old(form))
      ensures outcome != Submitted ==>
                appointments == old(appointments) && selectedPatient == old(selectedPatient) &&
                form == old(form) && selectedMedication == old(selectedMedication)
      ensures outcome == Submitted ==>
                form == EmptyForm && selectedPatient.None? && selectedMedication.None? &&
                appointments == WithStatus(old(appointments), old(selectedPatient).value.id, "completed")
      ensures showSuggestions == old(showSuggestions)
    {
      if selectedPatient.None? {
        return NoPatient;
      }
      if !Filled(form) {
        return MissingFields;
      }
      form := EmptyForm;
      appointments := WithStatus(appointments, selectedPatient.value.id, "completed");
      selectedPatient := None;
      selectedMedication := None;
      return Submitted;
    }

    /** filteredMedications: the catalogue drugs whose name contains the
        typed medication, ignoring case. */
    function FilteredMedications(): (r: seq<Drug>)
      reads this
      ensures forall d :: d in r <==> d in catalogue && IncludesIgnoreCase(d.name, form.medication)
      ensures Subseq(r, catalogue)
    {
      SuggestionsInOrder(catalogue, form.medication);
      Suggestions(catalogue, form.medication)
    }
  }
}
