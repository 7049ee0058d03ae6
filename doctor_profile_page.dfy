// The doctor's own profile page: the editor holds the profile as text (one
// item per line, languages comma-separated), the availability grid toggles
// one slot at a time, and saving parses the text back into the profile.

module DoctorProfilePage {
  import opened Common
  import opened JsNumbers
  import opened DoctorProfile

  /** The editor's state. The two numbers are held as the text of their
      inputs; before loading they are the number 0, which parseInt reads
      as its text "0". */
  datatype EditableData = EditableData(
    specialization: string, experience: string, patientLimit: string, qualifications: string,
    certifications: string, languages: string, expertise: string, availability: Availability)

  const EmptyWeek: Availability :=
    Week([false, false, false, false, false, false, false],
         [false, false, false, false, false, false, false],
         [false, false, false, false, false, false, false])

  const InitialEditable := EditableData("", "0", "0", "", "", "", "", EmptyWeek)

  /** The names of the editor's text inputs. */
  datatype EditField = Specialization | Experience | PatientLimit | Qualifications | Certifications
                     | Languages | Expertise

  /** handleEditableDataChange: { ...prev, [name]: value } */
  function SetField(e: EditableData, name: EditField, value: string): EditableData {
    match name
    case Specialization => e.(specialization := value)
    case Experience => e.(experience := value)
    case PatientLimit => e.(patientLimit := value)
    case Qualifications => e.(qualifications := value)
    case Certifications => e.(certifications := value)
    case Languages => e.(languages := value)
    case Expertise => e.(expertise := value)
  }

  /** The editor's text for a profile: lists joined by a newline, the
      languages by ", ", the numbers as their text. */
  function EditorData(p: Profile): EditableData {
    EditableData(p.specialization, NumberToString(p.experience), NumberToString(p.patientLimit),
                 Join(p.qualifications, "\n"), Join(p.certifications, "\n"), Join(p.languages, ", "),
                 Join(p.expertise, "\n"), p.availability)
  }

  /** The profile the page loads; the user's name and photo replace the
      sample ones when they are non-empty. */
  function MockDoctor(userName: string, userPhoto: string): (p: Profile)
    ensures p.name == if userName != "" then userName else "Dr. Sarah Johnson"
    ensures userPhoto != "" ==> p.photo == userPhoto
  {
    Profile(if userName != "" then userName else "Dr. Sarah Johnson",
            if userPhoto != "" then userPhoto else "https://ik.imagekit.io/curanet/doctor1.jpg?updatedAt=1680567412863",
            "Cardiology", ["MBBS", "MD - Cardiology", "Fellowship in Interventional Cardiology"], Num(12),
            ["English", "Spanish", "French"],
            ["Cardiac Catheterization", "Echocardiography", "Heart Failure Management", "Preventive Cardiology"],
            ["Board Certified in Cardiology", "Advanced Cardiac Life Support Instructor"], Num(12), 8, 4.9, 156,
            DefaultAvailability)
  }

  // ---------------------------------------------------------------------
  // handleAvailabilityChange

  function DayIndex(avail: Availability, day: string): nat {
    FirstWhere(avail, (d: Day) => d.name == day)
  }

  function SlotIndex(slots: seq<Slot>, slot: string): nat {
    FirstWhere(slots, (s: Slot) => s.name == slot)
  }

  /** availability[day][slot] reads the first slot of that name. */
  lemma {:induction false} SlotFlagAt(slots: seq<Slot>, slot: string)
    ensures SlotIndex(slots, slot) <= |slots|
    ensures SlotFlag(slots, slot) == (SlotIndex(slots, slot) < |slots| && slots[SlotIndex(slots, slot)].on)
  {
    if slots != [] && slots[0].name != slot {
      SlotFlagAt(slots[1..], slot);
      assert SlotIndex(slots, slot) == 1 + SlotIndex(slots[1..], slot);
    }
  }

  /** The flip of one slot: { ...prev[day], [slot]: !prev[day][slot] }. A
      slot the day lacks is added, set (the negation of undefined is
      true). A day the grid lacks cannot be read, so the handler throws:
      None. */
  function Toggle(avail: Availability, day: string, slot: string): Option<Availability> {
    var k := DayIndex(avail, day);
    if k == |avail| then None
    else
      var slots := avail[k].slots;
      var j := SlotIndex(slots, slot);
      var flipped := if j < |slots| then slots[j := Slot(slot, !slots[j].on)] else slots + [Slot(slot, true)];
      Some(avail[k := Day(day, flipped)])
  }

  /** Toggling fails exactly when no day has that name. Otherwise the days
      keep their names and order, only the first day of that name changes,
      its flag for the slot is negated and every other flag it reads is
      kept. */
  lemma ToggleFacts(avail: Availability, day: string, slot: string)
    ensures Toggle(avail, day, slot).None? <==> forall i :: 0 <= i < |avail| ==> avail[i].name != day
    ensures Toggle(avail, day, slot).Some? ==>
              var r := Toggle(avail, day, slot).value;
              var k := DayIndex(avail, day);
              |r| == |avail| && k < |avail| &&
              (forall i :: 0 <= i < |avail| ==> r[i].name == avail[i].name) &&
              (forall i :: 0 <= i < |avail| && i != k ==> r[i] == avail[i]) &&
              SlotFlag(r[k].slots, slot) == !SlotFlag(avail[k].slots, slot) &&
              (forall other :: other != slot ==> SlotFlag(r[k].slots, other) == SlotFlag(avail[k].slots, other))
  {
    var k := DayIndex(avail, day);
    if k < |avail| {
      var r := Toggle(avail, day, slot).value;
      var slots := avail[k].slots;
      var j := SlotIndex(slots, slot);
      SlotFlagAt(slots, slot);
      SlotFlagAt(r[k].slots, slot);
      assert SlotIndex(r[k].slots, slot) == j by {
        FirstWhereSame(slots, r[k].slots, (s: Slot) => s.name == slot, j);
      }
      forall other | other != slot
        ensures SlotFlag(r[k].slots, other) == SlotFlag(slots, other)
      {
        OtherSlotKept(slots, r[k].slots, slot, other);
      }
    }
  }

  /** Two sequences that agree on a predicate up to and including index j
      (where the second satisfies it) find it first at the same place. */
  lemma FirstWhereSame<T>(s: seq<T>, t: seq<T>, p: T -> bool, j: nat)
    requires j <= |s| && j < |t| && FirstWhere(s, p) == j && p(t[j])
    requires forall i :: 0 <= i < j ==> i < |t| && t[i] == s[i]
    ensures FirstWhere(t, p) == j
  {
    forall i | 0 <= i < j ensures !p(t[i]) {
      assert t[i] == s[i];
    }
  }

  /** Changing or appending the slot named `slot` leaves what every other
      slot name reads. */
  lemma {:induction false} OtherSlotKept(slots: seq<Slot>, flipped: seq<Slot>, slot: string, other: string)
    requires other != slot
    requires var j := SlotIndex(slots, slot);
      if j < |slots| then flipped == slots[j := Slot(slot, !slots[j].on)] else flipped == slots + [Slot(slot, true)]
    ensures SlotFlag(flipped, other) == SlotFlag(slots, other)
    decreases |slots|
  {
    if slots != [] {
      if slots[0].name == slot {
        assert flipped[1..] == slots[1..];
      } else {
        var j := SlotIndex(slots, slot);
        assert j == 1 + SlotIndex(slots[1..], slot);
        if j < |slots| {
          assert flipped[1..] == slots[1..][j - 1 := Slot(slot, !slots[j].on)];
        } else {
          assert flipped[1..] == slots[1..] + [Slot(slot, true)];
        }
        OtherSlotKept(slots[1..], flipped[1..], slot, other);
      }
    }
  }

  /** Toggling a slot the day has, twice, restores the grid. */
  lemma ToggleTwice(avail: Availability, day: string, slot: string)
    requires DayIndex(avail, day) < |avail|
    requires SlotIndex(avail[DayIndex(avail, day)].slots, slot) < |avail[DayIndex(avail, day)].slots|
    ensures Toggle(avail, day, slot).Some?
    ensures Toggle(Toggle(avail, day, slot).value, day, slot) == Some(avail)
  {
    var k := DayIndex(avail, day);
    var r := Toggle(avail, day, slot).value;
    var slots := avail[k].slots;
    var j := SlotIndex(slots, slot);
    var flipped := slots[j := Slot(slot, !slots[j].on)];
    assert r == avail[k := Day(day, flipped)];
    assert DayIndex(r, day) == k by {
      FirstWhereSame(avail, r, (d: Day) => d.name == day, k);
    }
    assert SlotIndex(flipped, slot) == j by {
      FirstWhereSame(slots, flipped, (s: Slot) => s.name == slot, j);
    }
    assert flipped[j := Slot(slot, !flipped[j].on)] == slots;
    assert r[k := Day(day, slots)] == avail;
  }

  // ---------------------------------------------------------------------
  // handleSaveProfile

  /** item.trim() is truthy. */
  predicate HasContent(s: string) {
    Trim(s) != ""
  }

  /** text.split('\n').filter(item => item.trim()) */
  function ParseLines(text: string): seq<string> {
    Filter(Split(text, '\n'), HasContent)
  }

  function TrimAll(xs: seq<string>): (r: seq<string>)
    ensures |r| == |xs| && forall i :: 0 <= i < |xs| ==> r[i] == Trim(xs[i])
  {
    seq(|xs|, i requires 0 <= i < |xs| => Trim(xs[i]))
  }

  predicate NonEmpty(s: string) {
    s != ""
  }

  /** text.split(',').map(item => item.trim()).filter(Boolean) */
  function ParseLanguages(text: string): seq<string> {
    Filter(TrimAll(Split(text, ',')), NonEmpty)
  }

  /** The saved lines are the lines of the text, in order and untrimmed,
      that hold a non-space character. */
  lemma ParseLinesFacts(text: string)
    ensures Subseq(ParseLines(text), Split(text, '\n'))
    ensures forall x :: x in ParseLines(text) <==> x in Split(text, '\n') && !AllSpace(x)
    ensures forall x :: x in ParseLines(text) ==> '\n' !in x
  {
    FilterIsSubseq(Split(text, '\n'), HasContent);
    forall x ensures HasContent(x) <==> !AllSpace(x) {
      TrimEmptyIffAllSpace(x);
    }
  }

  /** The saved languages are the trimmed comma-separated pieces of the
      text that are not empty, in order. */
  lemma ParseLanguagesFacts(text: string)
    ensures Subseq(ParseLanguages(text), TrimAll(Split(text, ',')))
    ensures forall x :: x in ParseLanguages(text) <==>
              x != "" && exists piece :: piece in Split(text, ',') && Trim(piece) == x
  {
    var pieces := Split(text, ',');
    FilterIsSubseq(TrimAll(pieces), NonEmpty);
    forall x ensures x in TrimAll(pieces) <==> exists piece :: piece in pieces && Trim(piece) == x {
      if x in TrimAll(pieces) {
        var i :| 0 <= i < |pieces| && TrimAll(pieces)[i] == x;
        assert pieces[i] in pieces;
      }
      if exists piece :: piece in pieces && Trim(piece) == x {
        var piece :| piece in pieces && Trim(piece) == x;
        var i :| 0 <= i < |pieces| && pieces[i] == piece;
        assert TrimAll(pieces)[i] == x;
      }
    }
  }

  /** Lines without a newline and with a non-space character survive the
      editor's join and the save. */
  lemma ParseLinesRoundTrip(xs: seq<string>)
    requires forall x :: x in xs ==> '\n' !in x && !AllSpace(x)
    ensures ParseLines(Join(xs, "\n")) == xs
  {
    if xs == [] {
      assert Split("", '\n') == [""];
      assert Trim("") == "";
    } else {
      SplitJoin(xs, '\n');
      forall x | x in xs ensures HasContent(x) {
        TrimEmptyIffAllSpace(x);
      }
      FilterAll(xs, HasContent);
    }
  }

  /** Trimmed, non-empty, comma-free languages survive the join with ", "
      and the save. */
  lemma ParseLanguagesRoundTrip(xs: seq<string>)
    requires forall x :: x in xs ==> x != "" && ',' !in x && Trim(x) == x
    ensures ParseLanguages(Join(xs, ", ")) == xs
  {
    if xs == [] {
      assert Split("", ',') == [""];
      assert Trim("") == "";
      assert TrimAll([""]) == [""];
    } else {
      JoinCommaSpace(xs);
      CommaSpacedPieces(xs);
      SplitJoin(CommaSpaced(xs), ',');
      FilterAll(xs, NonEmpty);
    }
  }

  lemma CommaSpacedPieces(xs: seq<string>)
    requires forall x :: x in xs ==> ',' !in x && Trim(x) == x
    ensures forall w :: w in CommaSpaced(xs) ==> ',' !in w
    ensures TrimAll(CommaSpaced(xs)) == xs
  {
    var pieces := CommaSpaced(xs);
    forall i | 0 <= i < |xs| ensures ',' !in pieces[i] && TrimAll(pieces)[i] == xs[i] {
      assert xs[i] in xs;
      if i > 0 {
        assert pieces[i] == " " + xs[i];
        TrimLeadingSpace(xs[i]);
      }
    }
  }

  /** { ...doctor, <the eight edited fields parsed from the editor> } */
  function Save(doctor: Profile, e: EditableData): Profile {
    doctor.(specialization := e.specialization, experience := ParseInt(e.experience),
            patientLimit := ParseInt(e.patientLimit), qualifications := ParseLines(e.qualifications),
            certifications := ParseLines(e.certifications), languages := ParseLanguages(e.languages),
            expertise := ParseLines(e.expertise), availability := e.availability)
  }

  /** Saving copies the fields the editor does not hold. */
  lemma SaveKeepsOtherFields(doctor: Profile, e: EditableData)
    ensures Save(doctor, e).name == doctor.name && Save(doctor, e).photo == doctor.photo
    ensures Save(doctor, e).currentPatients == doctor.currentPatients
    ensures Save(doctor, e).rating == doctor.rating && Save(doctor, e).reviewCount == doctor.reviewCount
    ensures Save(doctor, e).availability == e.availability
  {
  }

  /** The editor's lists can be written back unchanged. */
  predicate Editable(p: Profile) {
    (forall x :: x in p.qualifications ==> '\n' !in x && !AllSpace(x)) &&
    (forall x :: x in p.certifications ==> '\n' !in x && !AllSpace(x)) &&
    (forall x :: x in p.expertise ==> '\n' !in x && !AllSpace(x)) &&
    (forall x :: x in p.languages ==> x != "" && ',' !in x && Trim(x) == x)
  }

  /** Opening the editor and saving without a change gives back the
      profile. */
  lemma SaveUnedited(p: Profile)
    requires Editable(p)
    ensures Save(p, EditorData(p)) == p
  {
    ParseIntOfString(p.experience);
    ParseIntOfString(p.patientLimit);
    ParseLinesRoundTrip(p.qualifications);
    ParseLinesRoundTrip(p.certifications);
    ParseLinesRoundTrip(p.expertise);
    ParseLanguagesRoundTrip(p.languages);
  }

  /** The page. It opens for a doctor only; anyone else is sent to the
      login page. */
  class ProfilePage {
    var doctor: Option<Profile>
    var editable: EditableData
    var isEditing: bool
    var redirectedToLogin: bool

    /** The effect on mount: a user who is not a doctor is redirected;
        a doctor gets the loaded profile and an editor filled from it. */
    constructor(role: Option<string>, loaded: Profile)
      ensures !isEditing
      ensures role != Some("doctor") ==> redirectedToLogin && doctor == None && editable == InitialEditable
      ensures role == Some("doctor") ==>
                !redirectedToLogin && doctor == Some(loaded) && editable == EditorData(loaded)
    {
      isEditing := false;
      if role != Some("doctor") {
        redirectedToLogin := true;
        doctor := None;
        editable := InitialEditable;
      } else {
        redirectedToLogin := false;
        doctor := Some(loaded);
        editable := EditorData(loaded);
      }
    }

    /** The Edit Profile button. */
    method StartEditing()
      modifies this
      ensures isEditing
      ensures doctor == old(doctor) && editable == old(editable) && redirectedToLogin == old(redirectedToLogin)
    {
      isEditing := true;
    }

    /** handleEditableDataChange */
    method FieldChange(name: EditField, value: string)
      modifies this
      ensures editable == SetField(old(editable), name, value)
      ensures doctor == old(doctor) && isEditing == old(isEditing) && redirectedToLogin == old(redirectedToLogin)
    {
      editable := SetField(editable, name, value);
    }

    /** handleAvailabilityChange: `ok` is false when the update throws for
        a day the grid lacks, and then nothing changes. */
    method AvailabilityChange(day: string, slot: string) returns (ok: bool)
      modifies this
      ensures ok <==> exists i :: 0 <= i < |old(editable).availability| && old(editable).availability[i].name == day
      ensures ok ==> editable == old(editable).(availability := Toggle(old(editable).availability, day, slot).value)
      ensures !ok ==> editable == old(editable)
      ensures doctor == old(doctor) && isEditing == old(isEditing) && redirectedToLogin == old(redirectedToLogin)
    {
      ToggleFacts(editable.availability, day, slot);
      var toggled := Toggle(editable.availability, day, slot);
      if toggled.Some? {
        ok := true;
        editable := editable.(availability := toggled.value);
      } else {
        ok := false;
      }
    }

    /** handleSaveProfile: the buttons show once the profile has loaded. */
    method SaveProfile()
      requires doctor.Some?
      modifies this
      ensures doctor == Some(Save(old(doctor).value, old(editable)))
      ensures !isEditing && editable == old(editable) && redirectedToLogin == old(redirectedToLogin)
    {
      doctor := Some(Save(doctor.value, editable));
      isEditing := false;
    }

    /** The Cancel button: the editor is refilled from the profile, so a
        save straight after gives the profile back (SaveUnedited). */
    method CancelEditing()
      requires doctor.Some?
      modifies this
      ensures doctor == old(doctor) && redirectedToLogin == old(redirectedToLogin)
      ensures editable == EditorData(doctor.value) && !isEditing
    {
      editable := EditorData(doctor.value);
      isEditing := false;
    }
  }
}
