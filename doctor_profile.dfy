// The doctor's profile card: every field the doctor record leaves out takes
// a default, the weekly availability is summarised as a percentage and as a
// list of days, and the booking bar is coloured by how full the day is.

module DoctorProfile {
  import opened Common
  import opened JsNumbers

  /** One time slot of a day and whether the doctor is available in it. */
  datatype Slot = Slot(name: string, on: bool)

  /** A day of the week and its slots, in the object's key order. */
  datatype Day = Day(name: string, slots: seq<Slot>)

  /** The availability object: the days in key order. */
  type Availability = seq<Day>

  function Week(m: seq<bool>, a: seq<bool>, e: seq<bool>): (r: Availability)
    requires |m| == 7 && |a| == 7 && |e| == 7
    ensures |r| == 7 && r[0].name == "monday" && r[6].name == "sunday"
    ensures forall i, j :: 0 <= i < j < 7 ==> r[i].name != r[j].name
    ensures forall i :: 0 <= i < 7 ==>
              SlotFlag(r[i].slots, "morning") == m[i] && SlotFlag(r[i].slots, "afternoon") == a[i] &&
              SlotFlag(r[i].slots, "evening") == e[i]
    ensures forall i :: 0 <= i < 7 ==> (HasAvailableSlot(r[i]) <==> m[i] || a[i] || e[i])
  {
    var names := ["monday", "tuesday", "wednesday", "thursday", "friday", "saturday", "sunday"];
    var r := seq(7, i requires 0 <= i < 7 =>
      Day(names[i], [Slot("morning", m[i]), Slot("afternoon", a[i]), Slot("evening", e[i])]));
    assert forall i :: 0 <= i < 7 ==>
             SlotFlag(r[i].slots, "morning") == m[i] && SlotFlag(r[i].slots, "afternoon") == a[i] &&
             SlotFlag(r[i].slots, "evening") == e[i] by {
      forall i | 0 <= i < 7 {
        ThreeSlots(m[i], a[i], e[i]);
      }
    }
    r
  }

  /** The flags of a day's three slots read back as given. */
  lemma ThreeSlots(x: bool, y: bool, z: bool)
    ensures var slots := [Slot("morning", x), Slot("afternoon", y), Slot("evening", z)];
            SlotFlag(slots, "morning") == x && SlotFlag(slots, "afternoon") == y && SlotFlag(slots, "evening") == z
  {
    var slots := [Slot("morning", x), Slot("afternoon", y), Slot("evening", z)];
    assert slots[1..] == [Slot("afternoon", y), Slot("evening", z)];
    assert slots[1..][1..] == [Slot("evening", z)];
    assert SlotFlag(slots[1..][1..], "evening") == z;
  }

  /** The card's default week: weekday mornings and afternoons but
      Wednesday morning and Friday afternoon, Wednesday evening, no weekend. */
  const DefaultAvailability: Availability :=
    Week([true, true, false, true, true, false, false],
         [true, true, true, true, false, false, false],
         [false, false, true, false, false, false, false])

  /** A doctor record as the card receives it: a missing field is None. */
  datatype DoctorInfo = DoctorInfo(
    name: Option<string>, photo: Option<string>, specialization: Option<string>,
    qualifications: Option<seq<string>>, experience: Option<JsNumber>, languages: Option<seq<string>>,
    expertise: Option<seq<string>>, certifications: Option<seq<string>>, patientLimit: Option<JsNumber>,
    currentPatients: Option<int>, rating: Option<real>, reviewCount: Option<int>,
    availability: Option<Availability>)

  /** The record with no field at all: `{}`. */
  const NoInfo := DoctorInfo(None, None, None, None, None, None, None, None, None, None, None, None, None)

  /** The values the card shows. */
  datatype Profile = Profile(
    name: string, photo: string, specialization: string, qualifications: seq<string>, experience: JsNumber,
    languages: seq<string>, expertise: seq<string>, certifications: seq<string>, patientLimit: JsNumber,
    currentPatients: int, rating: real, reviewCount: int, availability: Availability)

  const Defaults := Profile(
    "Dr. John Doe", "https://ik.imagekit.io/curanet/default-doctor.png?updatedAt=1680567412863",
    "General Medicine", ["MBBS", "MD - General Medicine"], Num(10), ["English", "Spanish"],
    ["Diabetes Management", "Hypertension", "Preventive Care"],
    ["Board Certified in Internal Medicine", "Advanced Cardiac Life Support"], Num(15), 8, 4.8, 124,
    DefaultAvailability)

  function OrElse<T>(o: Option<T>, d: T): T {
    if o.Some? then o.value else d
  }

  /** The destructuring of `doctor || {}` with defaults. */
  function Resolve(doctor: Option<DoctorInfo>): Profile {
    var info := if doctor.Some? then doctor.value else NoInfo;
    Profile(OrElse(info.name, Defaults.name), OrElse(info.photo, Defaults.photo),
            OrElse(info.specialization, Defaults.specialization),
            OrElse(info.qualifications, Defaults.qualifications), OrElse(info.experience, Defaults.experience),
            OrElse(info.languages, Defaults.languages), OrElse(info.expertise, Defaults.expertise),
            OrElse(info.certifications, Defaults.certifications),
            OrElse(info.patientLimit, Defaults.patientLimit),
            OrElse(info.currentPatients, Defaults.currentPatients), OrElse(info.rating, Defaults.rating),
            OrElse(info.reviewCount, Defaults.reviewCount), OrElse(info.availability, Defaults.availability))
  }

  /** No doctor, or an empty record, shows the defaults; a record with
      every field shows its own values. */
  lemma ResolveDefaults(info: DoctorInfo)
    ensures Resolve(None) == Defaults && Resolve(Some(NoInfo)) == Defaults
    ensures info.name.Some? ==> Resolve(Some(info)).name == info.name.value
    ensures info.name.None? ==> Resolve(Some(info)).name == "Dr. John Doe"
    ensures info.patientLimit.None? ==> Resolve(Some(info)).patientLimit == Num(15)
    ensures info.currentPatients.None? ==> Resolve(Some(info)).currentPatients == 8
    ensures info.availability.None? ==> Resolve(Some(info)).availability == DefaultAvailability
    ensures info.availability.Some? ==> Resolve(Some(info)).availability == info.availability.value
    ensures Resolve(Some(Known(Resolve(Some(info))))) == Resolve(Some(info))
  {
  }

  /** The record holding every field of a profile. */
  function Known(p: Profile): (info: DoctorInfo)
    ensures Resolve(Some(info)) == p
  {
    DoctorInfo(Some(p.name), Some(p.photo), Some(p.specialization), Some(p.qualifications), Some(p.experience),
               Some(p.languages), Some(p.expertise), Some(p.certifications), Some(p.patientLimit),
               Some(p.currentPatients), Some(p.rating), Some(p.reviewCount), Some(p.availability))
  }

  // ---------------------------------------------------------------------
  // calculateAvailability

  /** How many slots of a day are set. */
  function OnCount(slots: seq<Slot>): (n: nat)
    ensures n <= |slots|
  {
    if slots == [] then 0 else OnCount(slots[..|slots| - 1]) + (if slots[|slots| - 1].on then 1 else 0)
  }

  /** Every slot of every day. */
  function TotalSlots(avail: Availability): nat {
    if avail == [] then 0 else TotalSlots(avail[..|avail| - 1]) + |avail[|avail| - 1].slots|
  }

  /** The set slots of every day. */
  function AvailableSlots(avail: Availability): (n: nat)
    ensures n <= TotalSlots(avail)
  {
    if avail == [] then 0 else AvailableSlots(avail[..|avail| - 1]) + OnCount(avail[|avail| - 1].slots)
  }

  lemma {:induction false} NoneSet(avail: Availability)
    requires forall d, s :: d in avail && s in d.slots ==> !s.on
    ensures AvailableSlots(avail) == 0
  {
    if avail != [] {
      NoneSet(avail[..|avail| - 1]);
      NoSlotSet(avail[|avail| - 1].slots);
    }
  }

  lemma {:induction false} NoSlotSet(slots: seq<Slot>)
    requires forall s :: s in slots ==> !s.on
    ensures OnCount(slots) == 0
  {
    if slots != [] {
      NoSlotSet(slots[..|slots| - 1]);
    }
  }

  lemma {:induction false} AllSet(avail: Availability)
    requires forall d, s :: d in avail && s in d.slots ==> s.on
    ensures AvailableSlots(avail) == TotalSlots(avail)
  {
    if avail != [] {
      AllSet(avail[..|avail| - 1]);
      EverySlotSet(avail[|avail| - 1].slots);
    }
  }

  lemma {:induction false} EverySlotSet(slots: seq<Slot>)
    requires forall s :: s in slots ==> s.on
    ensures OnCount(slots) == |slots|
  {
    if slots != [] {
      EverySlotSet(slots[..|slots| - 1]);
    }
  }

  /** Math.round(available / total * 100), computed exactly: NaN for 0 / 0. */
  function RoundedPercent(available: nat, total: nat): JsNumber {
    if total == 0 then NaN else Num((200 * available + total) / (2 * total))
  }

  /** The rounded percentage is within one half of 100 * available / total,
      and lies between 0 and 100; it is 0 for none and 100 for all. */
  lemma PercentBounds(available: nat, total: nat)
    requires 0 < total && available <= total
    ensures var q := RoundedPercent(available, total).value;
      0 <= q <= 100 && 200 * available - total <= 2 * total * q <= 200 * available + total
    ensures available == 0 ==> RoundedPercent(available, total) == Num(0)
    ensures available == total ==> RoundedPercent(available, total) == Num(100)
  {
    var m := 2 * total;
    var n := 200 * available + total;
    var q := n / m;
    DivBounds(n, m);
    assert 101 * m == 202 * total;
    MulCancel(q, 101, m);
    assert 2 * total * q == q * m;
    if available == 0 {
      QuotientUnique(n, m, 0);
    }
    if available == total {
      assert 100 * m <= n;
      QuotientUnique(n, m, 100);
    }
  }

  lemma DivBounds(n: int, m: int)
    requires m > 0
    ensures (n / m) * m <= n < (n / m) * m + m
  {
  }

  lemma MulCancel(x: int, y: int, m: int)
    requires m > 0 && x * m < y * m
    ensures x < y
  {
  }

  lemma QuotientUnique(n: int, m: int, q: int)
    requires m > 0 && q * m <= n < q * m + m
    ensures n / m == q
  {
    var r := n / m;
    DivBounds(n, m);
    assert (q + 1) * m == q * m + m;
    assert (r + 1) * m == r * m + m;
    MulCancel(r, q + 1, m);
    MulCancel(q, r + 1, m);
  }

  /** calculateAvailability: counts every slot and every slot that is set,
      day by day, and rounds the share to a whole percentage. */
  method CalculateAvailability(availability: Availability) returns (rate: JsNumber)
    ensures rate.NaN? <==> TotalSlots(availability) == 0
    ensures rate.Num? ==> 0 <= rate.value <= 100
    ensures rate.Num? ==> 200 * AvailableSlots(availability) - TotalSlots(availability)
                          <= 2 * TotalSlots(availability) * rate.value
                          <= 200 * AvailableSlots(availability) + TotalSlots(availability)
    ensures rate.Num? && (forall d, s :: d in availability && s in d.slots ==> !s.on) ==> rate == Num(0)
    ensures rate.Num? && (forall d, s :: d in availability && s in d.slots ==> s.on) ==> rate == Num(100)
  {
    var available := 0;
    var total := 0;
    var i := 0;
    while i < |availability|
      invariant 0 <= i <= |availability|
      invariant total == TotalSlots(availability[..i])
      invariant available == AvailableSlots(availability[..i])
    {
      var slots := availability[i].slots;
      var j := 0;
      while j < |slots|
        invariant 0 <= j <= |slots|
        invariant total == TotalSlots(availability[..i]) + j
        invariant available == AvailableSlots(availability[..i]) + OnCount(slots[..j])
      {
        total := total + 1;
        if slots[j].on {
          available := available + 1;
        }
        assert slots[..j + 1][..j] == slots[..j];
        j := j + 1;
      }
      assert slots[..j] == slots;
      assert availability[..i + 1][..i] == availability[..i];
      i := i + 1;
    }
    assert availability[..i] == availability;
    rate := RoundedPercent(available, total);
    if total > 0 {
      PercentBounds(available, total);
      if forall d, s :: d in availability && s in d.slots ==> !s.on {
        NoneSet(availability);
      }
      if forall d, s :: d in availability && s in d.slots ==> s.on {
        AllSet(availability);
      }
    }
  }

  // ---------------------------------------------------------------------
  // formatDays

  /** availability[day][slot]: the slot's flag, false when it is missing. */
  function SlotFlag(slots: seq<Slot>, name: string): bool {
    if slots == [] then false else if slots[0].name == name then slots[0].on else SlotFlag(slots[1..], name)
  }

  predicate HasAvailableSlot(d: Day) {
    SlotFlag(d.slots, "morning") || SlotFlag(d.slots, "afternoon") || SlotFlag(d.slots, "evening")
  }

  function AvailableDays(avail: Availability): seq<Day> {
    Filter(avail, HasAvailableSlot)
  }

  /** s.charAt(0).toUpperCase() + s.slice(1) */
  function Capitalize(s: string): (r: string)
    ensures |r| == |s| && (s != "" ==> r[0] == UpperChar(s[0]) && r[1..] == s[1..])
  {
    if s == "" then "" else [UpperChar(s[0])] + s[1..]
  }

  function DayLabels(days: seq<Day>): (r: seq<string>)
    ensures |r| == |days| && forall i :: 0 <= i < |days| ==> r[i] == Capitalize(days[i].name)
  {
    seq(|days|, i requires 0 <= i < |days| => Capitalize(days[i].name))
  }

  /** formatDays */
  function FormatDays(avail: Availability): string {
    var days := AvailableDays(avail);
    if days == [] then "Not available" else Join(DayLabels(days), ", ")
  }

  /** The listed days are the days with a morning, afternoon or evening
      slot set, in key order; with none the card says "Not available";
      otherwise splitting the text on ',' gives back their capitalised
      names, each after the first behind one space. */
  lemma FormatDaysFacts(avail: Availability)
    requires forall d :: d in avail ==> ',' !in d.name
    ensures Subseq(AvailableDays(avail), avail)
    ensures forall d :: d in AvailableDays(avail) <==> d in avail && HasAvailableSlot(d)
    ensures AvailableDays(avail) == [] <==> forall d :: d in avail ==> !HasAvailableSlot(d)
    ensures AvailableDays(avail) == [] ==> FormatDays(avail) == "Not available"
    ensures AvailableDays(avail) != [] ==> Split(FormatDays(avail), ',') == CommaSpaced(DayLabels(AvailableDays(avail)))
  {
    var days := AvailableDays(avail);
    FilterIsSubseq(avail, HasAvailableSlot);
    if days != [] {
      assert days[0] in days;
      var labels := DayLabels(days);
      JoinCommaSpace(labels);
      var pieces := CommaSpaced(labels);
      forall w | w in pieces ensures ',' !in w {
        var i :| 0 <= i < |pieces| && pieces[i] == w;
        assert days[i] in avail;
        UpperKeepsComma(days[i].name);
      }
      SplitJoin(pieces, ',');
    }
  }

  lemma UpperKeepsComma(s: string)
    requires ',' !in s
    ensures ',' !in Capitalize(s)
  {
    if s != "" {
      assert Capitalize(s)[0] == UpperChar(s[0]);
      assert Capitalize(s)[1..] == s[1..];
      assert forall i :: 1 <= i < |s| ==> Capitalize(s)[i] == s[i];
    }
  }

  // ---------------------------------------------------------------------
  // capacity

  /** patientLimit - currentPatients */
  function SlotsLeft(limit: JsNumber, current: int): (r: JsNumber)
    ensures r.Num? <==> limit.Num?
    ensures r.Num? ==> r.value + current == limit.value
  {
    if limit.NaN? then NaN else Num(limit.value - current)
  }

  datatype BarColour = Red | Yellow | Green

  /** The bar colour, comparing current / limit with 0.8 and then 0.5. A
      zero limit divides to Infinity (red) for a positive count, and to
      -Infinity or NaN (green) otherwise; a NaN limit compares false. */
  function CapacityColour(current: int, limit: JsNumber): BarColour {
    if limit.NaN? then Green
    else if limit.value == 0 then (if current > 0 then Red else Green)
    else
      var ratio := current as real / limit.value as real;
      if ratio > 0.8 then Red else if ratio > 0.5 then Yellow else Green
  }

  /** For a positive limit the thresholds are integer comparisons: red
      above four fifths, yellow above one half, green otherwise; a red bar
      leaves fewer than a fifth of the slots. */
  lemma CapacityCrossMultiplied(current: int, limit: int)
    requires limit > 0
    ensures CapacityColour(current, Num(limit)) == Red <==> 5 * current > 4 * limit
    ensures CapacityColour(current, Num(limit)) == Yellow <==> 2 * current > limit && 5 * current <= 4 * limit
    ensures CapacityColour(current, Num(limit)) == Green <==> 2 * current <= limit
    ensures CapacityColour(current, Num(limit)) == Red ==> 5 * SlotsLeft(Num(limit), current).value < limit
  {
    var l := limit as real;
    var c := current as real;
    DivideAbove(c, l, 0.8);
    DivideAbove(c, l, 0.5);
  }

  /** x / l > k exactly when x > k * l, for a positive l. */
  lemma DivideAbove(x: real, l: real, k: real)
    requires l > 0.0
    ensures x / l > k <==> x > k * l
  {
    var ratio := x / l;
    assert ratio * l == x;
    assert x - k * l == (ratio - k) * l;
    if ratio > k {
      PositiveProduct(ratio - k, l);
    } else {
      NonPositiveProduct(ratio - k, l);
    }
  }

  lemma PositiveProduct(x: real, y: real)
    requires x > 0.0 && y > 0.0
    ensures x * y > 0.0
  {
  }

  lemma NonPositiveProduct(x: real, y: real)
    requires x <= 0.0 && y > 0.0
    ensures x * y <= 0.0
  {
  }
}
