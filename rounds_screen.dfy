/**
 * The rounds screen (src/screens/RoundsScreen.tsx): which patients each
 * tab lists, the grouping of a list by hospital, the day-by-day review
 * shown before a discharge, and the swipe that opens it. Days are numbered
 * from 1970-01-01 in local time; the date key of a day is a parameter.
 */
module RoundsScreen {
  import opened Text
  import opened Inpatients
  import opened ChargesService

  // ==================================================================== the tabs

  datatype PatientListType = My | Practice | Call

  /** Whether a patient belongs on a tab. */
  function OnTab(tab: PatientListType, me: string, callIds: set<string>): Inpatient -> bool
  {
    (p: Inpatient) =>
      match tab
      case My => p.isActive && p.primaryPhysicianId == me
      case Practice => p.isActive
      case Call => p.isActive && p.id in callIds
  }

  /** `filteredPatients`: the patients of the active tab, in order. */
  function FilteredPatients(patients: seq<Inpatient>, tab: PatientListType, me: string, entries: seq<CallListEntry>)
    : (r: seq<Inpatient>)
    ensures forall p :: p in r <==> p in patients && p.isActive && match tab
      case My => p.primaryPhysicianId == me
      case Practice => true
      case Call => exists e :: e in entries && e.isActive && e.inpatientId == p.id
    ensures IsSubsequence(r, patients)
  {
    FilterIsSubsequence(patients, OnTab(tab, me, ActiveCallIds(entries)));
    Filter(patients, OnTab(tab, me, ActiveCallIds(entries)))
  }

  function OwnedBy(me: string): Inpatient -> bool
  {
    (p: Inpatient) => p.primaryPhysicianId == me
  }

  function OnCall(callIds: set<string>): Inpatient -> bool
  {
    (p: Inpatient) => p.id in callIds
  }

  /**
   * The 'my' and 'call' lists are the practice list narrowed to the user's
   * own patients and to the patients on call, in the same order.
   */
  lemma MyAndCallNarrowPractice(patients: seq<Inpatient>, me: string, entries: seq<CallListEntry>)
    ensures FilteredPatients(patients, My, me, entries) ==
      Filter(FilteredPatients(patients, Practice, me, entries), OwnedBy(me))
    ensures FilteredPatients(patients, Call, me, entries) ==
      Filter(FilteredPatients(patients, Practice, me, entries), OnCall(ActiveCallIds(entries)))
  {
    var ids := ActiveCallIds(entries);
    FilterFilter(patients, OnTab(Practice, me, ids), OwnedBy(me), OnTab(My, me, ids));
    FilterFilter(patients, OnTab(Practice, me, ids), OnCall(ids), OnTab(Call, me, ids));
  }

  // ==================================================================== grouping by hospital

  /** One hospital's section of the list: its label and its patients. */
  datatype HospitalGroup = HospitalGroup(hospitalName: string, patients: seq<Inpatient>)

  function AtHospital(id: string): Inpatient -> bool
  {
    (p: Inpatient) => p.hospitalId == id
  }

  function HospitalIds(hospitals: seq<Hospital>): set<string>
  {
    set h | h in hospitals :: h.id
  }

  function PatientHospitalIds(patients: seq<Inpatient>): set<string>
  {
    set p | p in patients :: p.hospitalId
  }

  /** The name the last listed hospital with this id gives (a later entry overwrites an earlier one). */
  function ListedName(hospitals: seq<Hospital>, id: string): (r: Option<string>)
    ensures r.Some? <==> id in HospitalIds(hospitals)
  {
    if |hospitals| == 0 then None
    else
      var init := hospitals[..|hospitals| - 1];
      assert hospitals == init + [hospitals[|hospitals| - 1]];
      if hospitals[|hospitals| - 1].id == id then Some(hospitals[|hospitals| - 1].name)
      else ListedName(init, id)
  }

  /** The first patient at a hospital, whose name labels a hospital missing from the list. */
  function FirstAt(patients: seq<Inpatient>, id: string): (r: Option<Inpatient>)
    ensures r.None? <==> id !in PatientHospitalIds(patients)
    ensures r.Some? ==> r.value in patients && r.value.hospitalId == id
  {
    if |patients| == 0 then None
    else
      var init := patients[..|patients| - 1];
      assert patients == init + [patients[|patients| - 1]];
      var before := FirstAt(init, id);
      if before.Some? then before
      else if patients[|patients| - 1].hospitalId == id then Some(patients[|patients| - 1])
      else None
  }

  /** The label of a hospital not in the list: the patient's hospital name, or 'Unknown Hospital'. */
  function FallbackName(p: Inpatient): string
  {
    OrElse(p.hospitalName, "Unknown Hospital")
  }

  /** A group's label: the listed hospital's name, or else the fallback of its first patient. */
  predicate NamedRight(hospitals: seq<Hospital>, patients: seq<Inpatient>, id: string, name: string)
  {
    match ListedName(hospitals, id)
    case Some(listed) => name == listed
    case None => FirstAt(patients, id).Some? && name == FallbackName(FirstAt(patients, id).value)
  }

  /**
   * `patientsByHospital`: a group for every listed hospital, empty or not,
   * and for every other hospital a listed patient is at; each group holds
   * exactly the patients at its hospital, in list order, under the label
   * `NamedRight` gives.
   */
  method PatientsByHospital(hospitals: seq<Hospital>, filtered: seq<Inpatient>) returns (grouped: map<string, HospitalGroup>)
    ensures grouped.Keys == HospitalIds(hospitals) + PatientHospitalIds(filtered)
    ensures forall id :: id in grouped ==> grouped[id].patients == Filter(filtered, AtHospital(id))
    ensures forall id :: id in grouped ==> NamedRight(hospitals, filtered, id, grouped[id].hospitalName)
  {
    var listed := ListHospitals(hospitals);
    grouped := PlacePatients(hospitals, listed, filtered);
  }

  /** The first loop: an empty group for every listed hospital. */
  method ListHospitals(hospitals: seq<Hospital>) returns (grouped: map<string, HospitalGroup>)
    ensures grouped.Keys == HospitalIds(hospitals)
    ensures forall id :: id in grouped ==> grouped[id].patients == [] && Some(grouped[id].hospitalName) == ListedName(hospitals, id)
  {
    grouped := map[];
    for i := 0 to |hospitals|
      invariant grouped.Keys == HospitalIds(hospitals[..i])
      invariant forall id :: id in grouped ==> grouped[id].patients == [] && Some(grouped[id].hospitalName) == ListedName(hospitals[..i], id)
    {
      var h := hospitals[i];
      ListStep(hospitals, i);
      grouped := grouped[h.id := HospitalGroup(h.name, [])];
    }
    assert hospitals[..|hospitals|] == hospitals;
  }

  /** What one more hospital does to the ids and the names. */
  lemma ListStep(hospitals: seq<Hospital>, i: nat)
    requires i < |hospitals|
    ensures HospitalIds(hospitals[..i + 1]) == HospitalIds(hospitals[..i]) + {hospitals[i].id}
    ensures ListedName(hospitals[..i + 1], hospitals[i].id) == Some(hospitals[i].name)
    ensures forall id :: id != hospitals[i].id ==> ListedName(hospitals[..i + 1], id) == ListedName(hospitals[..i], id)
  {
    assert hospitals[..i + 1] == hospitals[..i] + [hospitals[i]];
    assert hospitals[..i + 1][..i] == hospitals[..i];
  }

  /** The groups after the patients `ps`: every hospital present, each group exact and labelled right. */
  predicate GroupedAfter(hospitals: seq<Hospital>, ps: seq<Inpatient>, grouped: map<string, HospitalGroup>)
  {
    && grouped.Keys == HospitalIds(hospitals) + PatientHospitalIds(ps)
    && (forall id :: id in grouped ==> grouped[id].patients == Filter(ps, AtHospital(id)))
    && (forall id :: id in grouped ==> NamedRight(hospitals, ps, id, grouped[id].hospitalName))
  }

  /** One patient pushed onto its hospital's group, which is created first if missing. */
  function Place(grouped: map<string, HospitalGroup>, p: Inpatient): map<string, HospitalGroup>
  {
    var g := if p.hospitalId in grouped then grouped[p.hospitalId] else HospitalGroup(FallbackName(p), []);
    grouped[p.hospitalId := g.(patients := g.patients + [p])]
  }

  /** Placing the next patient keeps the groups right. */
  lemma PlaceKeepsGrouped(hospitals: seq<Hospital>, filtered: seq<Inpatient>, i: nat, grouped: map<string, HospitalGroup>)
    requires i < |filtered| && GroupedAfter(hospitals, filtered[..i], grouped)
    ensures GroupedAfter(hospitals, filtered[..i + 1], Place(grouped, filtered[i]))
  {
    PlaceKeepsKeys(hospitals, filtered, i, grouped);
    PlaceKeepsExact(hospitals, filtered, i, grouped);
    PlaceKeepsNames(hospitals, filtered, i, grouped);
  }

  lemma PlaceKeepsKeys(hospitals: seq<Hospital>, filtered: seq<Inpatient>, i: nat, grouped: map<string, HospitalGroup>)
    requires i < |filtered| && grouped.Keys == HospitalIds(hospitals) + PatientHospitalIds(filtered[..i])
    ensures Place(grouped, filtered[i]).Keys == HospitalIds(hospitals) + PatientHospitalIds(filtered[..i + 1])
  {
    PlaceStep(filtered, i);
  }

  lemma PlaceKeepsExact(hospitals: seq<Hospital>, filtered: seq<Inpatient>, i: nat, grouped: map<string, HospitalGroup>)
    requires i < |filtered| && GroupedAfter(hospitals, filtered[..i], grouped)
    ensures forall id :: id in Place(grouped, filtered[i]) ==>
      Place(grouped, filtered[i])[id].patients == Filter(filtered[..i + 1], AtHospital(id))
  {
    var p := filtered[i];
    var next := Place(grouped, p);
    PlaceStep(filtered, i);
    forall id | id in next
      ensures next[id].patients == Filter(filtered[..i + 1], AtHospital(id))
    {
      if id == p.hospitalId && id !in grouped {
        assert id !in PatientHospitalIds(filtered[..i]);
        FilterNone(filtered[..i], AtHospital(id));
      }
    }
  }

  lemma PlaceKeepsNames(hospitals: seq<Hospital>, filtered: seq<Inpatient>, i: nat, grouped: map<string, HospitalGroup>)
    requires i < |filtered| && GroupedAfter(hospitals, filtered[..i], grouped)
    ensures forall id :: id in Place(grouped, filtered[i]) ==>
      NamedRight(hospitals, filtered[..i + 1], id, Place(grouped, filtered[i])[id].hospitalName)
  {
    var p := filtered[i];
    var next := Place(grouped, p);
    PlaceStep(filtered, i);
    forall id | id in next
      ensures NamedRight(hospitals, filtered[..i + 1], id, next[id].hospitalName)
    {
      if id != p.hospitalId || p.hospitalId in grouped {
        assert next[id].hospitalName == grouped[id].hospitalName;
      }
    }
  }

  /** The second loop: each patient pushed onto its hospital's group, created on first sight if unlisted. */
  method PlacePatients(hospitals: seq<Hospital>, listed: map<string, HospitalGroup>, filtered: seq<Inpatient>)
    returns (grouped: map<string, HospitalGroup>)
    requires listed.Keys == HospitalIds(hospitals)
    requires forall id :: id in listed ==> listed[id].patients == [] && Some(listed[id].hospitalName) == ListedName(hospitals, id)
    ensures GroupedAfter(hospitals, filtered, grouped)
  {
    grouped := listed;
    assert PatientHospitalIds(filtered[..0]) == {};
    for i := 0 to |filtered|
      invariant GroupedAfter(hospitals, filtered[..i], grouped)
    {
      var p := filtered[i];
      PlaceKeepsGrouped(hospitals, filtered, i, grouped);
      var group := if p.hospitalId in grouped then grouped[p.hospitalId] else HospitalGroup(FallbackName(p), []);
      grouped := grouped[p.hospitalId := group.(patients := group.patients + [p])];
    }
    assert filtered[..|filtered|] == filtered;
  }

  /** What one more patient does to the filters, the hospital ids and the first patients. */
  lemma PlaceStep(filtered: seq<Inpatient>, i: nat)
    requires i < |filtered|
    ensures forall id {:trigger AtHospital(id)} ::
      Filter(filtered[..i + 1], AtHospital(id)) == Filter(filtered[..i], AtHospital(id)) + (if filtered[i].hospitalId == id then [filtered[i]] else [])
    ensures PatientHospitalIds(filtered[..i + 1]) == PatientHospitalIds(filtered[..i]) + {filtered[i].hospitalId}
    ensures forall id :: FirstAt(filtered[..i], id).Some? ==> FirstAt(filtered[..i + 1], id) == FirstAt(filtered[..i], id)
    ensures FirstAt(filtered[..i], filtered[i].hospitalId).None? ==>
      FirstAt(filtered[..i + 1], filtered[i].hospitalId) == Some(filtered[i])
  {
    assert filtered[..i + 1] == filtered[..i] + [filtered[i]];
    assert filtered[..i + 1][..i] == filtered[..i];
    forall id ensures Filter(filtered[..i + 1], AtHospital(id)) ==
      Filter(filtered[..i], AtHospital(id)) + (if filtered[i].hospitalId == id then [filtered[i]] else [])
    {
      FilterSnoc(filtered[..i], filtered[i], AtHospital(id));
    }
  }

  /** A patient on the list is in exactly one group: the one for its hospital. */
  lemma OneGroupPerPatient(hospitals: seq<Hospital>, filtered: seq<Inpatient>, grouped: map<string, HospitalGroup>, p: Inpatient)
    requires grouped.Keys == HospitalIds(hospitals) + PatientHospitalIds(filtered)
    requires forall id :: id in grouped ==> grouped[id].patients == Filter(filtered, AtHospital(id))
    requires p in filtered
    ensures p.hospitalId in grouped
    ensures forall id :: id in grouped ==> (p in grouped[id].patients <==> id == p.hospitalId)
  {
  }

  // ==================================================================== discharge review

  /** One day of the stay in the discharge review. */
  datatype DischargeDay = DischargeDay(
    dateStr: string,
    dayNumber: nat,
    hasCharge: bool,
    charge: Option<StoredCharge>,
    isWeekend: bool)

  /** `getDay` of a day number: day 0, 1970-01-01, was a Thursday. */
  function DayOfWeek(day: int): int
  {
    (day + 4) % 7
  }

  predicate IsWeekendDay(day: int) { DayOfWeek(day) == 0 || DayOfWeek(day) == 6 }

  /**
   * `dischargeDays`: from the admit day up to today, one entry per day,
   * numbered 1, 2, ..., marked with the charge stored under its date key.
   */
  method DischargeDays(admit: int, today: int, dateKey: int -> string, charges: map<string, StoredCharge>)
    returns (days: seq<DischargeDay>)
    ensures |days| == if admit <= today then today - admit + 1 else 0
    ensures forall i :: 0 <= i < |days| ==> days[i].dayNumber == i + 1 && days[i].dateStr == dateKey(admit + i)
    ensures forall i :: 0 <= i < |days| ==> (days[i].hasCharge <==> dateKey(admit + i) in charges)
    ensures forall i :: 0 <= i < |days| ==> days[i].charge.Some? == days[i].hasCharge
    ensures forall i :: 0 <= i < |days| && days[i].hasCharge ==> days[i].charge.value == charges[dateKey(admit + i)]
    ensures forall i :: 0 <= i < |days| ==> (days[i].isWeekend <==> IsWeekendDay(admit + i))
  {
    days := [];
    var dayNumber := 1;
    var current := admit;
    while current <= today
      invariant current == admit + |days| && dayNumber == |days| + 1
      invariant admit <= today ==> current <= today + 1
      invariant admit > today ==> days == []
      invariant forall i :: 0 <= i < |days| ==> days[i].dayNumber == i + 1 && days[i].dateStr == dateKey(admit + i)
      invariant forall i :: 0 <= i < |days| ==> (days[i].hasCharge <==> dateKey(admit + i) in charges)
      invariant forall i :: 0 <= i < |days| ==> days[i].charge.Some? == days[i].hasCharge
      invariant forall i :: 0 <= i < |days| && days[i].hasCharge ==> days[i].charge.value == charges[dateKey(admit + i)]
      invariant forall i :: 0 <= i < |days| ==> (days[i].isWeekend <==> IsWeekendDay(admit + i))
      decreases today - current
    {
      var dateStr := dateKey(current);
      var charge := if dateStr in charges then Some(charges[dateStr]) else None;
      days := days + [DischargeDay(dateStr, dayNumber, charge.Some?, charge, IsWeekendDay(current))];
      dayNumber := dayNumber + 1;
      current := current + 1;
    }
  }

  datatype DischargeSummary = DischargeSummary(totalDays: nat, billedDays: nat, gapCount: int)

  function Billed(): DischargeDay -> bool { (d: DischargeDay) => d.hasCharge }
  function Unbilled(): DischargeDay -> bool { (d: DischargeDay) => !d.hasCharge }

  /** `dischargeSummary`: the days, the billed days, and the gaps, which are the days without a charge. */
  function Summary(days: seq<DischargeDay>): (r: DischargeSummary)
    ensures r.totalDays == |days|
    ensures r.billedDays <= r.totalDays
    ensures r.gapCount == |Filter(days, Unbilled())| && r.gapCount >= 0
    ensures r.billedDays + r.gapCount == r.totalDays
    ensures forall d :: d in days && d.hasCharge ==> r.billedDays > 0
  {
    FilterComplement(days, Billed(), Unbilled());
    var billed := |Filter(days, Billed())|;
    DischargeSummary(|days|, billed, |days| - billed)
  }

  // ==================================================================== swipe to discharge

  /** The largest offset a swipe shows. */
  const MaxSwipe: real := 120.0
  /** The offset past which releasing opens the discharge review. */
  const DischargeThreshold: real := 80.0

  datatype SwipeState = SwipeState(swipedPatientId: Option<string>, startX: real, offsetX: real)

  predicate SwipeValid(s: SwipeState) { 0.0 <= s.offsetX <= MaxSwipe }

  /** `handleTouchStart`. */
  function TouchStart(s: SwipeState, patientId: string, clientX: real): (r: SwipeState)
    ensures SwipeValid(r) && r.swipedPatientId == Some(patientId) && r.startX == clientX
  {
    SwipeState(Some(patientId), clientX, 0.0)
  }

  /** `handleTouchMove`: only a left swipe moves the row, and never past the maximum. */
  function TouchMove(s: SwipeState, clientX: real): (r: SwipeState)
    ensures s.swipedPatientId.None? ==> r == s
    ensures s.swipedPatientId.Some? ==> SwipeValid(r) && r.swipedPatientId == s.swipedPatientId && r.startX == s.startX
    ensures s.swipedPatientId.Some? && 0.0 <= s.startX - clientX <= MaxSwipe ==> r.offsetX == s.startX - clientX
    ensures s.swipedPatientId.Some? && s.startX - clientX < 0.0 ==> r.offsetX == 0.0
    ensures s.swipedPatientId.Some? && s.startX - clientX > MaxSwipe ==> r.offsetX == MaxSwipe
  {
    if s.swipedPatientId.None? then s
    else
      var diff := s.startX - clientX;
      var capped := if diff < MaxSwipe then diff else MaxSwipe;
      s.(offsetX := if 0.0 > capped then 0.0 else capped)
  }

  /** `handleTouchEnd`: past the threshold the review opens for the patient; the swipe resets either way. */
  function TouchEnd(s: SwipeState, patient: Inpatient): (r: (SwipeState, Option<Inpatient>))
    ensures r.0.swipedPatientId.None? && r.0.offsetX == 0.0 && SwipeValid(r.0)
    ensures r.1.Some? <==> s.offsetX > DischargeThreshold
    ensures r.1.Some? ==> r.1.value == patient
  {
    (s.(swipedPatientId := None, offsetX := 0.0), if s.offsetX > DischargeThreshold then Some(patient) else None)
  }

  /** A touch, a move and a release open the review exactly when the finger went more than 80 points left. */
  lemma DischargeNeedsLongSwipe(s: SwipeState, id: string, startX: real, clientX: real, patient: Inpatient)
    ensures TouchEnd(TouchMove(TouchStart(s, id, startX), clientX), patient).1.Some? <==> startX - clientX > DischargeThreshold
  {
  }
}
