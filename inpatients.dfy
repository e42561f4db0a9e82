/**
 * The records the rosters, queues and pickers share (src/types/index.ts):
 * the patient (`Inpatient`), the hospital and the call-list entry.
 * Timestamps and the discharge date are left out: no modelled operation
 * reads them.
 */
module Inpatients {
  import opened Text

  datatype Inpatient = Inpatient(
    id: string,
    organizationId: string,
    primaryPhysicianId: string,
    primaryPhysicianName: Option<string>,
    hospitalId: string,
    hospitalName: Option<string>,
    patientName: string,
    dob: string,
    mrn: Option<string>,
    isActive: bool,
    coveringFor: Option<string>)

  /** `patients.find(p => p.id === id)`: the first patient with that id. */
  function FindPatient(patients: seq<Inpatient>, id: string): (r: Option<Inpatient>)
    ensures r.None? <==> forall p :: p in patients ==> p.id != id
    ensures r.Some? ==> r.value.id == id
    ensures r.Some? ==> exists i :: 0 <= i < |patients| && patients[i] == r.value && (forall j :: 0 <= j < i ==> patients[j].id != id)
  {
    if |patients| == 0 then None
    else if patients[0].id == id then Some(patients[0])
    else
      assert patients == [patients[0]] + patients[1..];
      FindPatient(patients[1..], id)
  }

  /**
   * A lookup in `new Map(patients.map(p => [p.id, p]))`: filling the map in
   * order, a later patient with the same id replaces an earlier one.
   */
  function PatientById(patients: seq<Inpatient>, id: string): (r: Option<Inpatient>)
    ensures r.None? <==> forall p :: p in patients ==> p.id != id
    ensures r.Some? ==> r.value.id == id
    ensures r.Some? ==> exists i :: 0 <= i < |patients| && patients[i] == r.value && (forall j :: i < j < |patients| ==> patients[j].id != id)
  {
    if |patients| == 0 then None
    else if patients[|patients| - 1].id == id then Some(patients[|patients| - 1])
    else
      var init := patients[..|patients| - 1];
      assert patients == init + [patients[|patients| - 1]];
      PatientById(init, id)
  }

  /** A hospital of the organisation (`Hospital` in src/types/index.ts, id and name only). */
  datatype Hospital = Hospital(id: string, name: string)

  /** A patient on someone's call list (`CallListEntry`); the display copies of name and hospital are left out. */
  datatype CallListEntry = CallListEntry(
    id: string,
    inpatientId: string,
    addedByUserId: string,
    coveringFor: Option<string>,
    isActive: bool)

  /** The patients on an active call-list entry: `new Set(entries.filter(e => e.isActive).map(e => e.inpatientId))`. */
  function ActiveCallIds(entries: seq<CallListEntry>): (ids: set<string>)
    ensures forall id :: id in ids <==> exists e :: e in entries && e.isActive && e.inpatientId == id
  {
    set e | e in entries && e.isActive :: e.inpatientId
  }
}
