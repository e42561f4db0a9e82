/**
 * The call-list picker (src/components/CallListPickerDialog.tsx): the
 * user's own and the practice's other patients not yet on call, the search
 * over them, the selection, and adding the selection to the call list.
 * Adding is a callback in the source; here each call it would receive is
 * returned, in order.
 */
module CallListPicker {
  import opened Text
  import opened Inpatients

  /** `myPatients`, `otherPatients`: active, not already on call, split by primary physician. */
  function Candidate(me: string, onCall: set<string>, mine: bool): Inpatient -> bool
  {
    (p: Inpatient) => p.isActive && (p.primaryPhysicianId == me) == mine && p.id !in onCall
  }

  function MyPatients(patients: seq<Inpatient>, me: string, entries: seq<CallListEntry>): (r: seq<Inpatient>)
    ensures forall p :: p in r <==>
      p in patients && p.isActive && p.primaryPhysicianId == me && p.id !in ActiveCallIds(entries)
    ensures IsSubsequence(r, patients)
  {
    FilterIsSubsequence(patients, Candidate(me, ActiveCallIds(entries), true));
    Filter(patients, Candidate(me, ActiveCallIds(entries), true))
  }

  function OtherPatients(patients: seq<Inpatient>, me: string, entries: seq<CallListEntry>): (r: seq<Inpatient>)
    ensures forall p :: p in r <==>
      p in patients && p.isActive && p.primaryPhysicianId != me && p.id !in ActiveCallIds(entries)
    ensures IsSubsequence(r, patients)
  {
    FilterIsSubsequence(patients, Candidate(me, ActiveCallIds(entries), false));
    Filter(patients, Candidate(me, ActiveCallIds(entries), false))
  }

  /**
   * The two lists share no patient, hold only active patients none of whom
   * is on an active call-list entry, and between them hold every such patient.
   */
  lemma PartitionOfCandidates(patients: seq<Inpatient>, me: string, entries: seq<CallListEntry>)
    ensures forall p :: !(p in MyPatients(patients, me, entries) && p in OtherPatients(patients, me, entries))
    ensures forall p :: p in MyPatients(patients, me, entries) || p in OtherPatients(patients, me, entries) ==>
      p.isActive && forall e :: e in entries && e.isActive ==> e.inpatientId != p.id
    ensures forall p :: p in patients && p.isActive && p.id !in ActiveCallIds(entries) ==>
      p in MyPatients(patients, me, entries) || p in OtherPatients(patients, me, entries)
    ensures |MyPatients(patients, me, entries)| + |OtherPatients(patients, me, entries)| <= |patients|
  {
    var onCall := ActiveCallIds(entries);
    var mine := Candidate(me, onCall, true);
    var other := Candidate(me, onCall, false);
    var neither := (p: Inpatient) => !mine(p);
    FilterComplement(patients, mine, neither);
    FilterLengthMonotone(patients, other, neither);
  }

  // ==================================================================== search

  /** One patient against the lowercased query: name, hospital or MRN. */
  predicate MatchesSearch(p: Inpatient, q: string)
  {
    || Contains(Lower(p.patientName), q)
    || (p.hospitalName.Some? && Contains(Lower(p.hospitalName.value), q))
    || (p.mrn.Some? && Contains(Lower(p.mrn.value), q))
  }

  function Matching(q: string): Inpatient -> bool
  {
    (p: Inpatient) => MatchesSearch(p, q)
  }

  /**
   * `filterBySearch`: a blank search leaves the list as it is; otherwise the
   * patients whose name, hospital or MRN contains the lowercased (untrimmed)
   * search, in order.
   */
  function FilterBySearch(list: seq<Inpatient>, search: string): (r: seq<Inpatient>)
    ensures Trim(search) == "" ==> r == list
    ensures Trim(search) != "" ==> forall p :: p in r <==> p in list && MatchesSearch(p, Lower(search))
    ensures IsSubsequence(r, list)
  {
    if Trim(search) == "" then
      SelfSubsequence(list);
      list
    else
      FilterIsSubsequence(list, Matching(Lower(search)));
      Filter(list, Matching(Lower(search)))
  }

  /** The search ignores the case of the query. */
  lemma SearchIgnoresCase(list: seq<Inpatient>, search: string)
    ensures FilterBySearch(list, Lower(search)) == FilterBySearch(list, search)
  {
    LowerIdempotent(search);
    LowerKeepsBlank(search);
  }

  /** Lowercasing does not change whether a string is blank. */
  lemma LowerKeepsBlank(s: string)
    ensures Trim(Lower(s)) == "" <==> Trim(s) == ""
  {
    assert forall i :: 0 <= i < |s| ==> (IsSpace(Lower(s)[i]) <==> IsSpace(s[i]));
  }

  /** A sequence is a subsequence of itself. */
  lemma {:induction false} SelfSubsequence<T>(s: seq<T>)
    ensures IsSubsequence(s, s)
    decreases |s|
  {
    if |s| > 0 {
      SelfSubsequence(s[1..]);
    }
  }

  // ==================================================================== adding the selection

  /** One call of `onAddToCallList`: the patient and whom the user covers for. */
  datatype CallListAdd = CallListAdd(patient: Inpatient, coveringFor: Option<string>)

  /** The covering name: the primary physician's, for a patient the user does not own, when it is not empty. */
  function CoveringFor(p: Inpatient, me: string): (r: Option<string>)
    ensures r.Some? <==> p.primaryPhysicianId != me && Truthy(p.primaryPhysicianName)
    ensures r.Some? ==> r == p.primaryPhysicianName
  {
    if p.primaryPhysicianId != me && Truthy(p.primaryPhysicianName) then p.primaryPhysicianName else None
  }

  /** What one selected id adds: nothing when no patient has it. */
  function AddFor(patients: seq<Inpatient>, me: string): string -> seq<CallListAdd>
  {
    (id: string) =>
      match FindPatient(patients, id)
      case None => []
      case Some(p) => [CallListAdd(p, CoveringFor(p, me))]
  }

  /** The adds for a selection, in selection order. */
  function Adds(patients: seq<Inpatient>, me: string, selected: seq<string>): seq<CallListAdd>
  {
    FlatMap(selected, AddFor(patients, me))
  }

  /** At most one add per selected id. */
  lemma {:induction false} AddsLength(patients: seq<Inpatient>, me: string, selected: seq<string>)
    ensures |Adds(patients, me, selected)| <= |selected|
  {
    if |selected| > 0 {
      var init := selected[..|selected| - 1];
      AddsLength(patients, me, init);
      assert selected == init + [selected[|selected| - 1]];
      FlatMapStep(selected, |selected| - 1, AddFor(patients, me));
      assert |AddFor(patients, me)(selected[|selected| - 1])| <= 1;
    }
  }

  /** Each add is the first patient with a selected id, covering for whom `CoveringFor` says. */
  lemma AddsSound(patients: seq<Inpatient>, me: string, selected: seq<string>)
    ensures forall a :: a in Adds(patients, me, selected) ==>
      a.patient in patients && a.patient.id in selected && FindPatient(patients, a.patient.id) == Some(a.patient)
      && a.coveringFor == CoveringFor(a.patient, me)
  {
    var f := AddFor(patients, me);
    forall a | a in Adds(patients, me, selected)
      ensures a.patient in patients && a.patient.id in selected && FindPatient(patients, a.patient.id) == Some(a.patient)
      ensures a.coveringFor == CoveringFor(a.patient, me)
    {
      FlatMapMember(selected, f, a);
      var i :| 0 <= i < |selected| && a in f(selected[i]);
      FindPatientMember(patients, selected[i]);
    }
  }

  /** Every selected id some patient has is added. */
  lemma AddsComplete(patients: seq<Inpatient>, me: string, selected: seq<string>)
    ensures forall id :: id in selected && FindPatient(patients, id).Some? ==>
      CallListAdd(FindPatient(patients, id).value, CoveringFor(FindPatient(patients, id).value, me)) in Adds(patients, me, selected)
  {
    var f := AddFor(patients, me);
    forall id | id in selected && FindPatient(patients, id).Some?
      ensures CallListAdd(FindPatient(patients, id).value, CoveringFor(FindPatient(patients, id).value, me)) in Adds(patients, me, selected)
    {
      var i :| 0 <= i < |selected| && selected[i] == id;
      FlatMapMember(selected, f, CallListAdd(FindPatient(patients, id).value, CoveringFor(FindPatient(patients, id).value, me)));
    }
  }

  /**
   * Each add is the first patient with a selected id, covering for its
   * primary physician exactly when another physician owns it; every selected
   * id some patient has is added.
   */
  lemma AddsCharacterised(patients: seq<Inpatient>, me: string, selected: seq<string>)
    ensures |Adds(patients, me, selected)| <= |selected|
    ensures forall a :: a in Adds(patients, me, selected) ==>
      a.patient in patients && a.patient.id in selected && FindPatient(patients, a.patient.id) == Some(a.patient)
      && a.coveringFor == CoveringFor(a.patient, me)
    ensures forall id :: id in selected && FindPatient(patients, id).Some? ==>
      CallListAdd(FindPatient(patients, id).value, CoveringFor(FindPatient(patients, id).value, me)) in Adds(patients, me, selected)
  {
    AddsLength(patients, me, selected);
    AddsSound(patients, me, selected);
    AddsComplete(patients, me, selected);
  }

  /** Without repeated ids in the selection, no patient is added twice. */
  lemma {:induction false} AddsDistinctPatients(patients: seq<Inpatient>, me: string, selected: seq<string>)
    requires NoDup(selected)
    ensures forall i, j :: 0 <= i < j < |Adds(patients, me, selected)| ==>
      Adds(patients, me, selected)[i].patient != Adds(patients, me, selected)[j].patient
  {
    if |selected| > 0 {
      var init := selected[..|selected| - 1];
      var last := selected[|selected| - 1];
      assert NoDup(init) by {
        assert forall i :: 0 <= i < |init| ==> init[i] == selected[i];
      }
      AddsDistinctPatients(patients, me, init);
      AddsSound(patients, me, init);
      var before := Adds(patients, me, init);
      var step := AddFor(patients, me)(last);
      assert Adds(patients, me, selected) == before + step;
      assert last !in init by {
        forall i | 0 <= i < |init| ensures init[i] != last {
          assert init[i] == selected[i];
        }
      }
      forall a | a in step ensures a.patient.id == last {
        FindPatientMember(patients, last);
      }
      var all := before + step;
      forall i, j | 0 <= i < j < |all| ensures all[i].patient != all[j].patient {
        if j >= |before| && i < |before| {
          assert all[i] in before && all[j] in step;
        }
      }
    }
  }

  /** A patient `FindPatient` returns is on the list. */
  lemma FindPatientMember(patients: seq<Inpatient>, id: string)
    ensures FindPatient(patients, id).Some? ==> FindPatient(patients, id).value in patients
  {
  }

  /** The picker's state: the search box and the selected ids, in the order they were selected. */
  class Picker {
    var search: string
    var selectedIds: seq<string>

    /** The selection stands for a `Set`: no id twice. */
    predicate Valid()
      reads this
    {
      NoDup(selectedIds)
    }

    constructor()
      ensures Valid()
      ensures search == "" && selectedIds == []
    {
      search := "";
      selectedIds := [];
    }

    /** `toggleSelection`: the id leaves the selection if it was in it, and joins it otherwise. */
    method ToggleSelection(id: string)
      requires Valid()
      modifies this
      ensures Valid()
      ensures selectedIds == Flip(old(selectedIds), id)
      ensures id in selectedIds <==> id !in old(selectedIds)
      ensures search == old(search)
    {
      selectedIds := Flip(selectedIds, id);
    }

    /**
     * `handleAddSelected`: one add per selected id some patient has, in
     * selection order; then the selection and the search are cleared.
     */
    method HandleAddSelected(patients: seq<Inpatient>, me: string) returns (adds: seq<CallListAdd>)
      requires Valid()
      modifies this
      ensures Valid()
      ensures adds == Adds(patients, me, old(selectedIds))
      ensures forall i, j :: 0 <= i < j < |adds| ==> adds[i].patient != adds[j].patient
      ensures selectedIds == [] && search == ""
    {
      var ids := selectedIds;
      adds := [];
      for i := 0 to |ids|
        invariant adds == Adds(patients, me, ids[..i])
      {
        var id := ids[i];
        FlatMapStep(ids, i, AddFor(patients, me));
        var patient := FindPatient(patients, id);
        if patient.Some? {
          var p := patient.value;
          var coveringFor := if p.primaryPhysicianId != me then (if Truthy(p.primaryPhysicianName) then p.primaryPhysicianName else None) else None;
          adds := adds + [CallListAdd(p, coveringFor)];
        }
      }
      assert ids[..|ids|] == ids;
      AddsDistinctPatients(patients, me, ids);
      selectedIds := [];
      search := "";
    }
  }
}
