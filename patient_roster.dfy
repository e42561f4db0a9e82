/**
 * The admin roster (src/services/patientRosterService.ts): one patient with
 * their charge history and counts, and the patient search. The organisation's
 * patients and charges are parameters, and so is the inpatient catalogue's
 * RVU per code.
 */
module PatientRoster {
  import opened Text
  import opened Sorting
  import opened ChargesService
  import opened Inpatients
  import opened AdminChargeService

  /** The roster's `stripModifier`: a trailing dash-and-digits modifier is removed, then the code is trimmed. */
  function RosterStripModifier(code: string): (r: string)
  {
    Trim(StripNumericSuffix(code))
  }

  /** Only a trailing numeric modifier goes: a code with one appended strips back to the trimmed code. */
  lemma RosterStripModifierRoundTrip(code: string, modifier: string)
    requires |modifier| > 0 && AllDigits(modifier)
    ensures RosterStripModifier(code + "-" + modifier) == Trim(code)
  {
    StripNumericSuffixOfAppended(code, modifier);
  }

  /** A code without a dash only loses surrounding white space. */
  lemma RosterStripModifierNoDash(code: string)
    requires '-' !in code
    ensures RosterStripModifier(code) == Trim(code)
  {
    StripNumericSuffixNoDash(code);
  }

  /** The RVU `getRVUForCode` gives a single code: the catalogue's for its base code. */
  function PartRvu(catalogRvu: string -> real, part: string): real
  {
    catalogRvu(RosterStripModifier(Trim(part)))
  }

  function SumRvu(catalogRvu: string -> real, parts: seq<string>): real
  {
    if |parts| == 0 then 0.0 else SumRvu(catalogRvu, parts[..|parts| - 1]) + PartRvu(catalogRvu, parts[|parts| - 1])
  }

  /** `getRVUForCode`: a ' + ' joined code sums its parts' RVUs. */
  function RvuForCode(catalogRvu: string -> real, cptCode: string): real
  {
    if Contains(cptCode, " + ") then SumRvu(catalogRvu, Split(cptCode, " + "))
    else catalogRvu(RosterStripModifier(cptCode))
  }

  /** A charge's RVU: the stored one when it is non-zero (`c.rvu || ...`), else the catalogue's. */
  function ChargeRvu(catalogRvu: string -> real, c: StoredCharge): real
  {
    if c.rvu.Some? && c.rvu.value != 0.0 then c.rvu.value else RvuForCode(catalogRvu, c.cptCode)
  }

  function TotalRvu(catalogRvu: string -> real, charges: seq<StoredCharge>): real
  {
    if |charges| == 0 then 0.0 else TotalRvu(catalogRvu, charges[..|charges| - 1]) + ChargeRvu(catalogRvu, charges[|charges| - 1])
  }

  /** Non-negative RVUs add up to a non-negative total. */
  lemma {:induction false} TotalRvuNonNegative(catalogRvu: string -> real, charges: seq<StoredCharge>)
    requires forall code :: catalogRvu(code) >= 0.0
    requires forall c :: c in charges && c.rvu.Some? ==> c.rvu.value >= 0.0
    ensures TotalRvu(catalogRvu, charges) >= 0.0
  {
    if |charges| > 0 {
      var last := charges[|charges| - 1];
      assert forall c :: c in charges[..|charges| - 1] ==> c in charges;
      TotalRvuNonNegative(catalogRvu, charges[..|charges| - 1]);
      if !(last.rvu.Some? && last.rvu.value != 0.0) && Contains(last.cptCode, " + ") {
        SumRvuNonNegative(catalogRvu, Split(last.cptCode, " + "));
      }
    }
  }

  lemma {:induction false} SumRvuNonNegative(catalogRvu: string -> real, parts: seq<string>)
    requires forall code :: catalogRvu(code) >= 0.0
    ensures SumRvu(catalogRvu, parts) >= 0.0
  {
    if |parts| > 0 {
      SumRvuNonNegative(catalogRvu, parts[..|parts| - 1]);
    }
  }

  /** The `forEach` that adds up the history's RVUs. */
  method AddUpRvu(catalogRvu: string -> real, charges: seq<StoredCharge>) returns (total: real)
    ensures total == TotalRvu(catalogRvu, charges)
  {
    total := 0.0;
    for i := 0 to |charges|
      invariant total == TotalRvu(catalogRvu, charges[..i])
    {
      assert charges[..i + 1][..i] == charges[..i];
      total := total + ChargeRvu(catalogRvu, charges[i]);
    }
    assert charges[..|charges|] == charges;
  }

  datatype PatientWithCharges = PatientWithCharges(
    patient: Inpatient,
    charges: seq<StoredCharge>,
    totalCharges: nat,
    pendingCharges: nat,
    billedCharges: nat,
    totalRvu: real,
    lastChargeDate: Option<int>)

  /** `getPatientWithCharges`: none for an unknown patient; otherwise the history, its counts and its last date. */
  method GetPatientWithCharges(patients: seq<Inpatient>, allCharges: seq<StoredCharge>, catalogRvu: string -> real, patientId: string)
    returns (r: Option<PatientWithCharges>)
    ensures r.None? <==> forall p :: p in patients ==> p.id != patientId
    ensures r.Some? ==> var w := r.value;
      && Some(w.patient) == FindPatient(patients, patientId)
      && w.charges == PatientChargeHistory(allCharges, patientId)
      && w.totalCharges == |w.charges|
      && w.pendingCharges == |Filter(w.charges, (c: StoredCharge) => c.status == Pending)|
      && w.billedCharges == |Filter(w.charges, (c: StoredCharge) => c.status == Billed)|
      && w.totalRvu == TotalRvu(catalogRvu, w.charges)
      && (w.lastChargeDate.None? <==> |w.charges| == 0)
      && (w.lastChargeDate.Some? ==> w.lastChargeDate.value == w.charges[|w.charges| - 1].chargeDate)
  {
    var patient := FindPatient(patients, patientId);
    if patient.None? {
      return None;
    }
    var charges := PatientChargeHistory(allCharges, patientId);
    var total := AddUpRvu(catalogRvu, charges);
    var last := if |charges| > 0 then Some(charges[|charges| - 1].chargeDate) else None;
    r := Some(PatientWithCharges(
      patient.value, charges, |charges|,
      |Filter(charges, (c: StoredCharge) => c.status == Pending)|,
      |Filter(charges, (c: StoredCharge) => c.status == Billed)|,
      total, last));
  }

  /** The last date of the history is the patient's latest charge date. */
  lemma LastChargeDateIsLatest(allCharges: seq<StoredCharge>, patientId: string)
    requires exists c :: c in allCharges && c.inpatientId == patientId
    ensures var h := PatientChargeHistory(allCharges, patientId);
      |h| > 0
      && (forall c :: c in allCharges && c.inpatientId == patientId ==> c.chargeDate <= h[|h| - 1].chargeDate)
  {
    var h := PatientChargeHistory(allCharges, patientId);
    HistoryMembers(allCharges, patientId);
    var c0 :| c0 in allCharges && c0.inpatientId == patientId;
    assert c0 in h;
    forall c | c in allCharges && c.inpatientId == patientId ensures c.chargeDate <= h[|h| - 1].chargeDate {
      var i :| 0 <= i < |h| && h[i] == c;
      if i < |h| - 1 {
        assert ChargeDateKey(h[i]) <= ChargeDateKey(h[|h| - 1]);
      }
    }
  }

  /** The history's status counts never exceed its length. */
  lemma CountsWithinTotal(w: PatientWithCharges)
    requires w.totalCharges == |w.charges|
    requires w.pendingCharges == |Filter(w.charges, (c: StoredCharge) => c.status == Pending)|
    requires w.billedCharges == |Filter(w.charges, (c: StoredCharge) => c.status == Billed)|
    ensures w.pendingCharges + w.billedCharges <= w.totalCharges
  {
    PendingBilledFit(w.charges);
  }

  lemma {:induction false} PendingBilledFit(charges: seq<StoredCharge>)
    ensures |Filter(charges, (c: StoredCharge) => c.status == Pending)| + |Filter(charges, (c: StoredCharge) => c.status == Billed)| <= |charges|
  {
    if |charges| > 0 {
      PendingBilledFit(charges[1..]);
    }
  }

  // ==================================================================== searchPatients

  /** A patient the query `q` (already lowercased and trimmed) finds by name, MRN or date of birth. */
  predicate PatientMatches(q: string, p: Inpatient)
  {
    Contains(Lower(p.patientName), q) || (Truthy(p.mrn) && Contains(Lower(p.mrn.value), q)) || Contains(p.dob, q)
  }

  /** `searchPatients`: a blank query returns everyone, otherwise the matching patients in order. */
  function SearchPatients(patients: seq<Inpatient>, query: string): (r: seq<Inpatient>)
    ensures Trim(Lower(query)) == "" ==> r == patients
    ensures Trim(Lower(query)) != "" ==> forall p :: p in r <==> p in patients && PatientMatches(Trim(Lower(query)), p)
  {
    var q := Trim(Lower(query));
    if q == "" then patients else Filter(patients, p => PatientMatches(q, p))
  }

  /** The search result keeps the roster's order. */
  lemma SearchKeepsOrder(patients: seq<Inpatient>, query: string)
    ensures IsSubsequence(SearchPatients(patients, query), patients)
  {
    var q := Trim(Lower(query));
    if q == "" {
      SubsequenceOfSelf(patients);
    } else {
      FilterIsSubsequence(patients, p => PatientMatches(q, p));
    }
  }

  lemma {:induction false} SubsequenceOfSelf(s: seq<Inpatient>)
    ensures IsSubsequence(s, s)
  {
    if |s| > 0 {
      SubsequenceOfSelf(s[1..]);
    }
  }
}
