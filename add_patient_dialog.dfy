/**
 * The add-patient dialog (src/components/AddPatientDialog.tsx): the date of
 * birth typed as MM/DD/YYYY and stored as YYYY-MM-DD, the checks made on
 * submission, and what submission does with the patient matches it finds.
 * The diagnosis picker is the add-charge dialog's `ToggleDiagnosis`.
 */
module AddPatientDialog {
  import opened Text
  import opened Inpatients
  import opened PatientDedup

  // ==================================================================== date of birth

  /** The most digits a date of birth holds. */
  const MaxDobDigits: nat := 8

  /** The digits typed so far: every non-digit dropped, then the first eight kept. */
  function DobDigits(raw: string): (d: string)
    ensures |d| <= MaxDobDigits && AllDigits(d)
    ensures d <= Filter(raw, IsDigit)
    ensures |Filter(raw, IsDigit)| <= MaxDobDigits ==> d == Filter(raw, IsDigit)
  {
    var all := Filter(raw, IsDigit);
    assert forall k :: 0 <= k < |all| ==> all[k] in all;
    if |all| <= MaxDobDigits then all else all[..MaxDobDigits]
  }

  /** The displayed text: the digits with '/' after the second and the fourth when more follow. */
  function DobDisplay(d: string): (r: string)
  {
    if |d| <= 2 then d
    else if |d| <= 4 then d[..2] + "/" + d[2..]
    else d[..2] + "/" + d[2..4] + "/" + d[4..]
  }

  /** The stored date: YYYY-MM-DD once all eight digits are there, '' before. */
  function DobValue(d: string): (r: string)
  {
    if |d| == MaxDobDigits then d[4..8] + "-" + d[..2] + "-" + d[2..4] else ""
  }

  /** `handleDobChange`: the text shown in the field and the value stored. */
  function HandleDobChange(raw: string): (r: (string, string))
  {
    var d := DobDigits(raw);
    (DobDisplay(d), DobValue(d))
  }

  /** The display is the digits with slashes only at positions 2 and 5. */
  lemma DobDisplayShape(raw: string)
    ensures var d := DobDigits(raw); var s := HandleDobChange(raw).0;
      && Filter(s, IsDigit) == d
      && |s| == |d| + (if |d| > 4 then 2 else if |d| > 2 then 1 else 0)
      && forall k :: 0 <= k < |s| ==> (s[k] == '/' <==> (k == 2 && |d| > 2) || (k == 5 && |d| > 4))
  {
    var d := DobDigits(raw);
    DisplayDigits(d);
    DisplaySlashes(d);
  }

  lemma DisplaySlashes(d: string)
    requires AllDigits(d)
    ensures var s := DobDisplay(d);
      && |s| == |d| + (if |d| > 4 then 2 else if |d| > 2 then 1 else 0)
      && forall k :: 0 <= k < |s| ==> (s[k] == '/' <==> (k == 2 && |d| > 2) || (k == 5 && |d| > 4))
  {
  }

  lemma DisplayDigits(d: string)
    requires AllDigits(d)
    ensures Filter(DobDisplay(d), IsDigit) == d
  {
    if |d| <= 2 {
      DigitsOnly(d);
    } else if |d| <= 4 {
      DisplayDigitsOneSlash(d);
    } else {
      DisplayDigitsTwoSlashes(d);
    }
  }

  lemma DisplayDigitsOneSlash(d: string)
    requires AllDigits(d) && 2 < |d|
    ensures Filter(d[..2] + "/" + d[2..], IsDigit) == d
  {
    var head, rest := d[..2], d[2..];
    DigitsOnly(head);
    SlashJoin(head, rest);
    assert head + rest == d;
  }

  lemma DisplayDigitsTwoSlashes(d: string)
    requires AllDigits(d) && 4 < |d|
    ensures Filter(d[..2] + "/" + d[2..4] + "/" + d[4..], IsDigit) == d
  {
    var head, mid, tail := d[..2], d[2..4], d[4..];
    DigitsOnly(head);
    SlashJoin(head, mid);
    SlashJoin(head + "/" + mid, tail);
    assert head + mid + tail == d;
  }

  lemma DigitsOnly(a: string)
    requires AllDigits(a)
    ensures Filter(a, IsDigit) == a
  {
    assert forall x :: x in a ==> IsDigit(x);
    FilterAll(a, IsDigit);
  }

  /** Joining with a slash keeps the digits of both sides. */
  lemma SlashJoin(a: string, b: string)
    requires AllDigits(b)
    ensures Filter(a + "/" + b, IsDigit) == Filter(a, IsDigit) + b
  {
    DigitsOnly(b);
    FilterAppend(a + "/", b, IsDigit);
    FilterAppend(a, "/", IsDigit);
  }

  /** Typing the shown text again shows the same text and stores the same date. */
  lemma HandleDobChangeIdempotent(raw: string)
    ensures HandleDobChange(HandleDobChange(raw).0) == HandleDobChange(raw)
  {
    DobDisplayShape(raw);
    var d := DobDigits(raw);
    var s := HandleDobChange(raw).0;
    assert Filter(s, IsDigit) == d;
    assert DobDigits(s) == d;
  }

  /** A date is stored exactly when eight digits were typed, and it gives back those digits. */
  lemma DobValueRoundTrip(raw: string)
    ensures var d := DobDigits(raw); var v := HandleDobChange(raw).1;
      && (v != "" <==> |d| == MaxDobDigits)
      && (v != "" ==> |v| == 10 && v[4] == '-' && v[7] == '-' && v[5..7] + v[8..10] + v[..4] == d)
  {
    var d := DobDigits(raw);
    var v := HandleDobChange(raw).1;
    if |d| == MaxDobDigits {
      assert v == d[4..8] + "-" + d[..2] + "-" + d[2..4];
      assert v[5..7] == d[..2] && v[8..10] == d[2..4] && v[..4] == d[4..8];
      assert d[..2] + d[2..4] + d[4..8] == d;
    }
  }

  // ==================================================================== submission

  /** Why submission stopped. */
  datatype SubmitError = NameRequired | DobRequired | HospitalRequired

  /** The patient the dialog hands over; ids, organisation and timestamps come later. */
  datatype NewPatient = NewPatient(
    hospitalId: string,
    hospitalName: Option<string>,
    patientName: string,
    dob: string,
    mrn: Option<string>,
    isActive: bool,
    coveringFor: Option<string>)

  datatype Result<T, E> = Ok(value: T) | Err(error: E)

  function FindHospital(hospitals: seq<Hospital>, id: string): (r: Option<Hospital>)
    ensures r.None? <==> forall h :: h in hospitals ==> h.id != id
    ensures r.Some? ==> r.value in hospitals && r.value.id == id
  {
    if |hospitals| == 0 then None
    else if hospitals[0].id == id then Some(hospitals[0])
    else
      assert hospitals == [hospitals[0]] + hospitals[1..];
      FindHospital(hospitals[1..], id)
  }

  /** A trimmed optional field: absent when nothing but white space was typed. */
  function TrimmedOrNone(s: string): (r: Option<string>)
    ensures r.None? <==> Trim(s) == ""
    ensures r.Some? ==> r.value == Trim(s)
  {
    if Trim(s) != "" then Some(Trim(s)) else None
  }

  /**
   * The checks of `handleSubmit`, in order, and the patient it builds: the
   * name is required, then the date of birth, then the hospital.
   */
  function BuildPatient(patientName: string, dob: string, mrn: string, hospitalId: string, hospitals: seq<Hospital>,
                        isCrossCoverage: bool, coveringFor: string): (r: Result<NewPatient, SubmitError>)
    ensures r == Err(NameRequired) <==> Trim(patientName) == ""
    ensures r == Err(DobRequired) <==> Trim(patientName) != "" && dob == ""
    ensures r == Err(HospitalRequired) <==> Trim(patientName) != "" && dob != "" && hospitalId == ""
    ensures r.Ok? ==> var p := r.value;
      && p.patientName == Trim(patientName) && p.patientName != ""
      && p.dob == dob && p.hospitalId == hospitalId && p.isActive
      && (p.hospitalName.Some? <==> exists h :: h in hospitals && h.id == hospitalId)
      && p.mrn == TrimmedOrNone(mrn)
      && (p.coveringFor.Some? ==> isCrossCoverage && p.coveringFor == TrimmedOrNone(coveringFor))
      && (isCrossCoverage ==> p.coveringFor == TrimmedOrNone(coveringFor))
  {
    if Trim(patientName) == "" then Err(NameRequired)
    else if dob == "" then Err(DobRequired)
    else if hospitalId == "" then Err(HospitalRequired)
    else
      var hospital := FindHospital(hospitals, hospitalId);
      Ok(NewPatient(
        hospitalId,
        if hospital.Some? then Some(hospital.value.name) else None,
        Trim(patientName),
        dob,
        TrimmedOrNone(mrn),
        true,
        if isCrossCoverage then TrimmedOrNone(coveringFor) else None))
  }

  /** What submission does once the patient is built. */
  datatype SubmitOutcome =
    | UseExisting(patientId: string)
    | ShowMatches(matches: seq<PatientMatchResult>)
    | Save(patient: NewPatient, diagnoses: seq<string>)

  function FirstExactMrn(matches: seq<PatientMatchResult>): (r: Option<PatientMatchResult>)
    ensures r.None? <==> forall m :: m in matches ==> m.matchType != ExactMrn
    ensures r.Some? ==> r.value in matches && r.value.matchType == ExactMrn
  {
    if |matches| == 0 then None
    else if matches[0].matchType == ExactMrn then Some(matches[0])
    else
      assert matches == [matches[0]] + matches[1..];
      FirstExactMrn(matches[1..])
  }

  /**
   * The rest of `handleSubmit`: with an organisation, the matches found
   * decide; an exact MRN match is used silently when the caller can take
   * it, any other match is shown; with none, the patient is saved. A lookup
   * that fails is passed as no matches, as the source carries on saving.
   */
  function Submit(patient: NewPatient, diagnoses: seq<string>, hasOrg: bool, matches: seq<PatientMatchResult>,
                  canUseExisting: bool): (r: SubmitOutcome)
    ensures r.UseExisting? <==> hasOrg && canUseExisting && exists m :: m in matches && m.matchType == ExactMrn
    ensures r.UseExisting? ==> exists m :: m in matches && m.matchType == ExactMrn && m.patient.id == r.patientId
    ensures r.ShowMatches? <==> hasOrg && |matches| > 0 && !(canUseExisting && exists m :: m in matches && m.matchType == ExactMrn)
    ensures r.ShowMatches? ==> r.matches == matches
    ensures r.Save? <==> !hasOrg || |matches| == 0
    ensures r.Save? ==> r.patient == patient && r.diagnoses == diagnoses
  {
    if hasOrg && |matches| > 0 then
      var exact := FirstExactMrn(matches);
      if exact.Some? && canUseExisting then UseExisting(exact.value.patient.id)
      else ShowMatches(matches)
    else Save(patient, diagnoses)
  }
}
