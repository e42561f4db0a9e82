/**
 * The code and diagnosis pickers of the add-charge dialog. A selection is a
 * duplicate-free sequence standing for the dialog's `Set`; each click builds
 * the next selection from the previous one step by step.
 */
module AddChargeDialog {
  import opened Text
  import opened InpatientCodes

  /** The most diagnoses one charge can carry. */
  const MaxDiagnoses: nat := 24

  /** `toggleDiagnosis`: remove a selected diagnosis, or add one while fewer than 24 are selected. */
  method ToggleDiagnosis(prev: seq<string>, code: string) returns (next: seq<string>)
    requires NoDup(prev)
    ensures NoDup(next)
    ensures code in prev ==> forall c :: c in next <==> c in prev && c != code
    ensures code !in prev && |prev| < MaxDiagnoses ==> next == prev + [code]
    ensures code !in prev && |prev| >= MaxDiagnoses ==> next == prev
    ensures |prev| <= MaxDiagnoses ==> |next| <= MaxDiagnoses
  {
    next := ToggleCapped(prev, code, MaxDiagnoses);
  }

  // ==================================================================== code selection

  /** Every code of `codes` deleted from the selection, one after the other. */
  method DeleteCodes(s: seq<string>, codes: seq<string>) returns (r: seq<string>)
    requires NoDup(s)
    ensures NoDup(r)
    ensures forall c :: c in r <==> c in s && c !in codes
  {
    r := s;
    for k := 0 to |codes|
      invariant NoDup(r)
      invariant forall c :: c in r <==> c in s && c !in codes[..k]
    {
      assert codes[..k + 1] == codes[..k] + [codes[k]];
      r := Without(r, codes[k]);
    }
    assert codes[..|codes|] == codes;
  }

  /** Every code of category `cat` deleted from the selection. */
  method DeleteCategory(s: seq<string>, cat: InpatientCategory) returns (r: seq<string>)
    requires NoDup(s)
    ensures NoDup(r)
    ensures forall c :: c in r <==> c in s && !InCategory(c, cat)
  {
    r := DeleteCodes(s, CategoryCodes(cat));
    forall c ensures c in CategoryCodes(cat) <==> InCategory(c, cat) {
      CategoryIffListed(c, cat);
    }
  }

  /**
   * A previously selected code that survives the removals made when the
   * non-add-on entry `e` is clicked: the other codes of its category, the
   * no-charge code, and the categories that exclude `e`'s.
   */
  predicate Kept(prev: seq<string>, e: InpatientCode, c: string)
  {
    c in prev && c != e.code && c != "00000" && !InCategory(c, e.category)
    && !(IsPrimaryEmCategory(e.category) && IsPrimaryOrDischargeCode(c))
    && !(e.category == Discharge && IsPrimaryEmCode(c))
  }

  /** After the removals the clicked code itself is toggled. */
  predicate Toggled(prev: seq<string>, e: InpatientCode, c: string)
  {
    Kept(prev, e, c) || (c == e.code && e.code !in prev)
  }

  /** Some primary E/M or discharge code is left after the toggle. */
  ghost predicate ToggledHasPrimary(prev: seq<string>, e: InpatientCode)
  {
    exists c :: Toggled(prev, e, c) && IsPrimaryOrDischargeCode(c)
  }

  /** The no-charge entry is the only catalogued `00000`. */
  lemma NoChargeEntry(e: InpatientCode)
    requires e in AllInpatientCodes()
    ensures e.code == "00000" ==> e.category == NoCharge && !e.isAddOn
  {
    if e.code == "00000" {
      EntryCategory(e);
      EntryInOwnCategory(e);
    }
  }

  /** The codes of the primary E/M categories other than `cat` deleted, category by category. */
  method DeleteOtherPrimaryCategories(s: seq<string>, cat: InpatientCategory) returns (r: seq<string>)
    requires NoDup(s)
    ensures NoDup(r)
    ensures forall c :: c in r <==> c in s && (InCategory(c, cat) || !IsPrimaryEmCode(c))
  {
    var primaryCategories := [InitialHospital, Subsequent, Consults];
    r := s;
    for k := 0 to 3
      invariant NoDup(r)
      invariant forall c :: c in r <==>
        c in s && forall j :: 0 <= j < k && primaryCategories[j] != cat ==> !InCategory(c, primaryCategories[j])
    {
      if primaryCategories[k] != cat {
        r := DeleteCategory(r, primaryCategories[k]);
      }
    }
    forall c | c in s
      ensures (forall j :: 0 <= j < 3 && primaryCategories[j] != cat ==> !InCategory(c, primaryCategories[j]))
              <==> InCategory(c, cat) || !IsPrimaryEmCode(c)
    {
      assert primaryCategories[0] == InitialHospital && primaryCategories[1] == Subsequent && primaryCategories[2] == Consults;
    }
  }

  /** The removals made before the clicked non-add-on code is toggled. */
  method RemoveExcluded(prev: seq<string>, e: InpatientCode) returns (next: seq<string>)
    requires NoDup(prev)
    requires e in AllInpatientCodes() && e.code != "00000"
    ensures NoDup(next)
    ensures forall c :: c in next <==> Kept(prev, e, c) || (c == e.code && c in prev)
  {
    EntryCategory(e);
    next := DeleteCodes(prev, Without(CategoryCodes(e.category), e.code));
    forall c ensures c in Without(CategoryCodes(e.category), e.code) <==> c != e.code && InCategory(c, e.category) {
      CategoryIffListed(c, e.category);
    }
    next := Without(next, "00000");
    if GetBillingGroup(e.category) == PrimaryEm {
      next := DeleteOtherPrimaryCategories(next, e.category);
      next := DeleteCategory(next, Discharge);
    }
    if e.category == Discharge {
      next := DeleteCategory(next, InitialHospital);
      next := DeleteCategory(next, Subsequent);
      next := DeleteCategory(next, Consults);
    }
  }

  /** The removals and the toggle, for a non-add-on entry other than no-charge. */
  method SelectPrimary(prev: seq<string>, e: InpatientCode) returns (next: seq<string>)
    requires NoDup(prev)
    requires e in AllInpatientCodes() && e.code != "00000"
    ensures NoDup(next)
    ensures forall c :: c in next <==> Toggled(prev, e, c)
  {
    EntryCategory(e);
    next := RemoveExcluded(prev, e);
    if e.code in next {
      next := Without(next, e.code);
      if e.code == "99291" {
        next := Without(next, "99292");
        assert InCategory("99292", CriticalCare);
      }
    } else {
      next := next + [e.code];
    }
  }

  /**
   * An add-on code toggled like a checkbox: added only when `canAddCode`
   * allows it. `pairFixed` false is the compatibility check as written, true
   * the corrected one that lets 99292 join 99291.
   */
  method ToggleAddOn(prev: seq<string>, code: string, pairFixed: bool) returns (next: seq<string>)
    requires NoDup(prev)
    ensures NoDup(next)
    ensures code in prev ==> forall c :: c in next <==> c in prev && c != code
    ensures code !in prev && CanAdd(code, prev, pairFixed) ==> next == prev + [code]
    ensures code !in prev && !CanAdd(code, prev, pairFixed) ==> next == prev
  {
    if code in prev {
      next := Without(prev, code);
    } else {
      var ok := CanAddCode(code, prev, pairFixed);
      next := if ok then prev + [code] else prev;
    }
  }

  /**
   * Clicking add-on 99292 with 99291 selected: as written the selection stays
   * as it was; with the corrected compatibility 99292 joins it.
   */
  method AdditionalCriticalCareClick(pairFixed: bool) returns (next: seq<string>)
    ensures pairFixed ==> next == ["99291", "99292"]
    ensures !pairFixed ==> next == ["99291"]
  {
    AdditionalCriticalCareOnlyAloneAsWritten(["99291"]);
    AdditionalCriticalCareWithFix(["99291"]);
    next := ToggleAddOn(["99291"], "99292", pairFixed);
  }

  /** A primary E/M or discharge code is left after the toggle exactly when the toggled selection has one. */
  lemma ToggledPrimaryPresence(prev: seq<string>, e: InpatientCode, toggled: seq<string>)
    requires forall c :: c in toggled <==> Toggled(prev, e, c)
    ensures HasPrimaryOrDischarge(toggled) <==> ToggledHasPrimary(prev, e)
  {
    if ToggledHasPrimary(prev, e) {
      var c :| Toggled(prev, e, c) && IsPrimaryOrDischargeCode(c);
      assert c in toggled;
    }
  }

  /**
   * `handleCodeSelect`. An add-on code is toggled like a checkbox, and added
   * only when `canAddCode` allows it (as written with `pairFixed` false).
   * Any other code acts like a radio button within its category: `00000`
   * replaces the whole selection; otherwise the codes it excludes are
   * removed, it is toggled, and prolonged-service codes go when no primary
   * E/M or discharge code is left.
   */
  method HandleCodeSelect(prev: seq<string>, e: InpatientCode, pairFixed: bool) returns (next: seq<string>)
    requires NoDup(prev)
    requires e in AllInpatientCodes()
    ensures NoDup(next)
    ensures e.isAddOn && e.code in prev ==> forall c :: c in next <==> c in prev && c != e.code
    ensures e.isAddOn && e.code !in prev && CanAdd(e.code, prev, pairFixed) ==> next == prev + [e.code]
    ensures e.isAddOn && e.code !in prev && !CanAdd(e.code, prev, pairFixed) ==> next == prev
    ensures e.code == "00000" ==> next == ["00000"]
    ensures !e.isAddOn && e.code != "00000" ==>
      forall c :: c in next <==> Toggled(prev, e, c) && !(InCategory(c, ProlongedServices) && !ToggledHasPrimary(prev, e))
  {
    NoChargeEntry(e);
    if e.isAddOn {
      next := ToggleAddOn(prev, e.code, pairFixed);
    } else if e.code == "00000" {
      next := ["00000"];
    } else {
      next := SelectAndPrune(prev, e);
    }
  }

  /** A click on a code of a radio-button category, then the prolonged-service clean-up. */
  method SelectAndPrune(prev: seq<string>, e: InpatientCode) returns (next: seq<string>)
    requires NoDup(prev)
    requires e in AllInpatientCodes() && !e.isAddOn && e.code != "00000"
    ensures NoDup(next)
    ensures forall c :: c in next <==> Toggled(prev, e, c) && !(InCategory(c, ProlongedServices) && !ToggledHasPrimary(prev, e))
  {
    var toggled := SelectPrimary(prev, e);
    ToggledPrimaryPresence(prev, e, toggled);
    next := toggled;
    if !HasPrimaryOrDischarge(next) {
      next := DeleteCategory(next, ProlongedServices);
    }
  }

  /** What a click leaves behind, read off `HandleCodeSelect`'s new selection. */
  lemma SelectionEffects(prev: seq<string>, e: InpatientCode, next: seq<string>)
    requires e in AllInpatientCodes() && !e.isAddOn && e.code != "00000"
    requires forall c :: c in next <==> Toggled(prev, e, c) && !(InCategory(c, ProlongedServices) && !ToggledHasPrimary(prev, e))
    ensures "00000" !in next
    ensures forall c :: c in next && c != e.code ==> !InCategory(c, e.category)
    ensures IsPrimaryEmCategory(e.category) ==> forall c :: c in next && c != e.code ==> !IsPrimaryOrDischargeCode(c)
    ensures e.category == Discharge ==> forall c :: c in next ==> !IsPrimaryEmCode(c)
    ensures e.code in next <==> e.code !in prev
    ensures !HasPrimaryOrDischarge(next) ==> forall c :: c in next ==> !InCategory(c, ProlongedServices)
  {
    EntryCategory(e);
    EntryInOwnCategory(e);
    if e.category == Discharge {
      assert !IsPrimaryEmCode(e.code);
    }
    if e.code !in prev {
      assert Toggled(prev, e, e.code);
    }
    if ToggledHasPrimary(prev, e) {
      var c :| Toggled(prev, e, c) && IsPrimaryOrDischargeCode(c);
      assert c in next;
    }
  }

  /** Clicking a selected 99291 deselects it and takes 99292 with it. */
  lemma DeselectCriticalCareDropsAddOn(prev: seq<string>, e: InpatientCode, next: seq<string>)
    requires e in AllInpatientCodes() && e.code == "99291" && e.code in prev
    requires forall c :: c in next <==> Toggled(prev, e, c) && !(InCategory(c, ProlongedServices) && !ToggledHasPrimary(prev, e))
    ensures "99291" !in next && "99292" !in next
  {
    EntryCategory(e);
    assert InCategory("99292", CriticalCare);
  }

  // ==================================================================== stored codes and saving

  /** The separator between the codes of one stored charge. */
  const CodeSeparator: string := " + "

  /**
   * `parseStoredCodes`: the stored code string of a charge being edited, split
   * at the separator, each piece trimmed and stripped of a trailing `-<digits>`
   * modifier. An empty string holds no codes.
   */
  function ParseStoredCodes(stored: string): (r: seq<string>)
    ensures stored == "" ==> r == []
    ensures stored != "" ==> |r| == |Split(stored, CodeSeparator)|
    ensures stored != "" ==> forall k :: 0 <= k < |r| ==> r[k] == StripNumericSuffix(Trim(Split(stored, CodeSeparator)[k]))
  {
    if stored == "" then []
    else
      var parts := Split(stored, CodeSeparator);
      seq(|parts|, k requires 0 <= k < |parts| => StripNumericSuffix(Trim(parts[k])))
  }

  /** `!timeMinutes`: no time entered, or zero minutes. */
  predicate HasTime(timeMinutes: Option<nat>)
  {
    timeMinutes.Some? && timeMinutes.value > 0
  }

  /** Some selected catalogue entry asks for a time. */
  predicate RequiresTimeEntry(entries: seq<InpatientCode>)
  {
    exists e :: e in entries && e.requiresTime
  }

  /** Each selected code, with its required modifier appended when it has one. */
  function FormattedCodes(selected: seq<string>, modifiers: map<string, string>): (r: seq<string>)
    ensures |r| == |selected|
    ensures forall k :: 0 <= k < |r| && selected[k] !in modifiers ==> r[k] == selected[k]
    ensures forall k :: 0 <= k < |r| && selected[k] in modifiers ==> r[k] == selected[k] + modifiers[selected[k]]
  {
    seq(|selected|, k requires 0 <= k < |selected| =>
      FormatCodeWithModifier(selected[k], if selected[k] in modifiers then Some(modifiers[selected[k]]) else None))
  }

  /** What pressing save leads to. */
  datatype SaveOutcome =
    | NoCodeSelected
    | TimeMissing
    | Saved(codes: seq<string>, timeMinutes: Option<nat>)

  /**
   * `doSave`: refuse an empty selection, and a time-based selection without a
   * time; otherwise save the codes, each E/M code billed beside critical care
   * carrying `-25`, and the time only when some code asks for it.
   * `entries` are the catalogue entries of the selected codes.
   */
  method DoSave(selected: seq<string>, entries: seq<InpatientCode>, timeMinutes: Option<nat>) returns (r: SaveOutcome)
    ensures r == NoCodeSelected <==> |selected| == 0
    ensures r == TimeMissing <==> |selected| > 0 && RequiresTimeEntry(entries) && !HasTime(timeMinutes)
    ensures r.Saved? ==> |r.codes| == |selected|
    ensures r.Saved? ==> forall k :: 0 <= k < |selected| ==>
      r.codes[k] == if InGroup(selected[k], PrimaryEm) && HasCriticalCare(selected) then selected[k] + "-25" else selected[k]
    ensures r.Saved? ==> r.timeMinutes == if RequiresTimeEntry(entries) then timeMinutes else None
  {
    if |selected| == 0 {
      return NoCodeSelected;
    }
    var needsTime := exists e :: e in entries && e.requiresTime;
    if needsTime && !HasTime(timeMinutes) {
      return TimeMissing;
    }
    var modifiers := GetRequiredModifiers(selected);
    r := Saved(FormattedCodes(selected, modifiers), if needsTime then timeMinutes else None);
  }

  /** One saved code, read back: trimming and stripping return the bare code. */
  lemma ParseFormattedCode(code: string, withModifier: bool)
    requires |code| > 0 && AllDigits(code)
    ensures StripNumericSuffix(Trim(if withModifier then code + "-25" else code)) == code
  {
    var f := if withModifier then code + "-25" else code;
    assert !IsSpace(f[0]) && !IsSpace(f[|f| - 1]);
    TrimOfTrimmed(f);
    if withModifier {
      assert code + "-25" == code + "-" + "25";
      StripNumericSuffixOfAppended(code, "25");
    } else {
      assert '-' !in code by {
        forall k | 0 <= k < |code| ensures code[k] != '-' {
          assert IsDigit(code[k]);
        }
      }
      StripNumericSuffixNoDash(code);
    }
  }

  /**
   * The stored code string of a new charge: several codes joined with the
   * separator, a single code alone (src/App.tsx).
   */
  function NewChargeCode(codes: seq<string>): (stored: string)
    requires |codes| > 0
    ensures stored == Join(codes, CodeSeparator)
  {
    if |codes| > 1 then Join(codes, CodeSeparator) else codes[0]
  }

  /** As written, saving an edited charge stores its first code only. */
  function EditedChargeCodeAsWritten(codes: seq<string>): string
    requires |codes| > 0
  {
    codes[0]
  }

  /** An edited charge stored as a new one is: every code kept. */
  function EditedChargeCode(codes: seq<string>): string
    requires |codes| > 0
  {
    NewChargeCode(codes)
  }

  /**
   * As written, editing a charge of several codes and saving it unchanged
   * stores its first code only: reopened, the charge has lost the others
   * ('99232-25 + 99291' comes back as '99232').
   */
  lemma EditDropsCodesAsWritten(selected: seq<string>, codes: seq<string>)
    requires |selected| > 1 && |selected[0]| > 0 && AllDigits(selected[0])
    requires |codes| == |selected| && (codes[0] == selected[0] || codes[0] == selected[0] + "-25")
    ensures ParseStoredCodes(EditedChargeCodeAsWritten(codes)) == [selected[0]]
    ensures ParseStoredCodes(EditedChargeCodeAsWritten(codes)) != selected
  {
    var c := codes[0];
    ParseFormattedCode(selected[0], c != selected[0]);
    forall j | 0 <= j < |c| ensures c[j] != ' ' {
      if j < |selected[0]| {
        assert IsDigit(selected[0][j]);
      }
    }
    SplitJoin([c], CodeSeparator);
    assert Join([c], CodeSeparator) == c != "";
  }

  /**
   * Saving and reopening for edit round-trip: the codes of a saved charge,
   * joined with the separator, parse back to the catalogue codes that were
   * selected.
   */
  lemma {:induction false} SavedCodesParseBack(selected: seq<string>, codes: seq<string>)
    requires |selected| > 0
    requires forall c :: c in selected ==> GetInpatientCategory(c).Some?
    requires |codes| == |selected|
    requires forall k :: 0 <= k < |selected| ==> codes[k] == selected[k] || codes[k] == selected[k] + "-25"
    ensures ParseStoredCodes(Join(codes, CodeSeparator)) == selected
  {
    forall k | 0 <= k < |codes|
      ensures CodeSeparator[0] !in codes[k]
      ensures StripNumericSuffix(Trim(codes[k])) == selected[k]
    {
      SavedCodeParsesBack(selected[k], codes[k]);
    }
    SplitJoin(codes, CodeSeparator);
    assert Join(codes, CodeSeparator) != "" by {
      SavedCodeParsesBack(selected[0], codes[0]);
      assert |Join(codes, CodeSeparator)| >= |codes[0]| > 0;
    }
  }

  /** One saved code holds no space and parses back to its catalogue code. */
  lemma SavedCodeParsesBack(code: string, saved: string)
    requires GetInpatientCategory(code).Some?
    requires saved == code || saved == code + "-25"
    ensures |saved| > 0 && CodeSeparator[0] !in saved
    ensures StripNumericSuffix(Trim(saved)) == code
  {
    CatalogCodesAreDigits(code);
    ParseFormattedCode(code, saved != code);
    forall j | 0 <= j < |saved| ensures saved[j] != ' ' {
      if j < |code| {
        assert IsDigit(code[j]);
      }
    }
  }

  /**
   * A new charge, and with the correction an edited one, reopens with the
   * codes that were selected.
   */
  lemma StoredChargeParsesBack(selected: seq<string>, codes: seq<string>)
    requires |selected| > 0
    requires forall c :: c in selected ==> GetInpatientCategory(c).Some?
    requires |codes| == |selected|
    requires forall k :: 0 <= k < |selected| ==> codes[k] == selected[k] || codes[k] == selected[k] + "-25"
    ensures ParseStoredCodes(NewChargeCode(codes)) == selected
    ensures ParseStoredCodes(EditedChargeCode(codes)) == selected
  {
    SavedCodesParseBack(selected, codes);
  }
}
