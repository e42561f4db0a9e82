/**
 * The cath-lab coding screen's state handlers (src/CardiologyCPTApp.tsx):
 * favourites, the three vessel sections and their vessel maps, one-click
 * rule fixes, rule overrides, the case history, the location list, the code
 * search and the bundling analysis. Each React state update is modelled as
 * the function from the previous value to the next one.
 */
module CardiologyApp {
  import opened Text
  import BR = BillingRules

  // ==================================================================== favourites and overrides

  /** `toggleFavorite`: the code's membership in the favourites flips. */
  function ToggleFavorite(favorites: seq<string>, code: string): (r: seq<string>)
    ensures code in r <==> code !in favorites
    ensures forall c :: c != code ==> (c in r <==> c in favorites)
  {
    Flip(favorites, code)
  }

  /** `toggleRuleOverride`: the rule's membership in the overridden list flips. */
  function ToggleRuleOverride(overridden: seq<string>, ruleId: string): (r: seq<string>)
    ensures ruleId in r <==> ruleId !in overridden
    ensures forall id :: id != ruleId ==> (id in r <==> id in overridden)
  {
    Flip(overridden, ruleId)
  }

  // ==================================================================== vessel sections

  /** A code picked in one section, with the catalogue description. */
  datatype SelectedCode = SelectedCode(code: string, description: Option<string>)

  /** One section's picks and the vessel each code is mapped to. */
  datatype Section = Section(codes: seq<SelectedCode>, vessels: map<string, string>)

  predicate Picked(codes: seq<SelectedCode>, code: string)
  {
    exists k :: 0 <= k < |codes| && codes[k].code == code
  }

  function NotCode(code: string): SelectedCode -> bool
  {
    (c: SelectedCode) => c.code != code
  }

  /**
   * `toggleCode` (and `toggleCodeV2`, `toggleCodeV3`): a picked code is
   * removed with its vessel mapping; otherwise it is appended.
   */
  function ToggleCode(s: Section, code: string, description: Option<string>): (r: Section)
    ensures Picked(s.codes, code) ==> r.codes == Filter(s.codes, NotCode(code)) && r.vessels == s.vessels - {code}
    ensures !Picked(s.codes, code) ==> r.codes == s.codes + [SelectedCode(code, description)] && r.vessels == s.vessels
  {
    if Picked(s.codes, code) then Section(Filter(s.codes, NotCode(code)), s.vessels - {code})
    else Section(s.codes + [SelectedCode(code, description)], s.vessels)
  }

  /** Toggling flips whether the code is picked and leaves every other pick alone. */
  lemma ToggleCodeFlips(s: Section, code: string, description: Option<string>)
    ensures var r := ToggleCode(s, code, description);
      && (Picked(r.codes, code) <==> !Picked(s.codes, code))
      && (forall c :: c in s.codes && c.code != code ==> c in r.codes)
      && (forall c :: c in r.codes && c.code != code ==> c in s.codes)
      && (forall k :: k in r.vessels ==> k in s.vessels && r.vessels[k] == s.vessels[k])
      && (forall k :: k in s.vessels && k != code ==> k in r.vessels)
  {
    var r := ToggleCode(s, code, description);
    if Picked(s.codes, code) {
      forall k | 0 <= k < |r.codes| ensures r.codes[k].code != code {
        assert r.codes[k] in r.codes;
      }
    } else {
      assert r.codes[|s.codes|].code == code;
    }
  }

  /** The three sections of a case. */
  datatype Sections = Sections(primary: Section, vessel2: Section, vessel3: Section)

  /** A catalogue entry (`cptCategories`). */
  datatype CatalogCode = CatalogCode(code: string, summary: Option<string>, description: Option<string>)

  /** `find` over the flattened catalogue. */
  function FindCatalogCode(catalog: seq<CatalogCode>, code: string): (r: Option<CatalogCode>)
    ensures r.None? <==> forall c :: c in catalog ==> c.code != code
    ensures r.Some? ==> r.value in catalog && r.value.code == code
  {
    if |catalog| == 0 then None
    else if catalog[0].code == code then Some(catalog[0])
    else
      assert catalog == [catalog[0]] + catalog[1..];
      FindCatalogCode(catalog[1..], code)
  }

  function NotRemoved(codesToRemove: seq<string>): SelectedCode -> bool
  {
    (c: SelectedCode) => c.code !in codesToRemove
  }

  /** The `delete updated[code]` loop over a copied vessel map. */
  method DeleteKeys(vessels: map<string, string>, codesToRemove: seq<string>) returns (updated: map<string, string>)
    ensures updated == vessels - set c | c in codesToRemove
  {
    updated := vessels;
    for i := 0 to |codesToRemove|
      invariant updated == vessels - set c | c in codesToRemove[..i]
    {
      assert forall c :: c in codesToRemove[..i + 1] <==> c in codesToRemove[..i] || c == codesToRemove[i] by {
        assert codesToRemove[..i + 1] == codesToRemove[..i] + [codesToRemove[i]];
      }
      updated := updated - {codesToRemove[i]};
    }
    assert codesToRemove[..|codesToRemove|] == codesToRemove;
  }

  /**
   * `applyRuleFix`: the codes to remove leave all three sections and all
   * three vessel maps; then a code to add that the catalogue knows joins
   * the primary section unless it is already there.
   */
  method ApplyRuleFix(s: Sections, codesToRemove: seq<string>, codeToAdd: Option<string>, catalog: seq<CatalogCode>)
    returns (r: Sections)
    ensures forall c :: c in r.vessel2.codes <==> c in s.vessel2.codes && (|codesToRemove| == 0 || c.code !in codesToRemove)
    ensures forall c :: c in r.vessel3.codes <==> c in s.vessel3.codes && (|codesToRemove| == 0 || c.code !in codesToRemove)
    ensures forall code :: code in r.primary.vessels <==> code in s.primary.vessels && code !in codesToRemove
    ensures forall code :: code in r.vessel2.vessels <==> code in s.vessel2.vessels && code !in codesToRemove
    ensures forall code :: code in r.vessel3.vessels <==> code in s.vessel3.vessels && code !in codesToRemove
    ensures forall c :: c in s.primary.codes && c.code !in codesToRemove ==> c in r.primary.codes
    ensures forall c :: c in r.primary.codes ==> (c in s.primary.codes && c.code !in codesToRemove) || (Some(c.code) == codeToAdd)
    ensures Truthy(codeToAdd) && FindCatalogCode(catalog, codeToAdd.value).Some? ==> Picked(r.primary.codes, codeToAdd.value)
    ensures !Truthy(codeToAdd) || FindCatalogCode(catalog, codeToAdd.value).None? ==>
      forall c :: c in r.primary.codes <==> c in s.primary.codes && c.code !in codesToRemove
  {
    r := s;
    if |codesToRemove| > 0 {
      var v1 := DeleteKeys(s.primary.vessels, codesToRemove);
      var v2 := DeleteKeys(s.vessel2.vessels, codesToRemove);
      var v3 := DeleteKeys(s.vessel3.vessels, codesToRemove);
      r := Sections(
        Section(Filter(s.primary.codes, NotRemoved(codesToRemove)), v1),
        Section(Filter(s.vessel2.codes, NotRemoved(codesToRemove)), v2),
        Section(Filter(s.vessel3.codes, NotRemoved(codesToRemove)), v3));
    }
    if Truthy(codeToAdd) {
      var info := FindCatalogCode(catalog, codeToAdd.value);
      if info.Some? && !Picked(r.primary.codes, codeToAdd.value) {
        var added := SelectedCode(codeToAdd.value, info.value.description);
        r := r.(primary := r.primary.(codes := r.primary.codes + [added]));
        assert r.primary.codes[|r.primary.codes| - 1] == added;
      }
    }
  }

  // ==================================================================== rule violations

  /** `activeViolations`: an overridden rule's violation is hidden unless it is an error. */
  function ActiveViolations(violations: seq<BR.RuleViolation>, overridden: seq<string>): (r: seq<BR.RuleViolation>)
    ensures forall v :: v in r <==> v in violations && (v.ruleId !in overridden || v.severity == BR.Error)
  {
    Filter(violations, (v: BR.RuleViolation) => v.ruleId !in overridden || v.severity == BR.Error)
  }

  /** `hasBlockingErrors`. */
  predicate HasBlockingErrors(violations: seq<BR.RuleViolation>, overridden: seq<string>)
  {
    exists v :: v in ActiveViolations(violations, overridden) && v.severity == BR.Error
  }

  /** Overrides never hide an error: the case is blocked exactly when some violation is an error. */
  lemma OverridesNeverHideErrors(violations: seq<BR.RuleViolation>, overridden: seq<string>)
    ensures HasBlockingErrors(violations, overridden) <==> exists v :: v in violations && v.severity == BR.Error
  {
    if v :| v in violations && v.severity == BR.Error {
      assert v in ActiveViolations(violations, overridden);
    }
  }

  // ==================================================================== case history

  /** A saved case; the RVU total and payment estimate are left out. */
  datatype SavedCase = SavedCase(
    id: string,
    timestamp: int,
    caseId: string,
    location: string,
    sections: Sections,
    indication: string)

  /** How many cases the history keeps. */
  const MaxHistory: nat := 50

  /** The indication saved with a case: the first non-empty of the cardiac, peripheral and structural picks. */
  function CaseIndication(cardiac: Option<string>, peripheral: Option<string>, structural: Option<string>): (r: string)
    ensures Truthy(cardiac) ==> r == cardiac.value
    ensures !Truthy(cardiac) && Truthy(peripheral) ==> r == peripheral.value
    ensures !Truthy(cardiac) && !Truthy(peripheral) ==> r == OrElse(structural, "")
  {
    if Truthy(cardiac) then cardiac.value else if Truthy(peripheral) then peripheral.value else OrElse(structural, "")
  }

  /** `saveToHistory`: the new case goes first and only the latest fifty are kept. */
  function SaveToHistory(history: seq<SavedCase>, newCase: SavedCase): (r: seq<SavedCase>)
    ensures |r| <= MaxHistory
    ensures |r| == if |history| + 1 <= MaxHistory then |history| + 1 else MaxHistory
    ensures r[0] == newCase
    ensures forall k :: 1 <= k < |r| ==> r[k] == history[k - 1]
  {
    var all := [newCase] + history;
    if |all| <= MaxHistory then all else all[..MaxHistory]
  }

  /** Saving again keeps the most recent case first and pushes the previous head to second place. */
  lemma SaveToHistoryTwice(history: seq<SavedCase>, first: SavedCase, second: SavedCase)
    ensures var h := SaveToHistory(SaveToHistory(history, first), second);
      |h| >= 2 && h[0] == second && h[1] == first
  {
  }

  // ==================================================================== locations

  /** `addLocation`: a trimmed, non-empty, new location is appended and the input cleared; otherwise nothing changes. */
  function AddLocation(locations: seq<string>, newLocation: string): (r: (seq<string>, string))
    ensures Trim(newLocation) != "" && Trim(newLocation) !in locations ==> r == (locations + [Trim(newLocation)], "")
    ensures Trim(newLocation) == "" || Trim(newLocation) in locations ==> r == (locations, newLocation)
  {
    var t := Trim(newLocation);
    if t != "" && t !in locations then (locations + [t], "") else (locations, newLocation)
  }

  /** Adding locations never duplicates one, and every added location is trimmed. */
  lemma AddLocationKeepsUnique(locations: seq<string>, newLocation: string)
    requires NoDup(locations)
    ensures NoDup(AddLocation(locations, newLocation).0)
    ensures forall l :: l in AddLocation(locations, newLocation).0 && l !in locations ==> l == Trim(newLocation) && l != ""
  {
    var t := Trim(newLocation);
    if t != "" && t !in locations {
      var r := locations + [t];
      forall i, j | 0 <= i < j < |r| ensures r[i] != r[j] {
        if j == |locations| {
          assert r[i] in locations;
        }
      }
    }
  }

  // ==================================================================== code search

  /** A catalogue code the lowercased query `q` finds by code, summary or description. */
  predicate CodeMatches(q: string, c: CatalogCode)
  {
    Contains(c.code, q)
    || (c.summary.Some? && Contains(Lower(c.summary.value), q))
    || (c.description.Some? && Contains(Lower(c.description.value), q))
  }

  /** A named category of the catalogue, in insertion order. */
  datatype Category = Category(name: string, codes: seq<CatalogCode>)

  function MatchingCodes(q: string, codes: seq<CatalogCode>): seq<CatalogCode>
  {
    Filter(codes, (c: CatalogCode) => CodeMatches(q, c))
  }

  function FilterCategories(q: string, categories: seq<Category>): (r: seq<Category>)
    ensures forall k :: 0 <= k < |r| ==> |r[k].codes| > 0
    ensures forall cat :: cat in r <==>
      exists k :: 0 <= k < |categories| && cat == Category(categories[k].name, MatchingCodes(q, categories[k].codes)) && |cat.codes| > 0
  {
    if |categories| == 0 then []
    else
      var first := categories[0];
      var matches := MatchingCodes(q, first.codes);
      var rest := FilterCategories(q, categories[1..]);
      assert forall k :: 0 < k < |categories| ==> categories[k] == categories[1..][k - 1];
      if |matches| > 0 then [Category(first.name, matches)] + rest else rest
  }

  /**
   * `filterCodes`: a blank query gives the catalogue back; otherwise each
   * category keeps its matching codes, and categories left empty go.
   */
  function FilterCodes(categories: seq<Category>, query: string): (r: seq<Category>)
    ensures Trim(query) == "" ==> r == categories
    ensures Trim(query) != "" ==>
      forall k :: 0 <= k < |r| ==> |r[k].codes| > 0 && forall c :: c in r[k].codes ==> CodeMatches(Lower(query), c)
  {
    if Trim(query) == "" then categories
    else
      var r := FilterCategories(Lower(query), categories);
      assert forall k :: 0 <= k < |r| ==> r[k] in r;
      r
  }

  /** Every matching code of a category that has one is kept under that category's name. */
  lemma FilterCodesKeepsMatches(categories: seq<Category>, query: string, k: int, c: CatalogCode)
    requires Trim(query) != "" && 0 <= k < |categories|
    requires c in categories[k].codes && CodeMatches(Lower(query), c)
    ensures exists cat :: cat in FilterCodes(categories, query) && cat.name == categories[k].name && c in cat.codes
  {
    var cat := Category(categories[k].name, MatchingCodes(Lower(query), categories[k].codes));
    assert c in cat.codes;
    assert cat in FilterCategories(Lower(query), categories);
  }

  // ==================================================================== bundling analysis

  const DiagnosticCathCodes: seq<string> := ["93454", "93455", "93456", "93457", "93458", "93459", "93460", "93461"]
  const PciCodes: seq<string> := ["92920", "92924", "92928", "92930", "92933", "92937", "92941", "92943", "92945"]
  const ImagingCodes: seq<string> := ["92978", "92979", "93571", "93572", "0523T", "0524T"]
  const DcbImagingCodes: seq<string> := ["92978", "92979", "0523T", "0524T"]
  const BasePciCodes: seq<string> := ["92920", "92924", "92928", "92930", "92933"]

  /** The single codes the analysis may bill, in the order its steps push them. */
  const AddOnOrder: seq<string> := ["92973", "92972", "0913T", "0914T", "92974", "99152", "99153"]

  /** A 2026 peripheral code: starts with 372 and lies in 37254..37299. */
  predicate IsPeripheral2026(c: string)
  {
    StartsWith(c, "372") && ParseInt(c).Some? && 37254 <= ParseInt(c).value <= 37299
  }

  predicate AnyIn(codes: seq<string>, list: seq<string>)
  {
    exists c :: c in codes && c in list
  }

  function InList(list: seq<string>): string -> bool
  {
    c => c in list
  }

  /** The guidance the analysis shows; the criteria texts are left out. */
  datatype BundlingWarning =
    | DiagnosticCathWithPci
    | DrugCoatedBalloon
    | DrugCoatedBalloonAddOn
    | PeripheralBundling
    | PeripheralDiagnosticAngiography
    | MultiplePci

  /** Every warning, in the order the analysis pushes them. */
  const WarningOrder: seq<BundlingWarning> :=
    [DiagnosticCathWithPci, DrugCoatedBalloon, DrugCoatedBalloonAddOn, PeripheralBundling, PeripheralDiagnosticAngiography, MultiplePci]

  /** The order lists every warning. */
  lemma WarningOrderComplete(w: BundlingWarning)
    ensures w in WarningOrder
  {
    match w
    case DiagnosticCathWithPci => assert WarningOrder[0] == w;
    case DrugCoatedBalloon => assert WarningOrder[1] == w;
    case DrugCoatedBalloonAddOn => assert WarningOrder[2] == w;
    case PeripheralBundling => assert WarningOrder[3] == w;
    case PeripheralDiagnosticAngiography => assert WarningOrder[4] == w;
    case MultiplePci => assert WarningOrder[5] == w;
  }

  /** The guidance steps: each warning is pushed when its condition holds. */
  method CollectWarnings(codes: seq<string>) returns (warnings: seq<BundlingWarning>)
    ensures forall w :: w in warnings <==> Shown(codes, w)
  {
    warnings := PushEach([], WarningOrder, w => Shown(codes, w));
    forall w ensures w in warnings <==> Shown(codes, w) {
      WarningOrderComplete(w);
    }
  }

  /** Whether the analysis shows warning `w` for the picked codes. */
  predicate Shown(codes: seq<string>, w: BundlingWarning)
  {
    match w
    case DiagnosticCathWithPci => AnyIn(codes, DiagnosticCathCodes) && AnyIn(codes, PciCodes)
    case DrugCoatedBalloon => "0913T" in codes
    case DrugCoatedBalloonAddOn => "0914T" in codes
    case PeripheralBundling => |Filter(codes, IsPeripheral2026)| > 0
    case PeripheralDiagnosticAngiography => |Filter(codes, IsPeripheral2026)| > 0
    case MultiplePci => |Filter(codes, InList(PciCodes))| > 1
  }

  /** Whether the step for add-on or sedation code `c` pushes it. */
  predicate AddOnBilled(codes: seq<string>, includeSedation: bool, sedationUnits: int, c: string)
  {
    if c == "99152" then includeSedation
    else if c == "99153" then includeSedation && sedationUnits > 0
    else if c == "0913T" then c in codes
    else if c == "0914T" then c in codes && AnyIn(codes, BasePciCodes)
    else c in codes && AnyIn(codes, PciCodes)
  }

  /** A code the analysis may bill: a picked one, or a sedation code when sedation is included. */
  predicate BillableOrigin(codes: seq<string>, includeSedation: bool, sedationUnits: int, c: string)
  {
    c in codes || (includeSedation && (c == "99152" || (c == "99153" && sedationUnits > 0)))
  }

  function Codes(selected: seq<SelectedCode>): (r: seq<string>)
    ensures |r| == |selected| && forall k :: 0 <= k < |selected| ==> r[k] == selected[k].code
  {
    seq(|selected|, k requires 0 <= k < |selected| => selected[k].code)
  }

  /** An intravascular imaging code the imaging step bills; `asWritten` keeps the imaging a drug-coated balloon bundles. */
  function ImagingStep(codes: seq<string>, asWritten: bool): string -> bool
  {
    c => c in ImagingCodes && (asWritten || !("0913T" in codes && c in DcbImagingCodes))
  }

  /** No add-on or sedation code is an imaging code. */
  lemma AddOnsAreNotImaging()
    ensures forall c :: c in AddOnOrder ==> c !in DcbImagingCodes
  {
  }

  /**
   * The billing steps before the closing pass: imaging with a PCI, then the
   * add-on and sedation codes. As written, the imaging step also bills the
   * imaging that the drug-coated-balloon step bundles.
   */
  method CollectBillable(codes: seq<string>, includeSedation: bool, sedationUnits: int, asWritten: bool)
    returns (billable: seq<string>)
    ensures forall c :: c in billable ==> BillableOrigin(codes, includeSedation, sedationUnits, c)
    ensures forall c :: c in AddOnOrder && AddOnBilled(codes, includeSedation, sedationUnits, c) ==> c in billable
    ensures AnyIn(codes, ImagingCodes) && AnyIn(codes, PciCodes) ==>
      forall c :: c in codes && ImagingStep(codes, asWritten)(c) ==> c in billable
    ensures forall c :: c in billable ==> c in AddOnOrder || ImagingStep(codes, asWritten)(c)
  {
    billable := [];
    if AnyIn(codes, ImagingCodes) && AnyIn(codes, PciCodes) {
      billable := PushEach(billable, codes, ImagingStep(codes, asWritten));
    }
    var imaging := billable;
    billable := PushEach(billable, AddOnOrder, c => AddOnBilled(codes, includeSedation, sedationUnits, c));
    assert forall c :: c in imaging ==> c in billable;
  }

  /**
   * `analyzeBundlingRules` over the primary section: intravascular imaging
   * with a PCI, the add-on and sedation codes are billed, the imaging is
   * bundled into a drug-coated balloon, the guidance is collected, and a
   * closing pass bills every other picked code. Reasons are left out.
   * With `asWritten` the imaging step runs as the source has it.
   */
  method Analyze(selected: seq<SelectedCode>, includeSedation: bool, sedationUnits: int, asWritten: bool)
    returns (billable: seq<string>, bundled: seq<string>, warnings: seq<BundlingWarning>)
    ensures forall sc :: sc in selected ==> sc.code in billable || sc.code in bundled
    ensures forall c :: c in bundled <==> "0913T" in Codes(selected) && c in Codes(selected) && c in DcbImagingCodes
    ensures forall c :: c in billable ==> BillableOrigin(Codes(selected), includeSedation, sedationUnits, c)
    ensures forall c :: c in AddOnOrder && AddOnBilled(Codes(selected), includeSedation, sedationUnits, c) ==> c in billable
    ensures AnyIn(Codes(selected), ImagingCodes) && AnyIn(Codes(selected), PciCodes) ==>
      forall c :: c in Codes(selected) && ImagingStep(Codes(selected), asWritten)(c) ==> c in billable
    ensures !asWritten ==> forall c :: c in billable ==> c !in bundled
    ensures forall w :: w in warnings <==> Shown(Codes(selected), w)
  {
    var codes := Codes(selected);
    var stepBillable := CollectBillable(codes, includeSedation, sedationUnits, asWritten);
    bundled := [];
    if "0913T" in codes {
      bundled := PushEach(bundled, codes, InList(DcbImagingCodes));
    }
    warnings := CollectWarnings(codes);
    billable := BillRemaining(selected, stepBillable, bundled);
    AddOnsAreNotImaging();
  }

  /** The analysis with imaging never both billed and bundled. */
  method AnalyzeBundlingRules(selected: seq<SelectedCode>, includeSedation: bool, sedationUnits: int)
    returns (billable: seq<string>, bundled: seq<string>, warnings: seq<BundlingWarning>)
    ensures forall sc :: sc in selected ==> sc.code in billable || sc.code in bundled
    ensures forall c :: c in bundled <==> "0913T" in Codes(selected) && c in Codes(selected) && c in DcbImagingCodes
    ensures forall c :: c in billable ==> BillableOrigin(Codes(selected), includeSedation, sedationUnits, c)
    ensures forall c :: c in billable ==> c !in bundled
    ensures forall c :: c in AddOnOrder && AddOnBilled(Codes(selected), includeSedation, sedationUnits, c) ==> c in billable
    ensures AnyIn(Codes(selected), ImagingCodes) && AnyIn(Codes(selected), PciCodes) ==>
      forall c :: c in Codes(selected) && c in ImagingCodes && !("0913T" in Codes(selected) && c in DcbImagingCodes) ==> c in billable
    ensures forall w :: w in warnings <==> Shown(Codes(selected), w)
  {
    billable, bundled, warnings := Analyze(selected, includeSedation, sedationUnits, false);
  }

  /** Intravascular ultrasound with a PCI and a drug-coated balloon: as written, 92978 is both billed and bundled. */
  method ImagingDoubleCountedAsWritten() returns (billable: seq<string>, bundled: seq<string>)
    ensures "92978" in billable && "92978" in bundled
  {
    var selected := [SelectedCode("92920", None), SelectedCode("0913T", None), SelectedCode("92978", None)];
    var codes := Codes(selected);
    assert codes[0] == "92920" && codes[1] == "0913T" && codes[2] == "92978";
    assert codes[0] in PciCodes;
    assert codes[2] in ImagingCodes && codes[2] in DcbImagingCodes;
    var warnings;
    billable, bundled, warnings := Analyze(selected, false, 0, true);
  }

  /** The closing `forEach`: a picked code neither billed nor bundled yet is billed as a primary procedure. */
  method BillRemaining(selected: seq<SelectedCode>, billable0: seq<string>, bundled: seq<string>) returns (billable: seq<string>)
    ensures billable0 <= billable
    ensures forall c :: c in billable0 ==> c in billable
    ensures forall sc :: sc in selected ==> sc.code in billable || sc.code in bundled
    ensures forall c :: c in billable ==> c in billable0 || c in Codes(selected)
    ensures forall c :: c in billable && c !in billable0 ==> c !in bundled
  {
    billable := billable0;
    for i := 0 to |selected|
      invariant billable0 <= billable
      invariant forall c :: c in billable0 ==> c in billable
      invariant forall k :: 0 <= k < i ==> selected[k].code in billable || selected[k].code in bundled
      invariant forall c :: c in billable ==> c in billable0 || c in Codes(selected)
      invariant forall c :: c in billable && c !in billable0 ==> c !in bundled
    {
      if selected[i].code !in billable && selected[i].code !in bundled {
        assert selected[i].code == Codes(selected)[i];
        billable := billable + [selected[i].code];
      }
    }
  }

  /** The peripheral warnings appear exactly when a 2026 peripheral code is picked. */
  lemma PeripheralWarningIff(codes: seq<string>)
    ensures Shown(codes, PeripheralBundling) <==> exists c :: c in codes && IsPeripheral2026(c)
  {
    FilterNonEmpty(codes, IsPeripheral2026);
  }
}
