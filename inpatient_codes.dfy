/**
 * Inpatient evaluation-and-management codes used on rounds: the code
 * catalogue grouped by category, the pairwise billing-compatibility cascade,
 * the "can this code be added" test and the modifiers a selection needs.
 */
module InpatientCodes {
  import opened Text

  /** The categories of the inpatient catalogue, in catalogue order. */
  datatype InpatientCategory =
    | NoCharge
    | InitialHospital
    | Subsequent
    | ObservationSameDay
    | ObservationSubsequent
    | Discharge
    | Consults
    | CriticalCare
    | ProlongedServices

  /** The category's display name, which is also its key in the catalogue. */
  function CategoryName(c: InpatientCategory): string
  {
    match c
    case NoCharge => "No Charge"
    case InitialHospital => "E/M - Initial Hospital"
    case Subsequent => "E/M - Subsequent"
    case ObservationSameDay => "E/M - Observation (Same-Day)"
    case ObservationSubsequent => "E/M - Observation (Subsequent)"
    case Discharge => "E/M - Discharge"
    case Consults => "Consults"
    case CriticalCare => "Critical Care"
    case ProlongedServices => "Prolonged Services"
  }

  /** One catalogue entry (summary and description text are not modelled). */
  datatype InpatientCode = InpatientCode(
    code: string,
    rvu: real,
    category: InpatientCategory,
    requiresTime: bool,
    isAddOn: bool,
    isInitialEncounter: bool)

  function Entry(code: string, rvu: real, cat: InpatientCategory): InpatientCode
  {
    InpatientCode(code, rvu, cat, false, false, false)
  }

  function InitialEntry(code: string, rvu: real, cat: InpatientCategory): InpatientCode
  {
    InpatientCode(code, rvu, cat, false, false, true)
  }

  function TimedAddOn(code: string, rvu: real, cat: InpatientCategory): InpatientCode
  {
    InpatientCode(code, rvu, cat, true, true, false)
  }

  /** The entries of one category, in catalogue order. */
  function CategoryEntries(c: InpatientCategory): seq<InpatientCode>
  {
    match c
    case NoCharge => [Entry("00000", 0.0, NoCharge)]
    case InitialHospital =>
      [InitialEntry("99221", 1.92, InitialHospital), InitialEntry("99222", 2.61, InitialHospital),
       InitialEntry("99223", 3.86, InitialHospital)]
    case Subsequent =>
      [Entry("99231", 0.99, Subsequent), Entry("99232", 1.39, Subsequent), Entry("99233", 2.00, Subsequent)]
    case ObservationSameDay =>
      [Entry("99234", 2.56, ObservationSameDay), Entry("99235", 3.41, ObservationSameDay),
       Entry("99236", 4.60, ObservationSameDay)]
    case ObservationSubsequent =>
      [Entry("99224", 0.99, ObservationSubsequent), Entry("99225", 1.39, ObservationSubsequent),
       Entry("99226", 2.00, ObservationSubsequent)]
    case Discharge => [Entry("99238", 1.28, Discharge), Entry("99239", 1.90, Discharge)]
    case Consults =>
      [InitialEntry("99251", 0.99, Consults), InitialEntry("99252", 1.55, Consults),
       InitialEntry("99253", 2.15, Consults), InitialEntry("99254", 3.11, Consults),
       InitialEntry("99255", 4.00, Consults)]
    case CriticalCare =>
      [InpatientCode("99291", 4.50, CriticalCare, true, false, false), TimedAddOn("99292", 2.25, CriticalCare)]
    case ProlongedServices =>
      [TimedAddOn("99354", 1.77, ProlongedServices), TimedAddOn("99355", 1.77, ProlongedServices),
       TimedAddOn("99356", 1.71, ProlongedServices), TimedAddOn("99357", 1.71, ProlongedServices),
       TimedAddOn("99417", 0.61, ProlongedServices)]
  }

  /** The codes of one category, in catalogue order. */
  function CategoryCodes(c: InpatientCategory): seq<string>
  {
    match c
    case NoCharge => ["00000"]
    case InitialHospital => ["99221", "99222", "99223"]
    case Subsequent => ["99231", "99232", "99233"]
    case ObservationSameDay => ["99234", "99235", "99236"]
    case ObservationSubsequent => ["99224", "99225", "99226"]
    case Discharge => ["99238", "99239"]
    case Consults => ["99251", "99252", "99253", "99254", "99255"]
    case CriticalCare => ["99291", "99292"]
    case ProlongedServices => ["99354", "99355", "99356", "99357", "99417"]
  }

  /** The entries of a category carry that category and, position by position, its codes. */
  lemma CategoryEntriesMatchCodes(c: InpatientCategory)
    ensures |CategoryEntries(c)| == |CategoryCodes(c)|
    ensures forall i :: 0 <= i < |CategoryEntries(c)| ==>
      CategoryEntries(c)[i].code == CategoryCodes(c)[i] && CategoryEntries(c)[i].category == c
  {
  }

  /** Whether a category lists `code`. */
  predicate Lists(c: InpatientCategory, code: string)
  {
    code in CategoryCodes(c)
  }

  /** The categories in catalogue order. */
  const CatalogueOrder: seq<InpatientCategory> :=
    [NoCharge, InitialHospital, Subsequent, ObservationSameDay, ObservationSubsequent, Discharge, Consults,
     CriticalCare, ProlongedServices]

  /** `getAllInpatientCodes`: every category's entries, in catalogue order. */
  function AllInpatientCodes(): seq<InpatientCode>
  {
    FlatMap(CatalogueOrder, CategoryEntries)
  }

  /** A catalogue entry is among the entries of its own category. */
  lemma EntryInOwnCategory(e: InpatientCode)
    requires e in AllInpatientCodes()
    ensures e in CategoryEntries(e.category)
  {
    FlatMapMember(CatalogueOrder, CategoryEntries, e);
    var i :| 0 <= i < |CatalogueOrder| && e in CategoryEntries(CatalogueOrder[i]);
    var j :| 0 <= j < |CategoryEntries(CatalogueOrder[i])| && CategoryEntries(CatalogueOrder[i])[j] == e;
    CategoryEntriesMatchCodes(CatalogueOrder[i]);
  }

  /** The search `getInpatientCategory` performs: the first category, in catalogue order, listing the code. */
  function FirstListingCategory(code: string): Option<InpatientCategory>
  {
    if Lists(NoCharge, code) then Some(NoCharge)
    else if Lists(InitialHospital, code) then Some(InitialHospital)
    else if Lists(Subsequent, code) then Some(Subsequent)
    else if Lists(ObservationSameDay, code) then Some(ObservationSameDay)
    else if Lists(ObservationSubsequent, code) then Some(ObservationSubsequent)
    else if Lists(Discharge, code) then Some(Discharge)
    else if Lists(Consults, code) then Some(Consults)
    else if Lists(CriticalCare, code) then Some(CriticalCare)
    else if Lists(ProlongedServices, code) then Some(ProlongedServices)
    else None
  }

  /** Every catalogued code with the category that lists it. */
  function CategoryByCode(): map<string, InpatientCategory>
  {
    map[
    "00000" := NoCharge,
    "99221" := InitialHospital, "99222" := InitialHospital, "99223" := InitialHospital,
    "99231" := Subsequent, "99232" := Subsequent, "99233" := Subsequent,
    "99234" := ObservationSameDay, "99235" := ObservationSameDay, "99236" := ObservationSameDay,
    "99224" := ObservationSubsequent, "99225" := ObservationSubsequent, "99226" := ObservationSubsequent,
    "99238" := Discharge, "99239" := Discharge,
    "99251" := Consults, "99252" := Consults, "99253" := Consults, "99254" := Consults, "99255" := Consults,
    "99291" := CriticalCare, "99292" := CriticalCare,
    "99354" := ProlongedServices, "99355" := ProlongedServices, "99356" := ProlongedServices,
    "99357" := ProlongedServices, "99417" := ProlongedServices]
  }

  /** `getInpatientCategory`, as a lookup of the catalogued codes (see `GetInpatientCategoryIsFirstListing`). */
  function GetInpatientCategory(code: string): (r: Option<InpatientCategory>)
  {
    if code in CategoryByCode() then Some(CategoryByCode()[code]) else None
  }

  /** Each code a category lists is mapped to that category. */
  lemma ListedCodesMapped(c: InpatientCategory)
    ensures forall code :: Lists(c, code) ==> code in CategoryByCode() && CategoryByCode()[code] == c
  {
    if c == NoCharge || c == InitialHospital {
      ListedCodesMappedA(c);
    } else if c == Subsequent || c == ObservationSameDay {
      ListedCodesMappedB(c);
    } else if c == ObservationSubsequent || c == Discharge {
      ListedCodesMappedC(c);
    } else if c == Consults || c == CriticalCare {
      ListedCodesMappedD(c);
    } else {
      ListedCodesMappedE(c);
    }
  }

  lemma ListedCodesMappedA(c: InpatientCategory)
    requires c == NoCharge || c == InitialHospital
    ensures forall code :: Lists(c, code) ==> code in CategoryByCode() && CategoryByCode()[code] == c
  {
  }

  lemma ListedCodesMappedB(c: InpatientCategory)
    requires c == Subsequent || c == ObservationSameDay
    ensures forall code :: Lists(c, code) ==> code in CategoryByCode() && CategoryByCode()[code] == c
  {
  }

  lemma ListedCodesMappedC(c: InpatientCategory)
    requires c == ObservationSubsequent || c == Discharge
    ensures forall code :: Lists(c, code) ==> code in CategoryByCode() && CategoryByCode()[code] == c
  {
  }

  lemma ListedCodesMappedD(c: InpatientCategory)
    requires c == Consults || c == CriticalCare
    ensures forall code :: Lists(c, code) ==> code in CategoryByCode() && CategoryByCode()[code] == c
  {
  }

  lemma ListedCodesMappedE(c: InpatientCategory)
    requires c == ProlongedServices
    ensures forall code :: Lists(c, code) ==> code in CategoryByCode() && CategoryByCode()[code] == c
  {
  }

  /** Each mapped code is listed by the category it is mapped to. */
  lemma MappedCodesListed(code: string)
    requires code in CategoryByCode()
    ensures Lists(CategoryByCode()[code], code)
  {
  }

  /** Every catalogued code is five digits. */
  lemma CatalogCodesAreDigits(code: string)
    requires GetInpatientCategory(code).Some?
    ensures |code| == 5 && AllDigits(code)
  {
    var c := GetInpatientCategory(code).value;
    CategoryIffListed(code, c);
    if c == NoCharge || c == InitialHospital || c == Subsequent {
      ListedCodesAreDigitsA(c, code);
    } else if c == ObservationSameDay || c == ObservationSubsequent || c == Discharge {
      ListedCodesAreDigitsB(c, code);
    } else {
      ListedCodesAreDigitsC(c, code);
    }
  }

  lemma ListedCodesAreDigitsA(c: InpatientCategory, code: string)
    requires (c == NoCharge || c == InitialHospital || c == Subsequent) && Lists(c, code)
    ensures |code| == 5 && AllDigits(code)
  {
  }

  lemma ListedCodesAreDigitsB(c: InpatientCategory, code: string)
    requires (c == ObservationSameDay || c == ObservationSubsequent || c == Discharge) && Lists(c, code)
    ensures |code| == 5 && AllDigits(code)
  {
  }

  lemma ListedCodesAreDigitsC(c: InpatientCategory, code: string)
    requires (c == Consults || c == CriticalCare || c == ProlongedServices) && Lists(c, code)
    ensures |code| == 5 && AllDigits(code)
  {
  }

  /** The lookup finds exactly what the in-order search over the catalogue finds. */
  lemma GetInpatientCategoryIsFirstListing(code: string)
    ensures GetInpatientCategory(code) == FirstListingCategory(code)
  {
    ListedCodesMapped(NoCharge);
    ListedCodesMapped(InitialHospital);
    ListedCodesMapped(Subsequent);
    ListedCodesMapped(ObservationSameDay);
    ListedCodesMapped(ObservationSubsequent);
    ListedCodesMapped(Discharge);
    ListedCodesMapped(Consults);
    ListedCodesMapped(CriticalCare);
    ListedCodesMapped(ProlongedServices);
    if code in CategoryByCode() {
      MappedCodesListed(code);
    }
  }

  /** Every catalogue entry is found under its own category. */
  lemma EntryCategory(e: InpatientCode)
    requires e in AllInpatientCodes()
    ensures GetInpatientCategory(e.code) == Some(e.category)
  {
    var c := e.category;
    CategoryEntriesMatchCodes(c);
    EntryInOwnCategory(e);
    var i :| 0 <= i < |CategoryEntries(c)| && CategoryEntries(c)[i] == e;
    assert CategoryCodes(c)[i] == e.code;
    CategoryIffListed(e.code, c);
  }

  /** A code is catalogued exactly when some category lists it, and then that category is the one found. */
  lemma CategoryIffListed(code: string, c: InpatientCategory)
    ensures GetInpatientCategory(code) == Some(c) <==> Lists(c, code)
  {
    ListedCodesMapped(c);
    if code in CategoryByCode() {
      MappedCodesListed(code);
    }
  }

  // ==================================================================== billing groups

  datatype BillingGroup =
    | PrimaryEm
    | Observation
    | ObservationSubsequentGroup
    | DischargeGroup
    | CriticalCareGroup
    | Prolonged
    | NoChargeGroup

  /** The categories that are mutually exclusive with each other. */
  predicate IsPrimaryEmCategory(c: InpatientCategory)
  {
    c == InitialHospital || c == Subsequent || c == Consults
  }

  /** `getBillingGroup`. */
  function GetBillingGroup(c: InpatientCategory): (g: BillingGroup)
    ensures g == PrimaryEm <==> IsPrimaryEmCategory(c)
    ensures g == NoChargeGroup <==> c == NoCharge
  {
    if c == NoCharge then NoChargeGroup
    else if IsPrimaryEmCategory(c) then PrimaryEm
    else if c == ObservationSameDay then Observation
    else if c == ObservationSubsequent then ObservationSubsequentGroup
    else if c == Discharge then DischargeGroup
    else if c == CriticalCare then CriticalCareGroup
    else Prolonged
  }

  /** Only categories outside the primary E/M group share none of their group. */
  lemma GroupsSeparateCategories(a: InpatientCategory, b: InpatientCategory)
    requires a != b && GetBillingGroup(a) == GetBillingGroup(b)
    ensures IsPrimaryEmCategory(a) && IsPrimaryEmCategory(b)
  {
  }

  // ==================================================================== compatibility

  /** The outcome of `checkBillingCompatibility` (the reason text is not modelled). */
  datatype BillingCompatibility = BillingCompatibility(
    canBill: bool,
    requiresModifier: Option<string>,
    modifierAppliesTo: Option<string>)

  function Verdict(b: bool): BillingCompatibility
  {
    BillingCompatibility(b, None, None)
  }

  /** The first-hour and additional-time critical care codes, in either order. */
  predicate IsCriticalCarePair(code1: string, code2: string)
  {
    (code1 == "99291" && code2 == "99292") || (code1 == "99292" && code2 == "99291")
  }

  /**
   * The branch cascade of `checkBillingCompatibility` for two catalogued codes.
   * With `pairFixed` false it is the cascade as written, in which the
   * same-category rule rejects 99291 with 99292 before the rule meant to
   * accept them is reached; with `pairFixed` true the same-category rule
   * lets that pair through.
   */
  function Cascade(code1: string, cat1: InpatientCategory, code2: string, cat2: InpatientCategory,
                   pairFixed: bool): BillingCompatibility
  {
    var g1 := GetBillingGroup(cat1);
    var g2 := GetBillingGroup(cat2);
    if g1 == NoChargeGroup || g2 == NoChargeGroup then Verdict(code1 == code2)
    else if cat1 == cat2 then Verdict(code1 == code2 || (pairFixed && IsCriticalCarePair(code1, code2)))
    else if g1 == PrimaryEm && g2 == PrimaryEm then Verdict(false)
    else if (g1 == Observation || g2 == Observation)
            && (var other := if g1 == Observation then g2 else g1;
                other == PrimaryEm || other == DischargeGroup || other == ObservationSubsequentGroup)
    then Verdict(false)
    else if (g1 == ObservationSubsequentGroup || g2 == ObservationSubsequentGroup)
            && (if g1 == ObservationSubsequentGroup then g2 else g1) == PrimaryEm
    then Verdict(false)
    else if (g1 == PrimaryEm && g2 == DischargeGroup) || (g1 == DischargeGroup && g2 == PrimaryEm) then Verdict(false)
    else if (g1 == CriticalCareGroup && g2 == DischargeGroup) || (g1 == DischargeGroup && g2 == CriticalCareGroup)
    then Verdict(true)
    else if (g1 == CriticalCareGroup && g2 == PrimaryEm) || (g1 == PrimaryEm && g2 == CriticalCareGroup)
    then BillingCompatibility(true, Some("-25"), Some(if g1 == PrimaryEm then code1 else code2))
    else if code1 == "99292" || code2 == "99292" then Verdict(code1 == "99291" || code2 == "99291")
    else if g1 == Prolonged || g2 == Prolonged then
      var other := if g1 == Prolonged then g2 else g1;
      Verdict(other == PrimaryEm || other == DischargeGroup)
    else Verdict(true)
  }

  function Compatibility(code1: string, code2: string, pairFixed: bool): BillingCompatibility
  {
    match (GetInpatientCategory(code1), GetInpatientCategory(code2))
    case (Some(c1), Some(c2)) => Cascade(code1, c1, code2, c2, pairFixed)
    case _ => Verdict(false)
  }

  /** `checkBillingCompatibility` exactly as written. */
  function CheckBillingCompatibilityAsWritten(code1: string, code2: string): BillingCompatibility
  {
    Compatibility(code1, code2, false)
  }

  /** `checkBillingCompatibility` with 99291 + 99292 billable together, as its own 99292 rule intends. */
  function CheckBillingCompatibility(code1: string, code2: string): BillingCompatibility
  {
    Compatibility(code1, code2, true)
  }

  lemma CascadeSymmetric(code1: string, c1: InpatientCategory, code2: string, c2: InpatientCategory, pairFixed: bool)
    ensures Cascade(code1, c1, code2, c2, pairFixed) == Cascade(code2, c2, code1, c1, pairFixed)
  {
    match GetBillingGroup(c1)
    case PrimaryEm =>
    case Observation =>
    case ObservationSubsequentGroup =>
    case DischargeGroup =>
    case CriticalCareGroup =>
    case Prolonged =>
    case NoChargeGroup =>
  }

  /** The whole outcome, modifier included, does not depend on the argument order. */
  lemma CompatibilitySymmetric(code1: string, code2: string, pairFixed: bool)
    ensures Compatibility(code1, code2, pairFixed) == Compatibility(code2, code1, pairFixed)
  {
    var o1, o2 := GetInpatientCategory(code1), GetInpatientCategory(code2);
    if o1.Some? && o2.Some? {
      CascadeSymmetric(code1, o1.value, code2, o2.value, pairFixed);
    }
  }

  /** A code outside the catalogue is billable with nothing. */
  lemma UnknownCodeNotBillable(code1: string, code2: string, pairFixed: bool)
    requires GetInpatientCategory(code1).None? || GetInpatientCategory(code2).None?
    ensures !Compatibility(code1, code2, pairFixed).canBill
  {
  }

  predicate InGroup(code: string, g: BillingGroup)
  {
    GetInpatientCategory(code).Some? && GetBillingGroup(GetInpatientCategory(code).value) == g
  }

  /** A modifier is required exactly for critical care with a primary E/M code, and it is -25 on the E/M code. */
  lemma ModifierExactlyForCriticalCareWithEm(code1: string, code2: string, pairFixed: bool)
    ensures var r := Compatibility(code1, code2, pairFixed);
      r.requiresModifier.Some? <==>
        (InGroup(code1, CriticalCareGroup) && InGroup(code2, PrimaryEm))
        || (InGroup(code1, PrimaryEm) && InGroup(code2, CriticalCareGroup))
    ensures var r := Compatibility(code1, code2, pairFixed);
      r.requiresModifier.Some? ==>
        r.canBill && r.requiresModifier == Some("-25")
        && r.modifierAppliesTo == Some(if InGroup(code1, PrimaryEm) then code1 else code2)
  {
    var o1, o2 := GetInpatientCategory(code1), GetInpatientCategory(code2);
    if o1.Some? && o2.Some? {
      CascadeModifier(code1, o1.value, code2, o2.value, pairFixed);
    }
  }

  /** Within the cascade, only critical care with a primary E/M code asks for a modifier: '-25' on the E/M code. */
  lemma CascadeModifier(code1: string, c1: InpatientCategory, code2: string, c2: InpatientCategory, pairFixed: bool)
    ensures var r := Cascade(code1, c1, code2, c2, pairFixed);
      var g1, g2 := GetBillingGroup(c1), GetBillingGroup(c2);
      (r.requiresModifier.Some? <==> (g1 == CriticalCareGroup && g2 == PrimaryEm) || (g1 == PrimaryEm && g2 == CriticalCareGroup))
      && (r.requiresModifier.Some? ==>
            r.canBill && r.requiresModifier == Some("-25") && r.modifierAppliesTo == Some(if g1 == PrimaryEm then code1 else code2))
  {
    var g1, g2 := GetBillingGroup(c1), GetBillingGroup(c2);
    if (g1 == CriticalCareGroup && g2 == PrimaryEm) || (g1 == PrimaryEm && g2 == CriticalCareGroup) {
      assert c1 != c2;
    }
  }

  /** Two different codes of one category are billable together only as the critical care pair, once fixed. */
  lemma SameCategoryExclusive(code1: string, code2: string, pairFixed: bool)
    requires code1 != code2
    requires GetInpatientCategory(code1).Some? && GetInpatientCategory(code1) == GetInpatientCategory(code2)
    ensures Compatibility(code1, code2, pairFixed).canBill <==> pairFixed && IsCriticalCarePair(code1, code2)
  {
    var c := GetInpatientCategory(code1).value;
    if IsCriticalCarePair(code1, code2) {
      assert c == CriticalCare;
    }
  }

  /** The no-charge code bills only with itself. */
  lemma NoChargeOnlyWithItself(code: string, pairFixed: bool)
    ensures Compatibility("00000", code, pairFixed).canBill <==> code == "00000"
  {
  }

  /** Compatibility across groups, in either order. */
  lemma CrossGroupRules(code1: string, code2: string, pairFixed: bool)
    ensures InGroup(code1, PrimaryEm) && InGroup(code2, PrimaryEm)
            && GetInpatientCategory(code1) != GetInpatientCategory(code2)
            ==> !Compatibility(code1, code2, pairFixed).canBill
    ensures InGroup(code1, PrimaryEm) && InGroup(code2, DischargeGroup)
            ==> !Compatibility(code1, code2, pairFixed).canBill
    ensures InGroup(code1, CriticalCareGroup) && InGroup(code2, DischargeGroup)
            ==> Compatibility(code1, code2, pairFixed).canBill
  {
  }

  /** The fix changes nothing but the critical care pair. */
  lemma FixOnlyTouchesCriticalCarePair(code1: string, code2: string)
    requires !IsCriticalCarePair(code1, code2)
    ensures CheckBillingCompatibility(code1, code2) == CheckBillingCompatibilityAsWritten(code1, code2)
  {
  }

  /** As written, 99291 and 99292 are never billable together; with the fix they are. */
  lemma CriticalCarePairAsWritten()
    ensures !CheckBillingCompatibilityAsWritten("99291", "99292").canBill
    ensures CheckBillingCompatibility("99291", "99292").canBill
  {
    assert GetInpatientCategory("99291") == Some(CriticalCare);
    assert GetInpatientCategory("99292") == Some(CriticalCare);
  }

  // ==================================================================== canAddCode

  /** A primary E/M or discharge code is among `selected`. */
  predicate HasPrimaryOrDischarge(selected: seq<string>)
  {
    exists c :: c in selected && IsPrimaryOrDischargeCode(c)
  }

  /** The code is catalogued under a primary E/M category. */
  predicate IsPrimaryEmCode(code: string)
  {
    GetInpatientCategory(code).Some? && IsPrimaryEmCategory(GetInpatientCategory(code).value)
  }

  /** The code is catalogued under `c`. */
  predicate InCategory(code: string, c: InpatientCategory)
  {
    GetInpatientCategory(code) == Some(c)
  }

  /** The code is a primary E/M or a discharge code. */
  predicate IsPrimaryOrDischargeCode(code: string)
  {
    IsPrimaryEmCode(code) || InCategory(code, Discharge)
  }

  /** The two codes may be billed together. */
  predicate Compatible(code1: string, code2: string, pairFixed: bool)
  {
    Compatibility(code1, code2, pairFixed).canBill
  }

  /** A prolonged-services code is added only next to a primary E/M or discharge code. */
  predicate ProlongedRuleHolds(newCode: string, selected: seq<string>)
  {
    GetInpatientCategory(newCode) == Some(ProlongedServices) ==> HasPrimaryOrDischarge(selected)
  }

  /** `newCode` may be billed with every selected code. */
  predicate AllCompatible(newCode: string, selected: seq<string>, pairFixed: bool)
  {
    forall s :: s in selected ==> Compatible(newCode, s, pairFixed)
  }

  /** What `canAddCode` decides, given the compatibility test it uses. */
  predicate CanAdd(newCode: string, selected: seq<string>, pairFixed: bool)
  {
    |selected| == 0
    || (AllCompatible(newCode, selected, pairFixed)
        && !(newCode == "99292" && "99291" !in selected)
        && ProlongedRuleHolds(newCode, selected))
  }

  /** `canAddCode`: a loop over the selection with early exit, then the two special rules. */
  method CanAddCode(newCode: string, selected: seq<string>, pairFixed: bool) returns (r: bool)
    ensures r == CanAdd(newCode, selected, pairFixed)
  {
    if |selected| == 0 {
      return true;
    }
    var compatible := CompatibleWithAll(newCode, selected, pairFixed);
    if !compatible {
      return false;
    }
    if newCode == "99292" && "99291" !in selected {
      return false;
    }
    if GetInpatientCategory(newCode) == Some(ProlongedServices) && !HasPrimaryOrDischarge(selected) {
      return false;
    }
    return true;
  }

  /** The loop of `canAddCode`: stop at the first selected code the new one cannot be billed with. */
  method CompatibleWithAll(newCode: string, selected: seq<string>, pairFixed: bool) returns (r: bool)
    ensures r == AllCompatible(newCode, selected, pairFixed)
  {
    var compatibleWith := s => Compatible(newCode, s, pairFixed);
    r := AllSatisfy(selected, compatibleWith);
    assert forall i :: 0 <= i < |selected| ==> (compatibleWith(selected[i]) <==> Compatible(newCode, selected[i], pairFixed));
  }

  /** Adding to an empty selection is always allowed. */
  lemma CanAddToEmpty(newCode: string, pairFixed: bool)
    ensures CanAdd(newCode, [], pairFixed)
  {
  }

  /** One incompatible selected code blocks the addition. */
  lemma IncompatibleBlocks(newCode: string, selected: seq<string>, pairFixed: bool, s: string)
    requires s in selected && !Compatibility(newCode, s, pairFixed).canBill
    ensures !CanAdd(newCode, selected, pairFixed)
  {
  }

  /** A prolonged-services code needs a primary E/M or discharge code already selected. */
  lemma ProlongedNeedsPrimary(newCode: string, selected: seq<string>, pairFixed: bool)
    requires GetInpatientCategory(newCode) == Some(ProlongedServices) && |selected| > 0
    requires CanAdd(newCode, selected, pairFixed)
    ensures HasPrimaryOrDischarge(selected)
  {
  }

  /** As written, 99292 can be added to the empty selection only: never next to anything, 99291 included. */
  lemma {:induction false} AdditionalCriticalCareOnlyAloneAsWritten(selected: seq<string>)
    ensures CanAdd("99292", selected, false) <==> |selected| == 0
  {
    if |selected| > 0 && "99291" in selected {
      CriticalCarePairAsWritten();
      assert !Compatibility("99292", "99291", false).canBill by {
        CompatibilitySymmetric("99292", "99291", false);
      }
    }
  }

  /** With the fix, 99292 can be added next to 99291, and still needs it. */
  lemma AdditionalCriticalCareWithFix(selected: seq<string>)
    ensures CanAdd("99292", ["99291"], true)
    ensures |selected| > 0 && CanAdd("99292", selected, true) ==> "99291" in selected
  {
    CriticalCarePairAsWritten();
    CompatibilitySymmetric("99292", "99291", true);
    assert GetInpatientCategory("99292") == Some(CriticalCare) by {
      assert Lists(CriticalCare, "99292");
    }
  }

  // ==================================================================== modifiers

  /** Under the pair check `f`, the selected pair at positions p < q asks for a modifier on `code`. */
  ghost predicate Asks(f: (string, string) -> BillingCompatibility, selected: seq<string>, p: int, q: int, code: string)
  {
    0 <= p < q < |selected|
    && f(selected[p], selected[q]).requiresModifier.Some?
    && f(selected[p], selected[q]).modifierAppliesTo == Some(code)
  }

  /** The selected pair at positions p < q asks for a modifier on `code`. */
  ghost predicate PairAsksModifier(selected: seq<string>, p: int, q: int, code: string)
  {
    Asks(CheckBillingCompatibility, selected, p, q, code)
  }

  /** Some critical care code is selected. */
  predicate HasCriticalCare(selected: seq<string>)
  {
    exists c :: c in selected && InGroup(c, CriticalCareGroup)
  }

  /** The codes that need a modifier: the primary E/M codes, once critical care is selected. */
  lemma PairsAskingModifier(selected: seq<string>, code: string)
    ensures (exists p, q :: PairAsksModifier(selected, p, q, code))
            <==> code in selected && InGroup(code, PrimaryEm) && HasCriticalCare(selected)
  {
    if exists p, q :: PairAsksModifier(selected, p, q, code) {
      var p, q :| PairAsksModifier(selected, p, q, code);
      ModifierExactlyForCriticalCareWithEm(selected[p], selected[q], true);
      if InGroup(selected[p], PrimaryEm) {
        assert selected[q] in selected;
      } else {
        assert selected[p] in selected;
      }
    }
    if code in selected && InGroup(code, PrimaryEm) && HasCriticalCare(selected) {
      var c :| c in selected && InGroup(c, CriticalCareGroup);
      var i :| 0 <= i < |selected| && selected[i] == code;
      var j :| 0 <= j < |selected| && selected[j] == c;
      ModifierExactlyForCriticalCareWithEm(code, c, true);
      ModifierExactlyForCriticalCareWithEm(c, code, true);
      if i < j {
        assert PairAsksModifier(selected, i, j, code);
      } else {
        assert i != j;
        assert PairAsksModifier(selected, j, i, code);
      }
    }
  }

  /**
   * `getRequiredModifiers`: every pair i < j is checked and the modifier it asks
   * for is recorded against the code it applies to.
   */
  method GetRequiredModifiers(selected: seq<string>) returns (m: map<string, string>)
    ensures forall code :: code in m <==> code in selected && InGroup(code, PrimaryEm) && HasCriticalCare(selected)
    ensures forall code :: code in m ==> m[code] == "-25"
  {
    m := map[];
    var i := 0;
    AsksMinus25();
    while i < |selected|
      invariant 0 <= i <= |selected|
      invariant Recorded(CheckBillingCompatibility, selected, i, i + 1, m)
    {
      var j := i + 1;
      while j < |selected|
        invariant i + 1 <= j <= |selected|
        invariant Recorded(CheckBillingCompatibility, selected, i, j, m)
      {
        m := RecordPair(CheckBillingCompatibility, selected, i, j, m);
        j := j + 1;
      }
      NextRow(CheckBillingCompatibility, selected, i, m);
      i := i + 1;
    }
    AllRecorded(selected, m);
  }

  /** Once every row is done, the recorded codes are the primary E/M codes, when critical care is selected. */
  lemma AllRecorded(selected: seq<string>, m: map<string, string>)
    requires Recorded(CheckBillingCompatibility, selected, |selected|, |selected| + 1, m)
    ensures forall code :: code in m <==> code in selected && InGroup(code, PrimaryEm) && HasCriticalCare(selected)
  {
    var n := |selected|;
    forall code ensures code in m <==> code in selected && InGroup(code, PrimaryEm) && HasCriticalCare(selected) {
      PairsAskingModifier(selected, code);
      if code in m {
        var p, q :| (p < n || (p == n && q < n + 1)) && Asks(CheckBillingCompatibility, selected, p, q, code);
        assert PairAsksModifier(selected, p, q, code);
      }
      if exists p, q :: PairAsksModifier(selected, p, q, code) {
        var p, q :| PairAsksModifier(selected, p, q, code);
        assert (p < n || (p == n && q < n + 1)) && Asks(CheckBillingCompatibility, selected, p, q, code);
      }
    }
  }

  /** Every modifier the pair check `f` asks for is -25. */
  ghost predicate OnlyMinus25(f: (string, string) -> BillingCompatibility)
  {
    forall a, b :: f(a, b).requiresModifier.Some? ==> f(a, b).requiresModifier == Some("-25")
  }

  lemma AsksMinus25()
    ensures OnlyMinus25(CheckBillingCompatibility)
  {
    forall a, b ensures CheckBillingCompatibility(a, b).requiresModifier.Some? ==> CheckBillingCompatibility(a, b).requiresModifier == Some("-25") {
      ModifierExactlyForCriticalCareWithEm(a, b, true);
    }
  }

  /** `m` holds, all as -25, what the pairs before (i, j), in loop order, asked for. */
  ghost predicate Recorded(f: (string, string) -> BillingCompatibility, selected: seq<string>, i: int, j: int, m: map<string, string>)
  {
    && (forall code :: code in m <==> exists p, q :: (p < i || (p == i && q < j)) && Asks(f, selected, p, q, code))
    && (forall code :: code in m ==> m[code] == "-25")
  }

  /** The inner loop's body: the pair (i, j) records the modifier it asks for. */
  method RecordPair(f: (string, string) -> BillingCompatibility, selected: seq<string>, i: nat, j: nat, m: map<string, string>)
    returns (m': map<string, string>)
    requires OnlyMinus25(f)
    requires i < j < |selected| && Recorded(f, selected, i, j, m)
    ensures Recorded(f, selected, i, j + 1, m')
  {
    var c := f(selected[i], selected[j]);
    m' := m;
    if c.requiresModifier.Some? && c.modifierAppliesTo.Some? {
      m' := m'[c.modifierAppliesTo.value := c.requiresModifier.value];
    }
    forall code
      ensures code in m' <==> exists p, q :: (p < i || (p == i && q < j + 1)) && Asks(f, selected, p, q, code)
    {
      if code in m' && code !in m {
        assert Asks(f, selected, i, j, code);
      }
      if Asks(f, selected, i, j, code) {
        assert code in m';
      }
    }
  }

  /** A finished row is the start of the next one. */
  lemma NextRow(f: (string, string) -> BillingCompatibility, selected: seq<string>, i: nat, m: map<string, string>)
    requires i < |selected| && Recorded(f, selected, i, |selected|, m)
    ensures Recorded(f, selected, i + 1, i + 2, m)
  {
    forall code | code in m
      ensures exists p, q :: (p < i + 1 || (p == i + 1 && q < i + 2)) && Asks(f, selected, p, q, code)
    {
      var p, q :| (p < i || (p == i && q < |selected|)) && Asks(f, selected, p, q, code);
      assert p < i + 1;
    }
  }

  /** `formatCodeWithModifier`: the modifier, when there is one, is appended to the code. */
  function FormatCodeWithModifier(code: string, modifier: Option<string>): (r: string)
    ensures modifier.None? ==> r == code
    ensures modifier.Some? ==> |r| == |code| + |modifier.value| && r[..|code|] == code && r[|code|..] == modifier.value
  {
    match modifier
    case None => code
    case Some(m) => code + m
  }

  // ==================================================================== encounter lists

  /** The entries that may be billed at any encounter, in order. */
  function WithoutInitial(es: seq<InpatientCode>): (r: seq<InpatientCode>)
    ensures forall e :: e in r <==> e in es && !e.isInitialEncounter
    ensures |r| <= |es|
  {
    if |es| == 0 then []
    else if es[0].isInitialEncounter then WithoutInitial(es[1..])
    else [es[0]] + WithoutInitial(es[1..])
  }

  /** `getSubsequentEncounterCodes`: call coverage sees the whole catalogue, otherwise the first-encounter codes are hidden. */
  function GetSubsequentEncounterCodes(isCallCoverage: bool): (r: seq<InpatientCode>)
    ensures isCallCoverage ==> r == AllInpatientCodes()
    ensures !isCallCoverage ==> forall e :: e in r <==> e in AllInpatientCodes() && !e.isInitialEncounter
  {
    if isCallCoverage then AllInpatientCodes() else WithoutInitial(AllInpatientCodes())
  }
}
