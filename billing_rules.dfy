/** Cath-lab billing rules evaluated over a billing context (src/data/billingRules.ts). */
module BillingRules {
  import opened Text

  datatype Severity = Error | Warning | Suggestion

  /** A selected code and the coronary vessel it was assigned to, if any. */
  datatype CodeEntry = CodeEntry(code: string, vessel: Option<string>)

  datatype BillingContext = BillingContext(allCodes: seq<CodeEntry>, indication: Option<string>)

  /** A one-click correction: codes to remove and optionally a code to add. */
  datatype FixOption = FixOption(caption: string, codesToRemove: seq<string>, codeToAdd: Option<string>)

  /** A fired rule. The human-readable message and suggestion text are not modelled. */
  datatype RuleViolation = RuleViolation(
    ruleId: string,
    severity: Severity,
    affectedCodes: seq<string>,
    canOverride: bool,
    fixOptions: Option<seq<FixOption>>)

  // ==================================================================== context

  function CreateBillingContext(codes: seq<CodeEntry>, indication: Option<string>): (ctx: BillingContext)
    ensures ctx.allCodes == codes && ctx.indication == indication
  {
    BillingContext(codes, indication)
  }

  /** `hasCode`: some entry carries the code. */
  predicate HasCode(ctx: BillingContext, code: string)
  {
    exists i :: 0 <= i < |ctx.allCodes| && ctx.allCodes[i].code == code
  }

  /** The first entry carrying a code (`find`). */
  function FindEntry(entries: seq<CodeEntry>, code: string): (r: Option<CodeEntry>)
    ensures r.None? <==> forall i :: 0 <= i < |entries| ==> entries[i].code != code
    ensures r.Some? ==> exists i :: 0 <= i < |entries| && entries[i] == r.value && r.value.code == code
                                    && forall j :: 0 <= j < i ==> entries[j].code != code
  {
    if |entries| == 0 then None
    else if entries[0].code == code then Some(entries[0])
    else
      var r := FindEntry(entries[1..], code);
      assert r.Some? ==> exists i :: 0 <= i < |entries| && entries[i] == r.value && r.value.code == code
                                     && forall j :: 0 <= j < i ==> entries[j].code != code by {
        if r.Some? {
          var i :| 0 <= i < |entries[1..]| && entries[1..][i] == r.value && r.value.code == code
                   && forall j :: 0 <= j < i ==> entries[1..][j].code != code;
          assert forall j :: 0 <= j < i + 1 ==> entries[j].code != code by {
            forall j | 0 <= j < i + 1 ensures entries[j].code != code {
              if j > 0 { assert entries[j] == entries[1..][j - 1]; }
            }
          }
        }
      }
      r
  }

  /** `getCodeVessel`: the vessel of the first entry with the code. */
  function GetCodeVessel(ctx: BillingContext, code: string): Option<string>
  {
    match FindEntry(ctx.allCodes, code)
    case None => None
    case Some(e) => e.vessel
  }

  /** `getCodesInVessel`: the codes assigned to a vessel, in entry order. */
  function GetCodesInVessel(entries: seq<CodeEntry>, vessel: string): (r: seq<string>)
    ensures forall c :: c in r <==> CodeEntry(c, Some(vessel)) in entries
  {
    if |entries| == 0 then []
    else
      assert forall e :: e in entries <==> e == entries[0] || e in entries[1..] by {
        assert entries == [entries[0]] + entries[1..];
      }
      (if entries[0].vessel == Some(vessel) then [entries[0].code] else []) + GetCodesInVessel(entries[1..], vessel)
  }

  /** `hasCode` and `getCodeVessel` agree with the entries they were built from. */
  lemma ContextLookups(codes: seq<CodeEntry>, indication: Option<string>, code: string)
    ensures HasCode(CreateBillingContext(codes, indication), code) <==> exists e :: e in codes && e.code == code
    ensures forall i :: FirstWithCode(codes, code, i) ==>
      GetCodeVessel(CreateBillingContext(codes, indication), code) == codes[i].vessel
  {
    var r := FindEntry(codes, code);
    forall i | FirstWithCode(codes, code, i)
      ensures GetCodeVessel(CreateBillingContext(codes, indication), code) == codes[i].vessel
    {
      var k :| 0 <= k < |codes| && codes[k] == r.value && r.value.code == code
               && forall j :: 0 <= j < k ==> codes[j].code != code;
      assert k == i;
    }
  }

  /** Entry `i` is the first entry carrying the code. */
  predicate FirstWithCode(entries: seq<CodeEntry>, code: string, i: int)
  {
    0 <= i < |entries| && entries[i].code == code && forall j :: 0 <= j < i ==> entries[j].code != code
  }

  /** A vessel that JavaScript treats as present: defined and non-empty. */
  predicate Truthy(v: Option<string>)
  {
    v.Some? && v.value != ""
  }

  /** The listed codes that are selected, in list order. */
  function Present(ctx: BillingContext, codes: seq<string>): (r: seq<string>)
    ensures forall c :: c in r <==> c in codes && HasCode(ctx, c)
    ensures |r| <= |codes|
  {
    if |codes| == 0 then []
    else (if HasCode(ctx, codes[0]) then [codes[0]] else []) + Present(ctx, codes[1..])
  }

  predicate HasAny(ctx: BillingContext, codes: seq<string>)
  {
    exists c :: c in codes && HasCode(ctx, c)
  }

  // ==================================================================== code lists

  const BasePciCodes: seq<string> :=
    ["92920", "92924", "92928", "92930", "92933", "92937", "92941", "92943", "92945"]
  const DcbBasePciCodes: seq<string> := ["92920", "92924", "92928", "92930", "92933"]
  const DcbCodes: seq<string> := ["0913T", "0914T"]
  const DcbImagingCodes: seq<string> := ["92978", "92979", "0523T", "0524T"]
  const RightHeartCodes: seq<string> := ["93453", "93456", "93457", "93460", "93461"]
  const LeftHeartCodes: seq<string> := ["93453", "93455", "93457", "93458", "93459", "93460", "93461"]
  const CoronaryAngioCodes: seq<string> := ["93454", "93455", "93456", "93457", "93458", "93459", "93460", "93461"]
  const IncludesLeftHeart: seq<string> := ["93455", "93457", "93458", "93459", "93460", "93461"]
  const IncludesRightHeart: seq<string> := ["93456", "93457", "93460", "93461"]

  // ==================================================================== the rules

  datatype RuleKind =
    | PtcaStentSameVessel | PtcaAtherectomySameVessel | AtherectomyStentSameVessel | CtoCodesExclusive
    | IvlRequiresPci | ThrombectomyRequiresPci | IvusAdditionalRequiresInitial | FfrAdditionalRequiresInitial
    | DcbAddonRequiresBase | DcbIvusBundled | MissingVesselModifier
    | RightHeartCathOverlap | LeftHeartCathOverlap | CombinedHeartCathOverlap
    | CoronaryAngioExclusive | CoronaryAngioWithStandaloneCath
    | DiagnosticPciModifier | DuplicatePciSameVessel

  /** The rule at each position of the evaluation order. */
  function RuleAt(i: nat): RuleKind
    requires i < 18
  {
    if i == 0 then PtcaStentSameVessel else if i == 1 then PtcaAtherectomySameVessel
    else if i == 2 then AtherectomyStentSameVessel else if i == 3 then CtoCodesExclusive
    else if i == 4 then IvlRequiresPci else if i == 5 then ThrombectomyRequiresPci
    else if i == 6 then IvusAdditionalRequiresInitial else if i == 7 then FfrAdditionalRequiresInitial
    else if i == 8 then DcbAddonRequiresBase else if i == 9 then DcbIvusBundled
    else if i == 10 then MissingVesselModifier else if i == 11 then RightHeartCathOverlap
    else if i == 12 then LeftHeartCathOverlap else if i == 13 then CombinedHeartCathOverlap
    else if i == 14 then CoronaryAngioExclusive else if i == 15 then CoronaryAngioWithStandaloneCath
    else if i == 16 then DiagnosticPciModifier else DuplicatePciSameVessel
  }

  /** The position of a rule in the evaluation order. */
  function PositionOf(k: RuleKind): (i: nat)
    ensures i < 18 && RuleAt(i) == k
  {
    match k
    case PtcaStentSameVessel => 0
    case PtcaAtherectomySameVessel => 1
    case AtherectomyStentSameVessel => 2
    case CtoCodesExclusive => 3
    case IvlRequiresPci => 4
    case ThrombectomyRequiresPci => 5
    case IvusAdditionalRequiresInitial => 6
    case FfrAdditionalRequiresInitial => 7
    case DcbAddonRequiresBase => 8
    case DcbIvusBundled => 9
    case MissingVesselModifier => 10
    case RightHeartCathOverlap => 11
    case LeftHeartCathOverlap => 12
    case CombinedHeartCathOverlap => 13
    case CoronaryAngioExclusive => 14
    case CoronaryAngioWithStandaloneCath => 15
    case DiagnosticPciModifier => 16
    case DuplicatePciSameVessel => 17
  }

  /** The rules in evaluation order. */
  const AllRules: seq<RuleKind> := [
    PtcaStentSameVessel, PtcaAtherectomySameVessel, AtherectomyStentSameVessel, CtoCodesExclusive,
    IvlRequiresPci, ThrombectomyRequiresPci, IvusAdditionalRequiresInitial, FfrAdditionalRequiresInitial,
    DcbAddonRequiresBase, DcbIvusBundled, MissingVesselModifier,
    RightHeartCathOverlap, LeftHeartCathOverlap, CombinedHeartCathOverlap,
    CoronaryAngioExclusive, CoronaryAngioWithStandaloneCath,
    DiagnosticPciModifier, DuplicatePciSameVessel
  ]

  /** The list holds each rule at its position. */
  lemma AllRulesAt()
    ensures |AllRules| == 18 && forall i :: 0 <= i < 18 ==> AllRules[i] == RuleAt(i)
  {
  }

  function RuleIdOf(k: RuleKind): string
  {
    match k
    case PtcaStentSameVessel => "ptca-stent-same-vessel"
    case PtcaAtherectomySameVessel => "ptca-atherectomy-same-vessel"
    case AtherectomyStentSameVessel => "atherectomy-stent-same-vessel"
    case CtoCodesExclusive => "cto-codes-exclusive"
    case IvlRequiresPci => "ivl-requires-pci"
    case ThrombectomyRequiresPci => "thrombectomy-requires-pci"
    case IvusAdditionalRequiresInitial => "ivus-additional-requires-initial"
    case FfrAdditionalRequiresInitial => "ffr-additional-requires-initial"
    case DcbAddonRequiresBase => "dcb-addon-requires-base"
    case DcbIvusBundled => "dcb-ivus-bundled"
    case MissingVesselModifier => "missing-vessel-modifier"
    case RightHeartCathOverlap => "right-heart-cath-overlap"
    case LeftHeartCathOverlap => "left-heart-cath-overlap"
    case CombinedHeartCathOverlap => "combined-heart-cath-overlap"
    case CoronaryAngioExclusive => "coronary-angio-exclusive"
    case CoronaryAngioWithStandaloneCath => "coronary-angio-with-standalone-cath"
    case DiagnosticPciModifier => "diagnostic-pci-modifier"
    case DuplicatePciSameVessel => "duplicate-pci-same-vessel"
  }

  function RuleSeverity(k: RuleKind): Severity
  {
    if k == DiagnosticPciModifier || k == DuplicatePciSameVessel then Warning else Error
  }

  /** A violation of rule `k`: its id and severity, override only for warnings, and at least one affected code. */
  predicate ViolationOfRule(v: RuleViolation, k: RuleKind)
  {
    v.ruleId == RuleIdOf(k) && v.severity == RuleSeverity(k)
    && (v.canOverride <==> v.severity == Warning) && |v.affectedCodes| > 0
  }

  /** Two codes carry the same non-empty vessel (first entry of each code). */
  predicate SameVessel(ctx: BillingContext, a: string, b: string)
  {
    var ea := FindEntry(ctx.allCodes, a);
    var eb := FindEntry(ctx.allCodes, b);
    ea.Some? && eb.Some? && Truthy(ea.value.vessel) && Truthy(eb.value.vessel) && ea.value.vessel == eb.value.vessel
  }

  function CheckPtcaStentSameVessel(ctx: BillingContext): (r: Option<RuleViolation>)
    ensures r.Some? ==> ViolationOfRule(r.value, PtcaStentSameVessel)
  {
    if SameVessel(ctx, "92920", "92928") then
      Some(RuleViolation(RuleIdOf(PtcaStentSameVessel), Error, ["92920", "92928"], false,
        Some([FixOption("Keep 92928 (Stent)", ["92920"], None), FixOption("Keep 92920 (PTCA)", ["92928"], None)])))
    else None
  }

  function CheckPtcaAtherectomySameVessel(ctx: BillingContext): (r: Option<RuleViolation>)
    ensures r.Some? ==> ViolationOfRule(r.value, PtcaAtherectomySameVessel)
  {
    if SameVessel(ctx, "92920", "92924") then
      Some(RuleViolation(RuleIdOf(PtcaAtherectomySameVessel), Error, ["92920", "92924"], false,
        Some([FixOption("Keep 92924 (Atherectomy)", ["92920"], None), FixOption("Keep 92920 (PTCA)", ["92924"], None)])))
    else None
  }

  function CheckAtherectomyStentSameVessel(ctx: BillingContext): (r: Option<RuleViolation>)
    ensures r.Some? ==> ViolationOfRule(r.value, AtherectomyStentSameVessel)
  {
    if SameVessel(ctx, "92924", "92928") then
      Some(RuleViolation(RuleIdOf(AtherectomyStentSameVessel), Error, ["92924", "92928"], false,
        Some([FixOption("Use 92933 (Combined)", ["92924", "92928"], Some("92933")),
              FixOption("Keep 92928 only", ["92924"], None),
              FixOption("Keep 92924 only", ["92928"], None)])))
    else None
  }

  function CheckCtoCodesExclusive(ctx: BillingContext): (r: Option<RuleViolation>)
    ensures r.Some? ==> ViolationOfRule(r.value, CtoCodesExclusive)
  {
    if HasCode(ctx, "92943") && HasCode(ctx, "92945") then
      Some(RuleViolation(RuleIdOf(CtoCodesExclusive), Error, ["92943", "92945"], false,
        Some([FixOption("Keep 92943 (Antegrade only)", ["92945"], None),
              FixOption("Keep 92945 (Combined approach)", ["92943"], None)])))
    else None
  }

  function CheckIvlRequiresPci(ctx: BillingContext): (r: Option<RuleViolation>)
    ensures r.Some? ==> ViolationOfRule(r.value, IvlRequiresPci)
  {
    if HasCode(ctx, "92972") && !HasAny(ctx, BasePciCodes) then
      Some(RuleViolation(RuleIdOf(IvlRequiresPci), Error, ["92972"], false, None))
    else None
  }

  function CheckThrombectomyRequiresPci(ctx: BillingContext): (r: Option<RuleViolation>)
    ensures r.Some? ==> ViolationOfRule(r.value, ThrombectomyRequiresPci)
  {
    if HasCode(ctx, "92973") && !HasAny(ctx, BasePciCodes) then
      Some(RuleViolation(RuleIdOf(ThrombectomyRequiresPci), Error, ["92973"], false, None))
    else None
  }

  function CheckIvusAdditionalRequiresInitial(ctx: BillingContext): (r: Option<RuleViolation>)
    ensures r.Some? ==> ViolationOfRule(r.value, IvusAdditionalRequiresInitial)
  {
    if HasCode(ctx, "92979") && !HasCode(ctx, "92978") then
      Some(RuleViolation(RuleIdOf(IvusAdditionalRequiresInitial), Error, ["92979"], false, None))
    else None
  }

  function CheckFfrAdditionalRequiresInitial(ctx: BillingContext): (r: Option<RuleViolation>)
    ensures r.Some? ==> ViolationOfRule(r.value, FfrAdditionalRequiresInitial)
  {
    if HasCode(ctx, "93572") && !HasCode(ctx, "93571") then
      Some(RuleViolation(RuleIdOf(FfrAdditionalRequiresInitial), Error, ["93572"], false, None))
    else None
  }

  function CheckDcbAddonRequiresBase(ctx: BillingContext): (r: Option<RuleViolation>)
    ensures r.Some? ==> ViolationOfRule(r.value, DcbAddonRequiresBase)
  {
    if HasCode(ctx, "0914T") && !HasAny(ctx, DcbBasePciCodes) then
      Some(RuleViolation(RuleIdOf(DcbAddonRequiresBase), Error, ["0914T"], false, None))
    else None
  }

  function CheckDcbIvusBundled(ctx: BillingContext): (r: Option<RuleViolation>)
    ensures r.Some? ==> ViolationOfRule(r.value, DcbIvusBundled)
  {
    var imaging := Present(ctx, DcbImagingCodes);
    if HasAny(ctx, DcbCodes) && |imaging| > 0 then
      Some(RuleViolation(RuleIdOf(DcbIvusBundled), Error, imaging, false,
        Some([FixOption("Remove imaging codes", imaging, None)])))
    else None
  }

  /** A PCI base-code entry without a vessel. */
  predicate LacksVessel(e: CodeEntry)
  {
    e.code in BasePciCodes && !Truthy(e.vessel)
  }

  /** The PCI base-code entries that have no vessel, in entry order. */
  function MissingVesselCodes(entries: seq<CodeEntry>): (r: seq<string>)
    ensures forall c :: c in r <==> exists e :: e in entries && e.code == c && LacksVessel(e)
    ensures |r| <= |entries|
  {
    if |entries| == 0 then []
    else
      assert forall e :: e in entries <==> e == entries[0] || e in entries[1..] by {
        assert entries == [entries[0]] + entries[1..];
      }
      (if LacksVessel(entries[0]) then [entries[0].code] else []) + MissingVesselCodes(entries[1..])
  }

  function CheckMissingVesselModifier(ctx: BillingContext): (r: Option<RuleViolation>)
    ensures r.Some? ==> ViolationOfRule(r.value, MissingVesselModifier)
  {
    var missing := MissingVesselCodes(ctx.allCodes);
    if |missing| > 0 then
      Some(RuleViolation(RuleIdOf(MissingVesselModifier), Error, missing, false, None))
    else None
  }

  function CheckRightHeartCathOverlap(ctx: BillingContext): (r: Option<RuleViolation>)
    ensures r.Some? ==> ViolationOfRule(r.value, RightHeartCathOverlap)
  {
    var conflicts := Present(ctx, RightHeartCodes);
    if HasCode(ctx, "93451") && |conflicts| > 0 then
      Some(RuleViolation(RuleIdOf(RightHeartCathOverlap), Error, ["93451"] + conflicts, false,
        Some([FixOption("Keep " + conflicts[0] + " (includes R heart)", ["93451"], None),
              FixOption("Keep 93451 only", conflicts, None)])))
    else None
  }

  function CheckLeftHeartCathOverlap(ctx: BillingContext): (r: Option<RuleViolation>)
    ensures r.Some? ==> ViolationOfRule(r.value, LeftHeartCathOverlap)
  {
    var conflicts := Present(ctx, LeftHeartCodes);
    if HasCode(ctx, "93452") && |conflicts| > 0 then
      Some(RuleViolation(RuleIdOf(LeftHeartCathOverlap), Error, ["93452"] + conflicts, false,
        Some([FixOption("Keep " + conflicts[0] + " (includes L heart)", ["93452"], None),
              FixOption("Keep 93452 only", conflicts, None)])))
    else None
  }

  function CheckCombinedHeartCathOverlap(ctx: BillingContext): (r: Option<RuleViolation>)
    ensures r.Some? ==> ViolationOfRule(r.value, CombinedHeartCathOverlap)
  {
    var conflicts := Present(ctx, ["93451", "93452"]);
    if HasCode(ctx, "93453") && |conflicts| > 0 then
      Some(RuleViolation(RuleIdOf(CombinedHeartCathOverlap), Error, ["93453"] + conflicts, false,
        Some([FixOption("Keep 93453 (combined)", conflicts, None)])))
    else None
  }

  /** Every element of `s` except `x`, in order. */
  function Without(s: seq<string>, x: string): (r: seq<string>)
    ensures forall c :: c in r <==> c in s && c != x
  {
    if |s| == 0 then [] else (if s[0] != x then [s[0]] else []) + Without(s[1..], x)
  }

  /** One "keep only this code" option per code, each removing all the others. */
  function KeepOneOptions(codes: seq<string>, all: seq<string>): (r: seq<FixOption>)
    ensures |r| == |codes|
    ensures forall i :: 0 <= i < |codes| ==> r[i] == FixOption("Keep " + codes[i] + " only", Without(all, codes[i]), None)
  {
    if |codes| == 0 then []
    else [FixOption("Keep " + codes[0] + " only", Without(all, codes[0]), None)] + KeepOneOptions(codes[1..], all)
  }

  function Reverse<T>(s: seq<T>): (r: seq<T>)
    ensures |r| == |s| && forall i :: 0 <= i < |s| ==> r[i] == s[|s| - 1 - i]
  {
    if |s| == 0 then [] else Reverse(s[1..]) + [s[0]]
  }

  /**
   * More than one coronary angiography code. The selected codes are listed from the highest
   * code down, because the ascending list is sorted and reversed in place before it is used.
   */
  function CheckCoronaryAngioExclusive(ctx: BillingContext): (r: Option<RuleViolation>)
    ensures r.Some? ==> ViolationOfRule(r.value, CoronaryAngioExclusive)
  {
    var selected := Reverse(Present(ctx, CoronaryAngioCodes));
    if |selected| > 1 then
      Some(RuleViolation(RuleIdOf(CoronaryAngioExclusive), Error, selected, false, Some(KeepOneOptions(selected, selected))))
    else None
  }

  function CheckCoronaryAngioWithStandaloneCath(ctx: BillingContext): (r: Option<RuleViolation>)
    ensures r.Some? ==> ViolationOfRule(r.value, CoronaryAngioWithStandaloneCath)
  {
    var right := if HasCode(ctx, "93451") then Present(ctx, IncludesRightHeart) else [];
    var left := if HasCode(ctx, "93452") then Present(ctx, IncludesLeftHeart) else [];
    var affected :=
      (if |right| > 0 then ["93451"] + right else []) + (if |left| > 0 then ["93452"] + left else []);
    if |right| > 0 || |left| > 0 then
      Some(RuleViolation(RuleIdOf(CoronaryAngioWithStandaloneCath), Error, Dedup(affected), false, None))
    else None
  }

  function CheckDiagnosticPciModifier(ctx: BillingContext): (r: Option<RuleViolation>)
    ensures r.Some? ==> ViolationOfRule(r.value, DiagnosticPciModifier)
  {
    if HasAny(ctx, CoronaryAngioCodes) && HasAny(ctx, BasePciCodes) then
      Some(RuleViolation(RuleIdOf(DiagnosticPciModifier), Warning, Present(ctx, CoronaryAngioCodes), true, None))
    else None
  }

  /** The PCI base-code entries that carry a vessel, in entry order. */
  function PciWithVessels(entries: seq<CodeEntry>): (r: seq<CodeEntry>)
    ensures forall e :: e in r <==> e in entries && e.code in BasePciCodes && Truthy(e.vessel)
  {
    if |entries| == 0 then []
    else
      (if entries[0].code in BasePciCodes && Truthy(entries[0].vessel) then [entries[0]] else [])
      + PciWithVessels(entries[1..])
  }

  function CountVessel(entries: seq<CodeEntry>, v: Option<string>): nat
  {
    if |entries| == 0 then 0 else (if entries[0].vessel == v then 1 else 0) + CountVessel(entries[1..], v)
  }

  function CodesWithVessel(entries: seq<CodeEntry>, v: Option<string>): (r: seq<string>)
    ensures |r| == CountVessel(entries, v)
  {
    if |entries| == 0 then []
    else (if entries[0].vessel == v then [entries[0].code] else []) + CodesWithVessel(entries[1..], v)
  }

  /**
   * The first entry (from index `from`) whose vessel is shared with another entry. Its vessel is
   * the first vessel, in order of first appearance, that has more than one code.
   */
  function FirstSharedVessel(entries: seq<CodeEntry>, from: nat): (r: Option<nat>)
    requires from <= |entries|
    ensures r.Some? ==> from <= r.value < |entries| && CountVessel(entries, entries[r.value].vessel) > 1
    ensures r.Some? ==> forall j :: from <= j < r.value ==> CountVessel(entries, entries[j].vessel) <= 1
    ensures r.None? ==> forall j :: from <= j < |entries| ==> CountVessel(entries, entries[j].vessel) <= 1
    decreases |entries| - from
  {
    if from == |entries| then None
    else if CountVessel(entries, entries[from].vessel) > 1 then Some(from)
    else FirstSharedVessel(entries, from + 1)
  }

  function CheckDuplicatePciSameVessel(ctx: BillingContext): (r: Option<RuleViolation>)
    ensures r.Some? ==> ViolationOfRule(r.value, DuplicatePciSameVessel)
  {
    var withVessels := PciWithVessels(ctx.allCodes);
    var first := FirstSharedVessel(withVessels, 0);
    if first.Some? then
      var vessel := withVessels[first.value].vessel;
      var codes := CodesWithVessel(withVessels, vessel);
      Some(RuleViolation(RuleIdOf(DuplicatePciSameVessel), Warning, codes, true, None))
    else None
  }

  /** The outcome of one rule; a violation always carries the rule's id and severity, and only warnings can be overridden. */
  function Check(k: RuleKind, ctx: BillingContext): (r: Option<RuleViolation>)
    ensures r.Some? ==> ViolationOfRule(r.value, k)
  {
    match k
    case PtcaStentSameVessel => CheckPtcaStentSameVessel(ctx)
    case PtcaAtherectomySameVessel => CheckPtcaAtherectomySameVessel(ctx)
    case AtherectomyStentSameVessel => CheckAtherectomyStentSameVessel(ctx)
    case CtoCodesExclusive => CheckCtoCodesExclusive(ctx)
    case IvlRequiresPci => CheckIvlRequiresPci(ctx)
    case ThrombectomyRequiresPci => CheckThrombectomyRequiresPci(ctx)
    case IvusAdditionalRequiresInitial => CheckIvusAdditionalRequiresInitial(ctx)
    case FfrAdditionalRequiresInitial => CheckFfrAdditionalRequiresInitial(ctx)
    case DcbAddonRequiresBase => CheckDcbAddonRequiresBase(ctx)
    case DcbIvusBundled => CheckDcbIvusBundled(ctx)
    case MissingVesselModifier => CheckMissingVesselModifier(ctx)
    case RightHeartCathOverlap => CheckRightHeartCathOverlap(ctx)
    case LeftHeartCathOverlap => CheckLeftHeartCathOverlap(ctx)
    case CombinedHeartCathOverlap => CheckCombinedHeartCathOverlap(ctx)
    case CoronaryAngioExclusive => CheckCoronaryAngioExclusive(ctx)
    case CoronaryAngioWithStandaloneCath => CheckCoronaryAngioWithStandaloneCath(ctx)
    case DiagnosticPciModifier => CheckDiagnosticPciModifier(ctx)
    case DuplicatePciSameVessel => CheckDuplicatePciSameVessel(ctx)
  }

  /** The outcome of every rule, in rule order. */
  function Outcomes(ctx: BillingContext): (os: seq<Option<RuleViolation>>)
    ensures |os| == |AllRules|
    ensures forall i :: 0 <= i < |AllRules| ==> os[i] == Check(AllRules[i], ctx)
  {
    seq(|AllRules|, i requires 0 <= i < |AllRules| => Check(AllRules[i], ctx))
  }

  /** The violations of the rules that fire, in rule order. */
  function RunBillingRules(ctx: BillingContext): (vs: seq<RuleViolation>)
    ensures |vs| <= |AllRules|
  {
    Somes(Outcomes(ctx))
  }

  /** Violations appear in rule order: violation `i` is produced by the rule at position `idx[i]`, positions increasing. */
  lemma RunBillingRulesInOrder(ctx: BillingContext)
    ensures exists idx: seq<nat> :: IndexesOf(idx, Outcomes(ctx), RunBillingRules(ctx))
  {
    assert RunBillingRules(ctx) == Somes(Outcomes(ctx));
    SomesInOrder(Outcomes(ctx));
  }

  /** At most one violation per rule: no two violations share a rule id. */
  lemma RunBillingRulesDistinctIds(ctx: BillingContext)
    ensures forall i, j :: 0 <= i < j < |RunBillingRules(ctx)| ==>
      RunBillingRules(ctx)[i].ruleId != RunBillingRules(ctx)[j].ruleId
  {
    var os := Outcomes(ctx);
    var vs := RunBillingRules(ctx);
    RunBillingRulesInOrder(ctx);
    var idx: seq<nat> :| IndexesOf(idx, os, vs);
    AllRulesDistinct();
    forall i, j | 0 <= i < j < |vs| ensures vs[i].ruleId != vs[j].ruleId {
      var ki := AllRules[idx[i]];
      var kj := AllRules[idx[j]];
      assert Check(ki, ctx) == Some(vs[i]) && Check(kj, ctx) == Some(vs[j]);
      assert ki != kj;
      RuleIdsDistinct(ki, kj);
    }
  }

  /** A violation is reported exactly when some rule produces it. */
  lemma RunBillingRulesMembers(ctx: BillingContext, v: RuleViolation)
    ensures v in RunBillingRules(ctx) <==> exists i :: 0 <= i < |AllRules| && Check(AllRules[i], ctx) == Some(v)
  {
    var os := Outcomes(ctx);
    assert RunBillingRules(ctx) == Somes(os);
    assert Some(v) in os <==> exists i :: 0 <= i < |os| && os[i] == Some(v);
  }

  /** Each rule occupies exactly one position. */
  lemma PositionRoundTrip(i: nat)
    requires i < 18
    ensures PositionOf(RuleAt(i)) == i
  {
  }

  lemma AllRulesDistinct()
    ensures NoDup(AllRules)
  {
    AllRulesAt();
    forall i, j | 0 <= i < j < |AllRules| ensures AllRules[i] != AllRules[j] {
      PositionRoundTrip(i);
      PositionRoundTrip(j);
    }
  }

  /** Every rule kind is in the rule list. */
  lemma AllRulesComplete(k: RuleKind)
    ensures k in AllRules
  {
    AllRulesAt();
    assert AllRules[PositionOf(k)] == k;
  }

  /** Rule ids are distinct, so a rule id identifies the violation's rule. */
  lemma RuleIdsDistinct(k1: RuleKind, k2: RuleKind)
    ensures RuleIdOf(k1) == RuleIdOf(k2) <==> k1 == k2
  {
    SignatureOfId(k1);
    SignatureOfId(k2);
    SignatureInjective(k1, k2);
  }

  /** An id's length and third character, which already tell the rules apart. */
  function Signature(k: RuleKind): (nat, char)
  {
    match k
    case PtcaStentSameVessel => (22, 'c')
    case PtcaAtherectomySameVessel => (28, 'c')
    case AtherectomyStentSameVessel => (29, 'h')
    case CtoCodesExclusive => (19, 'o')
    case IvlRequiresPci => (16, 'l')
    case ThrombectomyRequiresPci => (25, 'r')
    case IvusAdditionalRequiresInitial => (32, 'u')
    case FfrAdditionalRequiresInitial => (31, 'r')
    case DcbAddonRequiresBase => (23, 'b')
    case DcbIvusBundled => (16, 'b')
    case MissingVesselModifier => (23, 's')
    case RightHeartCathOverlap => (24, 'g')
    case LeftHeartCathOverlap => (23, 'f')
    case CombinedHeartCathOverlap => (27, 'm')
    case CoronaryAngioExclusive => (24, 'r')
    case CoronaryAngioWithStandaloneCath => (35, 'r')
    case DiagnosticPciModifier => (23, 'a')
    case DuplicatePciSameVessel => (25, 'p')
  }

  lemma SignatureOfId(k: RuleKind)
    ensures |RuleIdOf(k)| > 2 && Signature(k) == (|RuleIdOf(k)|, RuleIdOf(k)[2])
  {
    var i := PositionOf(k);
    if i < 3 {
      SignatureOfIdsA(k);
    } else if i < 6 {
      SignatureOfIdsB(k);
    } else if i < 9 {
      SignatureOfIdsC(k);
    } else if i < 12 {
      SignatureOfIdsD(k);
    } else if i < 15 {
      SignatureOfIdsE(k);
    } else {
      SignatureOfIdsF(k);
    }
  }

  lemma SignatureOfIdsA(k: RuleKind)
    requires PositionOf(k) < 3
    ensures |RuleIdOf(k)| > 2 && Signature(k) == (|RuleIdOf(k)|, RuleIdOf(k)[2])
  {
  }

  lemma SignatureOfIdsB(k: RuleKind)
    requires 3 <= PositionOf(k) < 6
    ensures |RuleIdOf(k)| > 2 && Signature(k) == (|RuleIdOf(k)|, RuleIdOf(k)[2])
  {
  }

  lemma SignatureOfIdsC(k: RuleKind)
    requires 6 <= PositionOf(k) < 9
    ensures |RuleIdOf(k)| > 2 && Signature(k) == (|RuleIdOf(k)|, RuleIdOf(k)[2])
  {
  }

  lemma SignatureOfIdsD(k: RuleKind)
    requires 9 <= PositionOf(k) < 12
    ensures |RuleIdOf(k)| > 2 && Signature(k) == (|RuleIdOf(k)|, RuleIdOf(k)[2])
  {
  }

  lemma SignatureOfIdsE(k: RuleKind)
    requires 12 <= PositionOf(k) < 15
    ensures |RuleIdOf(k)| > 2 && Signature(k) == (|RuleIdOf(k)|, RuleIdOf(k)[2])
  {
  }

  lemma SignatureOfIdsF(k: RuleKind)
    requires 15 <= PositionOf(k)
    ensures |RuleIdOf(k)| > 2 && Signature(k) == (|RuleIdOf(k)|, RuleIdOf(k)[2])
  {
  }

  lemma SignatureInjective(k1: RuleKind, k2: RuleKind)
    ensures Signature(k1) == Signature(k2) ==> k1 == k2
  {
  }

  /** Looks a rule up by id. */
  function GetRule(id: string): (r: Option<RuleKind>)
    ensures r.Some? ==> RuleIdOf(r.value) == id
    ensures r.None? ==> forall i :: 0 <= i < |AllRules| ==> RuleIdOf(AllRules[i]) != id
  {
    FindRule(AllRules, id)
  }

  /** Looking a rule up by its own id finds it; an id of no rule finds nothing. */
  lemma GetRuleById(k: RuleKind, id: string)
    ensures GetRule(RuleIdOf(k)) == Some(k)
    ensures (forall k' :: RuleIdOf(k') != id) ==> GetRule(id).None?
  {
    AllRulesComplete(k);
    var i :| 0 <= i < |AllRules| && AllRules[i] == k;
    assert RuleIdOf(AllRules[i]) == RuleIdOf(k);
    var r := GetRule(RuleIdOf(k));
    RuleIdsDistinct(r.value, k);
  }

  function FindRule(rules: seq<RuleKind>, id: string): (r: Option<RuleKind>)
    ensures r.Some? ==> RuleIdOf(r.value) == id && r.value in rules
    ensures r.None? ==> forall i :: 0 <= i < |rules| ==> RuleIdOf(rules[i]) != id
  {
    if |rules| == 0 then None
    else if RuleIdOf(rules[0]) == id then Some(rules[0])
    else FindRule(rules[1..], id)
  }

  // ==================================================================== rule properties

  /** cto-codes-exclusive fires exactly when both CTO codes are selected. */
  lemma CtoFiresIff(ctx: BillingContext)
    ensures CheckCtoCodesExclusive(ctx).Some? <==> HasCode(ctx, "92943") && HasCode(ctx, "92945")
  {
  }

  /** ptca-stent-same-vessel fires exactly when 92920 and 92928 (first entries) carry the same non-empty vessel. */
  lemma PtcaStentFiresIff(ctx: BillingContext)
    ensures CheckPtcaStentSameVessel(ctx).Some? <==>
      var p := FindEntry(ctx.allCodes, "92920");
      var s := FindEntry(ctx.allCodes, "92928");
      p.Some? && s.Some? && Truthy(p.value.vessel) && Truthy(s.value.vessel) && p.value.vessel == s.value.vessel
  {
  }

  /** missing-vessel-modifier fires exactly when some PCI base entry lacks a vessel; it lists exactly those codes. */
  lemma MissingVesselFiresIff(ctx: BillingContext)
    ensures CheckMissingVesselModifier(ctx).Some? <==> exists e :: e in ctx.allCodes && LacksVessel(e)
    ensures CheckMissingVesselModifier(ctx).Some? ==>
      forall c :: c in CheckMissingVesselModifier(ctx).value.affectedCodes <==>
        exists e :: e in ctx.allCodes && e.code == c && LacksVessel(e)
  {
    var m := MissingVesselCodes(ctx.allCodes);
    if exists e :: e in ctx.allCodes && LacksVessel(e) {
      var e :| e in ctx.allCodes && LacksVessel(e);
      assert e.code in m;
    }
    if |m| > 0 {
      assert m[0] in m;
    }
  }

  /** Option `i` keeps code `i` and removes every other code. */
  ghost predicate KeepsOnlyEach(options: seq<FixOption>, codes: seq<string>)
  {
    |options| == |codes|
    && forall i :: 0 <= i < |codes| ==>
         forall c :: c in options[i].codesToRemove <==> c in codes && c != codes[i]
  }

  /**
   * coronary-angio-exclusive fires exactly when more than one code of 93454-93461 is selected;
   * it then offers one option per selected code, removing every other selected code.
   */
  lemma CoronaryAngioOptions(ctx: BillingContext)
    ensures var selected := Present(ctx, CoronaryAngioCodes);
      CheckCoronaryAngioExclusive(ctx).Some? <==> |selected| > 1
    ensures var v := CheckCoronaryAngioExclusive(ctx);
      v.Some? ==> v.value.fixOptions.Some? && KeepsOnlyEach(v.value.fixOptions.value, v.value.affectedCodes)
  {
  }

  /**
   * The additional-vessel IVUS (FFR) rule fires exactly when 92979 (93572)
   * is selected without 92978 (93571), as an error naming that code alone.
   */
  lemma AdditionalVesselNeedsInitial(ctx: BillingContext)
    ensures CheckIvusAdditionalRequiresInitial(ctx).Some? <==> HasCode(ctx, "92979") && !HasCode(ctx, "92978")
    ensures CheckFfrAdditionalRequiresInitial(ctx).Some? <==> HasCode(ctx, "93572") && !HasCode(ctx, "93571")
    ensures CheckIvusAdditionalRequiresInitial(ctx).Some? ==>
      CheckIvusAdditionalRequiresInitial(ctx).value.severity == Error && CheckIvusAdditionalRequiresInitial(ctx).value.affectedCodes == ["92979"]
    ensures CheckFfrAdditionalRequiresInitial(ctx).Some? ==>
      CheckFfrAdditionalRequiresInitial(ctx).value.severity == Error && CheckFfrAdditionalRequiresInitial(ctx).value.affectedCodes == ["93572"]
  {
  }

  /** Some selected entry carries one of the listed codes: `some(c => hasCode(c))`, and a non-empty `filter(hasCode)`. */
  lemma SelectsAnyOf(ctx: BillingContext, codes: seq<string>)
    ensures HasAny(ctx, codes) <==> exists e :: e in ctx.allCodes && e.code in codes
    ensures |Present(ctx, codes)| > 0 <==> HasAny(ctx, codes)
  {
    if HasAny(ctx, codes) {
      var c :| c in codes && HasCode(ctx, c);
      assert c in Present(ctx, codes);
      var i :| 0 <= i < |ctx.allCodes| && ctx.allCodes[i].code == c;
      assert ctx.allCodes[i] in ctx.allCodes;
    }
    if exists e :: e in ctx.allCodes && e.code in codes {
      var e :| e in ctx.allCodes && e.code in codes;
      var i :| 0 <= i < |ctx.allCodes| && ctx.allCodes[i] == e;
      assert HasCode(ctx, e.code);
    }
    if |Present(ctx, codes)| > 0 {
      assert Present(ctx, codes)[0] in Present(ctx, codes);
    }
  }

  /** The atherectomy pairings fire exactly when their two codes (first entries) carry the same non-empty vessel. */
  lemma AtherectomyPairsFireIff(ctx: BillingContext)
    ensures CheckPtcaAtherectomySameVessel(ctx).Some? <==> SameVessel(ctx, "92920", "92924")
    ensures CheckAtherectomyStentSameVessel(ctx).Some? <==> SameVessel(ctx, "92924", "92928")
    ensures CheckAtherectomyStentSameVessel(ctx).Some? ==>
      FixOption("Use 92933 (Combined)", ["92924", "92928"], Some("92933")) in CheckAtherectomyStentSameVessel(ctx).value.fixOptions.value
  {
  }

  /** IVL is an add-on: an error, naming only 92972, exactly when no entry carries a PCI base code. */
  lemma IvlNeedsPci(ctx: BillingContext)
    ensures CheckIvlRequiresPci(ctx).Some? <==>
      HasCode(ctx, "92972") && !exists e :: e in ctx.allCodes && e.code in BasePciCodes
    ensures CheckIvlRequiresPci(ctx).Some? ==> CheckIvlRequiresPci(ctx).value.affectedCodes == ["92972"]
  {
    SelectsAnyOf(ctx, BasePciCodes);
  }

  /** Thrombectomy is an add-on: an error, naming only 92973, exactly when no entry carries a PCI base code. */
  lemma ThrombectomyNeedsPci(ctx: BillingContext)
    ensures CheckThrombectomyRequiresPci(ctx).Some? <==>
      HasCode(ctx, "92973") && !exists e :: e in ctx.allCodes && e.code in BasePciCodes
    ensures CheckThrombectomyRequiresPci(ctx).Some? ==> CheckThrombectomyRequiresPci(ctx).value.affectedCodes == ["92973"]
  {
    SelectsAnyOf(ctx, BasePciCodes);
  }

  /** The drug-coated balloon add-on 0914T is an error exactly when no entry carries a base PCI code of 92920-92933. */
  lemma DcbAddonFiresIff(ctx: BillingContext)
    ensures CheckDcbAddonRequiresBase(ctx).Some? <==>
      HasCode(ctx, "0914T") && !exists e :: e in ctx.allCodes && e.code in DcbBasePciCodes
  {
    SelectsAnyOf(ctx, DcbBasePciCodes);
  }

  /**
   * Imaging with a drug-coated balloon is bundled: an error exactly when entries carry both a
   * balloon code and an imaging code; it names exactly the selected imaging codes and its one
   * fix removes them.
   */
  lemma DcbImagingFiresIff(ctx: BillingContext)
    ensures CheckDcbIvusBundled(ctx).Some? <==>
      (exists e :: e in ctx.allCodes && e.code in DcbCodes) && exists e :: e in ctx.allCodes && e.code in DcbImagingCodes
    ensures var v := CheckDcbIvusBundled(ctx);
      v.Some? ==>
        (forall c :: c in v.value.affectedCodes <==> c in DcbImagingCodes && HasCode(ctx, c))
        && v.value.fixOptions == Some([FixOption("Remove imaging codes", v.value.affectedCodes, None)])
  {
    SelectsAnyOf(ctx, DcbCodes);
    SelectsAnyOf(ctx, DcbImagingCodes);
  }

  /**
   * The standalone right heart cath 93451 with a code that includes it is an error naming
   * 93451 and exactly the selected including codes; one fix keeps 93451 and removes those.
   */
  lemma RightHeartOverlapFiresIff(ctx: BillingContext)
    ensures CheckRightHeartCathOverlap(ctx).Some? <==>
      HasCode(ctx, "93451") && exists e :: e in ctx.allCodes && e.code in RightHeartCodes
    ensures var v := CheckRightHeartCathOverlap(ctx);
      v.Some? ==>
        v.value.affectedCodes == ["93451"] + Present(ctx, RightHeartCodes)
        && FixOption("Keep 93451 only", Present(ctx, RightHeartCodes), None) in v.value.fixOptions.value
  {
    SelectsAnyOf(ctx, RightHeartCodes);
  }

  /**
   * The standalone left heart cath 93452 with a code that includes it is an error naming
   * 93452 and exactly the selected including codes; one fix keeps 93452 and removes those.
   */
  lemma LeftHeartOverlapFiresIff(ctx: BillingContext)
    ensures CheckLeftHeartCathOverlap(ctx).Some? <==>
      HasCode(ctx, "93452") && exists e :: e in ctx.allCodes && e.code in LeftHeartCodes
    ensures var v := CheckLeftHeartCathOverlap(ctx);
      v.Some? ==>
        v.value.affectedCodes == ["93452"] + Present(ctx, LeftHeartCodes)
        && FixOption("Keep 93452 only", Present(ctx, LeftHeartCodes), None) in v.value.fixOptions.value
  {
    SelectsAnyOf(ctx, LeftHeartCodes);
  }

  /** The combined cath 93453 with a standalone right or left heart cath is an error; its one fix removes the standalone ones. */
  lemma CombinedCathOverlapFiresIff(ctx: BillingContext)
    ensures CheckCombinedHeartCathOverlap(ctx).Some? <==>
      HasCode(ctx, "93453") && (HasCode(ctx, "93451") || HasCode(ctx, "93452"))
    ensures var v := CheckCombinedHeartCathOverlap(ctx);
      v.Some? ==>
        v.value.fixOptions.Some? && |v.value.fixOptions.value| == 1
        && forall c :: c in v.value.fixOptions.value[0].codesToRemove <==> c in ["93451", "93452"] && HasCode(ctx, c)
  {
    var standalone := ["93451", "93452"];
    assert HasAny(ctx, standalone) <==> HasCode(ctx, "93451") || HasCode(ctx, "93452") by {
      if HasCode(ctx, "93451") {
        assert standalone[0] in standalone;
      }
      if HasCode(ctx, "93452") {
        assert standalone[1] in standalone;
      }
    }
    SelectsAnyOf(ctx, standalone);
  }

  /**
   * An angiography code that includes a right (left) heart cath, selected with the standalone
   * 93451 (93452), is an error.
   */
  lemma AngioWithStandaloneCathFiresIff(ctx: BillingContext)
    ensures CheckCoronaryAngioWithStandaloneCath(ctx).Some? <==>
      (HasCode(ctx, "93451") && exists e :: e in ctx.allCodes && e.code in IncludesRightHeart)
      || (HasCode(ctx, "93452") && exists e :: e in ctx.allCodes && e.code in IncludesLeftHeart)
  {
    SelectsAnyOf(ctx, IncludesRightHeart);
    SelectsAnyOf(ctx, IncludesLeftHeart);
  }

  /**
   * Diagnostic angiography with a PCI is a warning the user can override; it names exactly
   * the selected angiography codes.
   */
  lemma DiagnosticPciFiresIff(ctx: BillingContext)
    ensures CheckDiagnosticPciModifier(ctx).Some? <==>
      (exists e :: e in ctx.allCodes && e.code in CoronaryAngioCodes) && exists e :: e in ctx.allCodes && e.code in BasePciCodes
    ensures var v := CheckDiagnosticPciModifier(ctx);
      v.Some? ==>
        v.value.severity == Warning && v.value.canOverride
        && forall c :: c in v.value.affectedCodes <==> c in CoronaryAngioCodes && HasCode(ctx, c)
  {
    SelectsAnyOf(ctx, CoronaryAngioCodes);
    SelectsAnyOf(ctx, BasePciCodes);
  }
  /** A vessel counts more than once exactly when two different entries carry it. */
  lemma {:induction false} CountVesselTwice(entries: seq<CodeEntry>, v: Option<string>)
    ensures CountVessel(entries, v) > 1 <==>
      exists i, j :: 0 <= i < j < |entries| && entries[i].vessel == v && entries[j].vessel == v
  {
    if |entries| > 0 {
      var rest := entries[1..];
      CountVesselTwice(rest, v);
      CountVesselOnce(rest, v);
      if CountVessel(entries, v) > 1 {
        if entries[0].vessel == v {
          var j :| 0 <= j < |rest| && rest[j].vessel == v;
          assert entries[0].vessel == v && entries[j + 1].vessel == v;
        } else {
          var i, j :| 0 <= i < j < |rest| && rest[i].vessel == v && rest[j].vessel == v;
          assert entries[i + 1].vessel == v && entries[j + 1].vessel == v;
        }
      }
      if exists i, j :: 0 <= i < j < |entries| && entries[i].vessel == v && entries[j].vessel == v {
        var i, j :| 0 <= i < j < |entries| && entries[i].vessel == v && entries[j].vessel == v;
        assert rest[j - 1].vessel == v;
        if i > 0 {
          assert rest[i - 1].vessel == v;
        }
      }
    }
  }

  /** A vessel counts at least once exactly when some entry carries it. */
  lemma {:induction false} CountVesselOnce(entries: seq<CodeEntry>, v: Option<string>)
    ensures CountVessel(entries, v) > 0 <==> exists j :: 0 <= j < |entries| && entries[j].vessel == v
  {
    if |entries| > 0 {
      CountVesselOnce(entries[1..], v);
      if exists j :: 0 <= j < |entries| && entries[j].vessel == v {
        var j :| 0 <= j < |entries| && entries[j].vessel == v;
        if j > 0 {
          assert entries[1..][j - 1].vessel == v;
        }
      }
      if CountVessel(entries[1..], v) > 0 {
        var j :| 0 <= j < |entries[1..]| && entries[1..][j].vessel == v;
        assert entries[j + 1].vessel == v;
      }
    }
  }

  /** Some vessel is shared exactly when two different entries carry the same vessel; the shared vessel lists at least two codes. */
  lemma SharedVesselIff(w: seq<CodeEntry>)
    ensures FirstSharedVessel(w, 0).Some? <==> exists i, j :: 0 <= i < j < |w| && w[i].vessel == w[j].vessel
    ensures FirstSharedVessel(w, 0).Some? ==> |CodesWithVessel(w, w[FirstSharedVessel(w, 0).value].vessel)| > 1
  {
    var first := FirstSharedVessel(w, 0);
    if first.Some? {
      CountVesselTwice(w, w[first.value].vessel);
    }
    if exists i, j :: 0 <= i < j < |w| && w[i].vessel == w[j].vessel {
      var i, j :| 0 <= i < j < |w| && w[i].vessel == w[j].vessel;
      CountVesselTwice(w, w[i].vessel);
    }
  }

  /**
   * duplicate-pci-same-vessel warns exactly when two PCI base-code entries carry the same
   * non-empty vessel; it names one code per entry on that vessel, so at least two.
   */
  lemma DuplicatePciFiresIff(ctx: BillingContext)
    ensures var w := PciWithVessels(ctx.allCodes);
      CheckDuplicatePciSameVessel(ctx).Some? <==>
        exists i, j :: 0 <= i < j < |w| && w[i].vessel == w[j].vessel
    ensures var v := CheckDuplicatePciSameVessel(ctx);
      v.Some? ==> |v.value.affectedCodes| > 1 && v.value.canOverride
  {
    SharedVesselIff(PciWithVessels(ctx.allCodes));
  }
}
