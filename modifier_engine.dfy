/**
 * The modifier validation engine (src/services/modifierEngine.ts): the
 * within-charge rule pipeline, the cross-charge pass, the pre-billing scrub,
 * and the helpers that strip and apply modifiers. Warning and error texts
 * are modelled as structured `Issue` values naming the rule and the codes
 * the text mentions.
 */
module ModifierEngine {
  import opened Text
  import opened CodeDomains
  import opened ModifierDefinitions
  import opened CciEdits

  // ==================================================================== results

  datatype Confidence = Required | Recommended | Optional

  /** A modifier proposed for a code; the reason text is not modelled. */
  datatype Suggestion = Suggestion(
    code: string,
    modifier: string,
    confidence: Confidence,
    autoApplied: bool,
    ruleId: string)

  /** Which inclusion table a hierarchy finding comes from. */
  datatype InclusionTable = CatheterFamily | DiagnosticCathFamily | AblationFamily

  /** A warning or an error, by the rule that raised it and the codes its message names. */
  datatype Issue =
    | NcciBundled(column1: string, column2: string)
    | DiagCathPciDocumentation(code: string)
    | AddOnWithoutPrimary(code: string)
    | EchoExclusive(code1: string, code2: string)
    | CriticalCareBundled(code: string)
    | SedationInherent(code: string, procedures: seq<string>)
    | Included(table: InclusionTable, higher: string, lower: string)
    | SupervisionWithoutCatheter(code: string)
    | TerritoryMultiplePrimaries(territory: string, codes: seq<string>)
    | TerritoryAddOnWithoutPrimary(territory: string, codes: seq<string>)
    | PericardiocentesisDocumentation(code: string)
    | CategoryIII(code: string, payerNote: bool)
    | AngiographyExclusive(codes: seq<string>)
    | GeneratorWithDeNovo(generatorCodes: seq<string>, deNovoCodes: seq<string>)
    | CardioversionWithCath(code: string)
    | StructuralGenericTEE
    | StructuralWithoutTEE
    | SeparateChargeEmMayNeed25(emCode: string, procedures: seq<string>)
    | CrossChargeCci(column1: string, column2: string, component: string)
    | CrossChargeEchoExclusive(code1: string, code2: string)
    | GlobalPeriodEm(code: string, globalDays: nat, procedureCode: string, procedureDate: int)
    | GlobalPeriodProcedure(code: string, globalDays: nat, procedureCode: string, procedureDate: int)
    | DuplicateChargeRecords(code: string, count: nat)
    | HighChargeVolume(count: nat, date: int)

  datatype ValidationResult = ValidationResult(
    suggestions: seq<Suggestion>,
    warnings: seq<Issue>,
    errors: seq<Issue>,
    scrubbed: bool)

  // ==================================================================== modifier strings

  /**
   * `stripModifier`: the part before the first dash, when that dash is not
   * the first character and what follows it is a defined modifier.
   */
  function StripModifier(code: string): (r: string)
    ensures r == code || (0 < |r| < |code| && r == code[..|r|] && code[|r|] == '-' && '-' !in r && IsDefinedModifier(code[|r|..]))
  {
    match IndexOf(code, "-")
    case None => code
    case Some(k) =>
      if k > 0 && IsDefinedModifier(code[k..]) then
        assert OccursAt(code, "-", k);
        assert forall j :: 0 <= j < k ==> code[j] != '-' by {
          forall j | 0 <= j < k ensures code[j] != '-' {
            assert !OccursAt(code, "-", j);
            assert code[j..j + 1] == [code[j]];
          }
        }
        code[..k]
      else code
  }

  /**
   * `applyModifier`: the stripped code followed by the modifier, given a dash
   * when it has none. Applying a defined modifier to a dash-free code is
   * undone by `StripModifier`.
   */
  function ApplyModifier(code: string, modifier: string): (r: string)
    ensures |r| >= |NormalizeModifier(modifier)| && r[|r| - |NormalizeModifier(modifier)|..] == NormalizeModifier(modifier)
    ensures r[|r| - |NormalizeModifier(modifier)|] == '-'
    ensures |code| > 0 && '-' !in code && IsDefinedModifier(NormalizeModifier(modifier)) ==> StripModifier(r) == code
  {
    var m := NormalizeModifier(modifier);
    if |code| > 0 && '-' !in code && IsDefinedModifier(m) then
      StripModifierNoDash(code);
      FirstDashAt(code, m);
      StripModifier(code) + m
    else
      StripModifier(code) + m
  }

  /** A code with no dash is left as it is. */
  lemma StripModifierNoDash(code: string)
    requires '-' !in code
    ensures StripModifier(code) == code
  {
    if IndexOf(code, "-").Some? {
      var k := IndexOf(code, "-").value;
      assert code[k..k + 1] == "-";
      assert code[k] in code;
    }
  }

  /** The first dash of a dash-free code followed by a dashed suffix is where the suffix starts. */
  lemma FirstDashAt(code: string, suffix: string)
    requires '-' !in code && |suffix| > 0 && suffix[0] == '-'
    ensures IndexOf(code + suffix, "-") == Some(|code|)
    ensures (code + suffix)[..|code|] == code && (code + suffix)[|code|..] == suffix
  {
    var s := code + suffix;
    assert s[|code|..|code| + 1] == "-";
    assert OccursAt(s, "-", |code|);
    forall j | 0 <= j < |code| ensures !OccursAt(s, "-", j) {
      assert s[j..j + 1] == [code[j]];
      assert code[j] in code;
    }
    assert s[..|code|] == code && s[|code|..] == suffix;
  }

  /** Applying a second modifier replaces the first. */
  lemma ApplyTwice(code: string, m1: string, m2: string)
    requires |code| > 0 && '-' !in code
    requires IsDefinedModifier(NormalizeModifier(m1))
    ensures ApplyModifier(ApplyModifier(code, m1), m2) == ApplyModifier(code, m2)
  {
    StripModifierNoDash(code);
  }

  /** A lane suffix such as '-LD' is not a defined modifier, so '92928-LD' is kept whole. */
  lemma LaneSuffixKept()
    ensures StripModifier("92928-LD") == "92928-LD"
  {
    assert "92928-LD" == "92928" + "-LD";
    assert '-' !in "92928";
    FirstDashAt("92928", "-LD");
  }

  // ==================================================================== status

  datatype ValidationStatus = Clean | Warnings | Errors

  /** A suggestion the coder still has to act on: required and not applied automatically. */
  predicate NeedsAction(s: Suggestion)
  {
    s.confidence == Required && !s.autoApplied
  }

  /** `getValidationStatus`. */
  function GetValidationStatus(r: ValidationResult): (st: ValidationStatus)
    ensures st == Errors <==> |r.errors| > 0
    ensures st == Warnings <==> |r.errors| == 0 && (|r.warnings| > 0 || exists s :: s in r.suggestions && NeedsAction(s))
    ensures st == Clean <==> |r.errors| == 0 && |r.warnings| == 0 && forall s :: s in r.suggestions ==> !NeedsAction(s)
  {
    if |r.errors| > 0 then Errors
    else if |r.warnings| > 0 || exists s :: s in r.suggestions && NeedsAction(s) then Warnings
    else Clean
  }

  predicate IsActionable(s: Suggestion) { s.confidence != Optional }

  /** `getActionableSuggestions`: the required and recommended suggestions, in order. */
  function GetActionableSuggestions(r: ValidationResult): (a: seq<Suggestion>)
    ensures IsSubsequence(a, r.suggestions)
    ensures forall s :: s in a <==> s in r.suggestions && s.confidence != Optional
  {
    FilterIsSubsequence(r.suggestions, IsActionable);
    Filter(r.suggestions, IsActionable)
  }

  /** A clean result may still carry suggestions, but every actionable one was applied automatically or is only recommended. */
  lemma CleanMeansNothingRequired(r: ValidationResult)
    requires GetValidationStatus(r) == Clean
    ensures forall s :: s in GetActionableSuggestions(r) ==> s.autoApplied || s.confidence == Recommended
  {
  }

  // ==================================================================== suggestion helpers

  /** The fixed fields of the suggestions one rule makes. */
  datatype Template = Template(modifier: string, confidence: Confidence, autoApplied: bool, ruleId: string)

  function Make(t: Template, code: string): Suggestion
  {
    Suggestion(code, t.modifier, t.confidence, t.autoApplied, t.ruleId)
  }

  function MakeAll(t: Template, codes: seq<string>): (r: seq<Suggestion>)
    ensures |r| == |codes|
    ensures forall i :: 0 <= i < |codes| ==> r[i] == Make(t, codes[i])
  {
    seq(|codes|, i requires 0 <= i < |codes| => Make(t, codes[i]))
  }

  lemma MakeAllAppend(t: Template, codes: seq<string>, c: string)
    ensures MakeAll(t, codes + [c]) == MakeAll(t, codes) + [Make(t, c)]
  {
  }

  /** Some suggestion already puts one of `mods` on `code` (the rules' `alreadySuggested`). */
  predicate HasSuggestion(acc: seq<Suggestion>, code: string, mods: set<string>)
  {
    exists s :: s in acc && s.code == code && s.modifier in mods
  }

  /**
   * The codes of `codes`, in order, that a rule pushing one suggestion per
   * code "unless already suggested" gives a new suggestion: those not covered
   * by `acc` nor by an earlier code of the same loop.
   */
  function Fresh(acc: seq<Suggestion>, codes: seq<string>, mods: set<string>): (r: seq<string>)
  {
    if |codes| == 0 then []
    else
      var f := Fresh(acc, codes[..|codes| - 1], mods);
      var c := codes[|codes| - 1];
      if HasSuggestion(acc, c, mods) || c in f then f else f + [c]
  }

  /** The added codes are distinct, uncovered by `acc`, and together with `acc` cover every code. */
  lemma {:induction false} FreshFacts(acc: seq<Suggestion>, codes: seq<string>, mods: set<string>)
    ensures NoDup(Fresh(acc, codes, mods))
    ensures forall c :: c in Fresh(acc, codes, mods) ==> c in codes && !HasSuggestion(acc, c, mods)
    ensures forall c :: c in codes ==> HasSuggestion(acc, c, mods) || c in Fresh(acc, codes, mods)
  {
    if |codes| > 0 {
      var p := codes[..|codes| - 1];
      FreshFacts(acc, p, mods);
      assert codes == p + [codes[|codes| - 1]];
    }
  }

  /** After the new suggestions are pushed, a code is covered iff it was covered or is added. */
  lemma CoveredAfterPush(acc: seq<Suggestion>, t: Template, f: seq<string>, c: string, mods: set<string>)
    requires t.modifier in mods
    ensures HasSuggestion(acc + MakeAll(t, f), c, mods) <==> HasSuggestion(acc, c, mods) || c in f
  {
    var all := acc + MakeAll(t, f);
    if c in f {
      var i :| 0 <= i < |f| && f[i] == c;
      assert all[|acc| + i] == Make(t, c);
    }
    if HasSuggestion(all, c, mods) {
      var s :| s in all && s.code == c && s.modifier in mods;
      if s !in acc {
        var i :| 0 <= i < |MakeAll(t, f)| && MakeAll(t, f)[i] == s;
        assert f[i] == c;
      }
    }
  }

  /**
   * The loop shared by the "unless already suggested" rules: one suggestion
   * from template `t` for each code of `codes` not yet carrying one of `mods`.
   */
  method SuggestOnceEach(acc: seq<Suggestion>, codes: seq<string>, mods: set<string>, t: Template)
    returns (acc': seq<Suggestion>, added: seq<string>)
    requires t.modifier in mods
    ensures added == Fresh(acc, codes, mods)
    ensures acc' == acc + MakeAll(t, added)
  {
    acc' := acc;
    added := [];
    for i := 0 to |codes|
      invariant added == Fresh(acc, codes[..i], mods)
      invariant acc' == acc + MakeAll(t, added)
    {
      var c := codes[i];
      assert codes[..i + 1][..i] == codes[..i];
      CoveredAfterPush(acc, t, added, c, mods);
      var already := exists s :: s in acc' && s.code == c && s.modifier in mods;
      if !already {
        MakeAllAppend(t, added, c);
        added := added + [c];
        acc' := acc' + [Make(t, c)];
      }
    }
    assert codes[..|codes|] == codes;
  }

  // ==================================================================== 1. duplicates

  function RepeatSuggestion(code: string): Suggestion
  {
    Suggestion(code, "-76", Required, false, "duplicate-code-76")
  }

  function RepeatPieces(codes: seq<string>): string -> seq<Suggestion>
  {
    c => if multiset(codes)[c] > 1 then [RepeatSuggestion(c)] else []
  }

  /** One '-76' suggestion per distinct repeated code, in first-occurrence order. */
  function DuplicateSuggestions(codes: seq<string>): seq<Suggestion>
  {
    FlatMap(Dedup(codes), RepeatPieces(codes))
  }

  /** The counting loop of `checkDuplicates`: the distinct codes in first-seen order, and how often each occurs. */
  method CountCodes(codes: seq<string>) returns (order: seq<string>, seen: map<string, nat>)
    ensures order == Dedup(codes)
    ensures forall c :: c in seen <==> c in codes
    ensures forall c :: c in seen ==> seen[c] == multiset(codes)[c]
  {
    seen := map[];
    order := [];
    for i := 0 to |codes|
      invariant Counted(codes[..i], order, seen)
    {
      order, seen := CountOne(codes, i, order, seen);
    }
    assert codes[..|codes|] == codes;
  }

  /** `order` and `seen` are the distinct codes of `done` and their counts. */
  ghost predicate Counted(done: seq<string>, order: seq<string>, seen: map<string, nat>)
  {
    && order == Dedup(done)
    && (forall c :: c in seen <==> c in done)
    && (forall c :: c in seen ==> seen[c] == multiset(done)[c])
  }

  /** One iteration of the counting loop. */
  method CountOne(codes: seq<string>, i: nat, order: seq<string>, seen: map<string, nat>) returns (order': seq<string>, seen': map<string, nat>)
    requires i < |codes| && Counted(codes[..i], order, seen)
    ensures Counted(codes[..i + 1], order', seen')
  {
    assert codes[..i + 1][..i] == codes[..i];
    assert codes[..i + 1] == codes[..i] + [codes[i]];
    var c := codes[i];
    if c in seen {
      order', seen' := order, seen[c := seen[c] + 1];
    } else {
      order', seen' := order + [c], seen[c := 1];
    }
  }

  /** `checkDuplicates`: count each code, then suggest '-76' for every code seen more than once. */
  method CheckDuplicates(codes: seq<string>, suggestions: seq<Suggestion>) returns (suggestions': seq<Suggestion>)
    ensures suggestions' == suggestions + DuplicateSuggestions(codes)
  {
    var order, seen := CountCodes(codes);
    suggestions' := suggestions;
    for k := 0 to |order|
      invariant suggestions' == suggestions + FlatMap(order[..k], RepeatPieces(codes))
    {
      FlatMapAccStep(suggestions, order, k, RepeatPieces(codes));
      suggestions' := RepeatOf(codes, seen, order[k], suggestions');
    }
    assert order[..|order|] == order;
  }

  /** The loop body: a '-76' for `c` when its count is above one. */
  method RepeatOf(codes: seq<string>, seen: map<string, nat>, c: string, acc: seq<Suggestion>) returns (acc': seq<Suggestion>)
    requires c in codes
    requires forall c :: c in seen <==> c in codes
    requires forall c :: c in seen ==> seen[c] == multiset(codes)[c]
    ensures acc' == acc + RepeatPieces(codes)(c)
  {
    acc' := acc;
    if seen[c] > 1 {
      acc' := acc' + [RepeatSuggestion(c)];
    }
  }

  lemma {:induction false} RepeatPiecesFacts(order: seq<string>, codes: seq<string>)
    requires NoDup(order)
    ensures forall s :: s in FlatMap(order, RepeatPieces(codes)) ==> s == RepeatSuggestion(s.code) && s.code in order && multiset(codes)[s.code] > 1
    ensures forall c :: c in order && multiset(codes)[c] > 1 ==> RepeatSuggestion(c) in FlatMap(order, RepeatPieces(codes))
    ensures forall i, j :: 0 <= i < j < |FlatMap(order, RepeatPieces(codes))| ==>
      FlatMap(order, RepeatPieces(codes))[i].code != FlatMap(order, RepeatPieces(codes))[j].code
  {
    if |order| > 0 {
      var p := order[..|order| - 1];
      RepeatPiecesFacts(p, codes);
      assert order == p + [order[|order| - 1]];
    }
  }

  /**
   * Exactly one required, not auto-applied '-76' suggestion for each distinct
   * code that occurs more than once, and none for any other code.
   */
  lemma DuplicateSuggestionsExactly(codes: seq<string>)
    ensures forall s :: s in DuplicateSuggestions(codes) ==>
      s.modifier == "-76" && s.confidence == Required && !s.autoApplied && multiset(codes)[s.code] > 1
    ensures forall c :: multiset(codes)[c] > 1 ==> exists s :: s in DuplicateSuggestions(codes) && s.code == c
    ensures forall i, j :: 0 <= i < j < |DuplicateSuggestions(codes)| ==>
      DuplicateSuggestions(codes)[i].code != DuplicateSuggestions(codes)[j].code
  {
    RepeatPiecesFacts(Dedup(codes), codes);
    forall c | multiset(codes)[c] > 1 ensures exists s :: s in DuplicateSuggestions(codes) && s.code == c {
      assert c in codes;
      assert RepeatSuggestion(c) in DuplicateSuggestions(codes);
    }
  }

  // ==================================================================== 2. NCCI pairs

  function NcciSuggestion(p: CciPair): Suggestion
  {
    Suggestion(p.column2, "-59", Required, true, "ncci-" + p.column1 + "-" + p.column2 + "-59")
  }

  function NcciSuggestionPieces(codes: seq<string>): CciPair -> seq<Suggestion>
  {
    p => if PairApplies(p, codes) && p.modifierException then [NcciSuggestion(p)] else []
  }

  function NcciWarningPieces(codes: seq<string>): CciPair -> seq<Issue>
  {
    p => if PairApplies(p, codes) && !p.modifierException then [NcciBundled(p.column1, p.column2)] else []
  }

  /** `checkNCCIEdits`: '-59' on the component of an exception pair, a warning for a pair without one. */
  method CheckNCCIEdits(pairs: seq<CciPair>, codes: seq<string>, suggestions: seq<Suggestion>, warnings: seq<Issue>)
    returns (suggestions': seq<Suggestion>, warnings': seq<Issue>)
    ensures suggestions' == suggestions + FlatMap(pairs, NcciSuggestionPieces(codes))
    ensures warnings' == warnings + FlatMap(pairs, NcciWarningPieces(codes))
  {
    suggestions', warnings' := suggestions, warnings;
    for i := 0 to |pairs|
      invariant suggestions' == suggestions + FlatMap(pairs[..i], NcciSuggestionPieces(codes))
      invariant warnings' == warnings + FlatMap(pairs[..i], NcciWarningPieces(codes))
    {
      FlatMapStep(pairs, i, NcciSuggestionPieces(codes));
      FlatMapStep(pairs, i, NcciWarningPieces(codes));
      var s, w := NcciOfPair(pairs[i], codes);
      suggestions', warnings' := suggestions' + s, warnings' + w;
    }
    assert pairs[..|pairs|] == pairs;
  }

  /** One pair of the NCCI check: its suggestion or its warning, when both of its codes are selected. */
  method NcciOfPair(pair: CciPair, codes: seq<string>) returns (s: seq<Suggestion>, w: seq<Issue>)
    ensures s == NcciSuggestionPieces(codes)(pair) && w == NcciWarningPieces(codes)(pair)
    ensures |s| + |w| <= 1
  {
    s, w := [], [];
    if pair.column1 in codes && pair.column2 in codes {
      if pair.modifierException {
        s := [NcciSuggestion(pair)];
      } else {
        w := [NcciBundled(pair.column1, pair.column2)];
      }
    }
  }

  /** A listed pair is reported by the CCI edit check exactly when it applies. */
  lemma ViolationIffApplies(pairs: seq<CciPair>, codes: seq<string>, p: CciPair)
    requires p in pairs
    ensures ViolationOf(p) in Violations(pairs, codes) <==> PairApplies(p, codes)
  {
    ViolationsIff(pairs, codes, ViolationOf(p));
  }

  /**
   * The NCCI rule agrees with the CCI edit check over any pair table: a
   * '-59' suggestion on the component code for each reported pair with a
   * modifier exception, a bundling warning for each reported pair without
   * one, and nothing else.
   */
  lemma NcciMatchesCciViolations(pairs: seq<CciPair>, codes: seq<string>)
    ensures forall s :: s in FlatMap(pairs, NcciSuggestionPieces(codes)) <==>
      exists p :: p in pairs && ViolationOf(p) in Violations(pairs, codes) && p.modifierException && s == NcciSuggestion(p)
    ensures forall w :: w in FlatMap(pairs, NcciWarningPieces(codes)) <==>
      exists p :: p in pairs && ViolationOf(p) in Violations(pairs, codes) && !p.modifierException && w == NcciBundled(p.column1, p.column2)
  {
    forall p | p in pairs ensures ViolationOf(p) in Violations(pairs, codes) <==> PairApplies(p, codes) {
      ViolationIffApplies(pairs, codes, p);
    }
    forall s ensures s in FlatMap(pairs, NcciSuggestionPieces(codes)) <==>
      exists p :: p in pairs && PairApplies(p, codes) && p.modifierException && s == NcciSuggestion(p)
    {
      FlatMapMember(pairs, NcciSuggestionPieces(codes), s);
      if exists p :: p in pairs && PairApplies(p, codes) && p.modifierException && s == NcciSuggestion(p) {
        var p :| p in pairs && PairApplies(p, codes) && p.modifierException && s == NcciSuggestion(p);
        var i :| 0 <= i < |pairs| && pairs[i] == p;
        assert s in NcciSuggestionPieces(codes)(pairs[i]);
      }
    }
    forall w ensures w in FlatMap(pairs, NcciWarningPieces(codes)) <==>
      exists p :: p in pairs && PairApplies(p, codes) && !p.modifierException && w == NcciBundled(p.column1, p.column2)
    {
      FlatMapMember(pairs, NcciWarningPieces(codes), w);
      if exists p :: p in pairs && PairApplies(p, codes) && !p.modifierException && w == NcciBundled(p.column1, p.column2) {
        var p :| p in pairs && PairApplies(p, codes) && !p.modifierException && w == NcciBundled(p.column1, p.column2);
        var i :| 0 <= i < |pairs| && pairs[i] == p;
        assert w in NcciWarningPieces(codes)(pairs[i]);
      }
    }
  }

  // ==================================================================== shared rule helpers

  /** Some code of `candidates` is selected (`candidates.some(c => codeSet.has(c))`). */
  predicate HasAnyOf(candidates: seq<string>, codes: seq<string>)
  {
    exists c :: c in candidates && c in codes
  }

  /** Membership in the charge's codes, as a filter predicate. */
  function InCodes(codes: seq<string>): string -> bool
  {
    c => c in codes
  }

  /**
   * What the "unless already suggested" loop guarantees: afterwards every
   * code carries one of `mods`, and each code it added is distinct and was
   * not covered before.
   */
  lemma OnceEachFacts(acc: seq<Suggestion>, codes: seq<string>, mods: set<string>, t: Template)
    requires t.modifier in mods
    ensures forall c :: c in codes ==> HasSuggestion(acc + MakeAll(t, Fresh(acc, codes, mods)), c, mods)
    ensures NoDup(Fresh(acc, codes, mods))
    ensures forall c :: c in Fresh(acc, codes, mods) ==> c in codes && !HasSuggestion(acc, c, mods)
  {
    FreshFacts(acc, codes, mods);
    forall c | c in codes ensures HasSuggestion(acc + MakeAll(t, Fresh(acc, codes, mods)), c, mods) {
      CoveredAfterPush(acc, t, Fresh(acc, codes, mods), c, mods);
    }
  }

  // ==================================================================== 3. E/M + procedure

  const EmProcedureTemplate := Template("-25", Required, true, "em-plus-procedure-25")

  /** The E/M codes `checkEMPlusProcedure` suggests '-25' for, after the suggestions `acc`. */
  function EmPlusProcedureAdded(acc: seq<Suggestion>, codes: seq<string>): seq<string>
  {
    var emCodes := Filter(codes, IsEMCode);
    if |emCodes| > 0 && |Filter(codes, IsProcedureCode)| > 0 then Fresh(acc, emCodes, {"-25"}) else []
  }

  /** `checkEMPlusProcedure`: '-25' on each E/M code billed with a procedure, unless already suggested. */
  method CheckEMPlusProcedure(codes: seq<string>, suggestions: seq<Suggestion>) returns (suggestions': seq<Suggestion>)
    ensures suggestions' == suggestions + MakeAll(EmProcedureTemplate, EmPlusProcedureAdded(suggestions, codes))
  {
    var emCodes := Filter(codes, IsEMCode);
    var procCodes := Filter(codes, IsProcedureCode);
    suggestions' := suggestions;
    if |emCodes| > 0 && |procCodes| > 0 {
      var added;
      suggestions', added := SuggestOnceEach(suggestions, emCodes, {"-25"}, EmProcedureTemplate);
    }
  }

  /**
   * With a procedure code on the charge every E/M code ends up with a '-25',
   * and the rule adds at most one per code, never to a code that had one;
   * without a procedure code the rule adds nothing.
   */
  lemma EmPlusProcedureCovers(acc: seq<Suggestion>, codes: seq<string>)
    ensures (exists p :: p in codes && IsProcedureCode(p)) ==>
      forall e :: e in codes && IsEMCode(e) ==>
        HasSuggestion(acc + MakeAll(EmProcedureTemplate, EmPlusProcedureAdded(acc, codes)), e, {"-25"})
    ensures NoDup(EmPlusProcedureAdded(acc, codes))
    ensures forall e :: e in EmPlusProcedureAdded(acc, codes) ==> e in codes && IsEMCode(e) && !HasSuggestion(acc, e, {"-25"})
    ensures (forall p :: p in codes ==> !IsProcedureCode(p)) ==> EmPlusProcedureAdded(acc, codes) == []
  {
    var emCodes := Filter(codes, IsEMCode);
    OnceEachFacts(acc, emCodes, {"-25"}, EmProcedureTemplate);
    if exists p :: p in codes && IsProcedureCode(p) {
      var p :| p in codes && IsProcedureCode(p);
      assert p in Filter(codes, IsProcedureCode);
      forall e | e in codes && IsEMCode(e)
        ensures HasSuggestion(acc + MakeAll(EmProcedureTemplate, EmPlusProcedureAdded(acc, codes)), e, {"-25"})
      {
        assert e in emCodes;
      }
    }
    FilterNonEmpty(codes, IsProcedureCode);
  }

  // ==================================================================== 4. professional / technical split

  const ProfTechTemplate := Template("-26", Optional, false, "prof-tech-split-26")


  /** A loop pushing one suggestion from `t` for each code that passes `p`, in order. */
  method SuggestEachMatching(acc: seq<Suggestion>, codes: seq<string>, p: string -> bool, t: Template)
    returns (acc': seq<Suggestion>)
    ensures acc' == acc + MakeAll(t, Filter(codes, p))
  {
    acc' := acc;
    for i := 0 to |codes|
      invariant acc' == acc + MakeAll(t, Filter(codes[..i], p))
    {
      SuggestEachStep(acc, codes, i, p, t);
      if p(codes[i]) {
        acc' := acc' + [Make(t, codes[i])];
      }
    }
    assert codes[..|codes|] == codes;
  }

  lemma SuggestEachStep(acc: seq<Suggestion>, codes: seq<string>, i: nat, p: string -> bool, t: Template)
    requires i < |codes|
    ensures acc + MakeAll(t, Filter(codes[..i + 1], p))
      == acc + MakeAll(t, Filter(codes[..i], p)) + (if p(codes[i]) then [Make(t, codes[i])] else [])
  {
    assert codes[..i + 1] == codes[..i] + [codes[i]];
    FilterSnoc(codes[..i], codes[i], p);
    if p(codes[i]) {
      MakeAllAppend(t, Filter(codes[..i], p), codes[i]);
    }
  }

  /** `checkProfTechSplit`: an optional '-26' on every split-billable code, one per occurrence. */
  method CheckProfTechSplit(codes: seq<string>, suggestions: seq<Suggestion>) returns (suggestions': seq<Suggestion>)
    ensures suggestions' == suggestions + MakeAll(ProfTechTemplate, Filter(codes, IsProfTechCode))
  {
    suggestions' := SuggestEachMatching(suggestions, codes, IsProfTechCode, ProfTechTemplate);
  }

  // ==================================================================== 5. laterality

  const BilateralTemplate := Template("-50", Optional, false, "bilateral-50")
  const LateralityTemplate := Template("-LT", Optional, false, "laterality-lt-rt")

  /** What `checkLaterality` pushes for one code: '-50' if bilateral-eligible, then '-LT' if site-specific. */
  function LateralityPieces(code: string): seq<Suggestion>
  {
    (if IsBilateralCode(code) then [Make(BilateralTemplate, code)] else [])
      + (if IsLateralityCode(code) then [Make(LateralityTemplate, code)] else [])
  }

  method CheckLaterality(codes: seq<string>, suggestions: seq<Suggestion>) returns (suggestions': seq<Suggestion>)
    ensures suggestions' == suggestions + FlatMap(codes, LateralityPieces)
  {
    suggestions' := suggestions;
    for i := 0 to |codes|
      invariant suggestions' == suggestions + FlatMap(codes[..i], LateralityPieces)
    {
      FlatMapStep(codes, i, LateralityPieces);
      var code := codes[i];
      if IsBilateralCode(code) {
        suggestions' := suggestions' + [Make(BilateralTemplate, code)];
      }
      if IsLateralityCode(code) {
        suggestions' := suggestions' + [Make(LateralityTemplate, code)];
      }
    }
    assert codes[..|codes|] == codes;
  }

  /**
   * Suggestions of optional confidence neither change the validation status
   * nor appear among the actionable suggestions: rules 4, 5 and 14 only
   * inform.
   */
  lemma OptionalSuggestionsInert(r: ValidationResult, extra: seq<Suggestion>)
    requires forall s :: s in extra ==> s.confidence == Optional
    ensures GetValidationStatus(r.(suggestions := r.suggestions + extra)) == GetValidationStatus(r)
    ensures GetActionableSuggestions(r.(suggestions := r.suggestions + extra)) == GetActionableSuggestions(r)
  {
    FilterAppendRejected(r.suggestions, extra, IsActionable);
  }

  /** Appending only rejected elements leaves a filter unchanged. */
  lemma {:induction false} FilterAppendRejected(s: seq<Suggestion>, extra: seq<Suggestion>, p: Suggestion -> bool)
    requires forall x :: x in extra ==> !p(x)
    ensures Filter(s + extra, p) == Filter(s, p)
  {
    if |extra| > 0 {
      var e := extra[..|extra| - 1];
      assert s + extra == (s + e) + [extra[|extra| - 1]];
      FilterSnoc(s + e, extra[|extra| - 1], p);
      FilterAppendRejected(s, e, p);
    } else {
      assert s + extra == s;
    }
  }

  /** Every suggestion of the professional/technical and laterality rules is optional. */
  lemma InformationalRulesOptional(codes: seq<string>)
    ensures forall s :: s in MakeAll(ProfTechTemplate, Filter(codes, IsProfTechCode)) ==> s.confidence == Optional
    ensures forall s :: s in FlatMap(codes, LateralityPieces) ==> s.confidence == Optional
  {
    forall s | s in FlatMap(codes, LateralityPieces) ensures s.confidence == Optional {
      FlatMapMember(codes, LateralityPieces, s);
    }
  }

  // ==================================================================== 6. diagnostic cath + PCI

  const DiagCathPciTemplate := Template("-59", Required, true, "diag-cath-pci-59")

  /** The diagnostic cath codes `checkDiagCathPCI` suggests '-59' for, after the suggestions `acc`. */
  function DiagCathPciAdded(acc: seq<Suggestion>, codes: seq<string>): seq<string>
  {
    var cathCodes := Filter(codes, IsDiagnosticCathCode);
    if |cathCodes| > 0 && |Filter(codes, IsPCICode)| > 0 then Fresh(acc, cathCodes, {"-59"}) else []
  }

  /** One documentation reminder per cath code given a '-59'. */
  function DiagCathPciWarnings(added: seq<string>): (w: seq<Issue>)
    ensures |w| == |added|
    ensures forall i :: 0 <= i < |added| ==> w[i] == DiagCathPciDocumentation(added[i])
  {
    seq(|added|, i requires 0 <= i < |added| => DiagCathPciDocumentation(added[i]))
  }

  /** `checkDiagCathPCI`: '-59' and a documentation reminder for each diagnostic cath code billed with PCI. */
  method CheckDiagCathPCI(codes: seq<string>, suggestions: seq<Suggestion>, warnings: seq<Issue>)
    returns (suggestions': seq<Suggestion>, warnings': seq<Issue>)
    ensures suggestions' == suggestions + MakeAll(DiagCathPciTemplate, DiagCathPciAdded(suggestions, codes))
    ensures warnings' == warnings + DiagCathPciWarnings(DiagCathPciAdded(suggestions, codes))
  {
    var cathCodes := Filter(codes, IsDiagnosticCathCode);
    var pciCodes := Filter(codes, IsPCICode);
    suggestions', warnings' := suggestions, warnings;
    if |cathCodes| > 0 && |pciCodes| > 0 {
      var added;
      suggestions', added := SuggestOnceEach(suggestions, cathCodes, {"-59"}, DiagCathPciTemplate);
      warnings' := warnings + DiagCathPciWarnings(added);
    }
  }

  /** With PCI on the charge every diagnostic cath code ends up with a '-59'; each reminder matches a new '-59'. */
  lemma DiagCathPciCovers(acc: seq<Suggestion>, codes: seq<string>)
    ensures (exists p :: p in codes && IsPCICode(p)) ==>
      forall k :: k in codes && IsDiagnosticCathCode(k) ==>
        HasSuggestion(acc + MakeAll(DiagCathPciTemplate, DiagCathPciAdded(acc, codes)), k, {"-59"})
    ensures forall k :: k in DiagCathPciAdded(acc, codes) ==> k in codes && IsDiagnosticCathCode(k) && !HasSuggestion(acc, k, {"-59"})
    ensures NoDup(DiagCathPciAdded(acc, codes))
  {
    var cathCodes := Filter(codes, IsDiagnosticCathCode);
    OnceEachFacts(acc, cathCodes, {"-59"}, DiagCathPciTemplate);
    if exists p :: p in codes && IsPCICode(p) {
      var p :| p in codes && IsPCICode(p);
      assert p in Filter(codes, IsPCICode);
      forall k | k in codes && IsDiagnosticCathCode(k)
        ensures HasSuggestion(acc + MakeAll(DiagCathPciTemplate, DiagCathPciAdded(acc, codes)), k, {"-59"})
      {
        assert k in cathCodes;
      }
    }
  }

  // ==================================================================== 7. add-on orphans

  /** The error `checkAddOnOrphans` raises for one code. */
  function OrphanPieces(codes: seq<string>): string -> seq<Issue>
  {
    c => if IsAddOnCode(c) && !HasAnyOf(RequiredPrimaries(c), codes) then [AddOnWithoutPrimary(c)] else []
  }

  /** `checkAddOnOrphans`: an error for each add-on code none of whose primaries is on the charge. */
  method CheckAddOnOrphans(codes: seq<string>, errors: seq<Issue>) returns (errors': seq<Issue>)
    ensures errors' == errors + FlatMap(codes, OrphanPieces(codes))
  {
    errors' := errors;
    for i := 0 to |codes|
      invariant errors' == errors + FlatMap(codes[..i], OrphanPieces(codes))
    {
      FlatMapStep(codes, i, OrphanPieces(codes));
      var code := codes[i];
      if IsAddOnCode(code) {
        var requiredPrimaries := RequiredPrimaries(code);
        var hasPrimary := exists primary :: primary in requiredPrimaries && primary in codes;
        if !hasPrimary {
          errors' := errors' + [AddOnWithoutPrimary(code)];
        }
      }
    }
    assert codes[..|codes|] == codes;
  }

  /** An add-on code is reported iff it is on the charge and none of its required primaries is. */
  lemma AddOnOrphanIff(codes: seq<string>, c: string)
    ensures AddOnWithoutPrimary(c) in FlatMap(codes, OrphanPieces(codes)) <==>
      c in codes && IsAddOnCode(c) && forall p :: p in RequiredPrimaries(c) ==> p !in codes
  {
    FlatMapMember(codes, OrphanPieces(codes), AddOnWithoutPrimary(c));
  }

  // ==================================================================== 8. echo mutual exclusion

  function EchoPieces(codes: seq<string>): ((string, string)) -> seq<Issue>
  {
    (pr: (string, string)) => if pr.0 in codes && pr.1 in codes then [EchoExclusive(pr.0, pr.1)] else []
  }

  /** `checkEchoMutualExclusion`: an error for each excluded echo pair fully on the charge. */
  method CheckEchoMutualExclusion(pairs: seq<(string, string)>, codes: seq<string>, errors: seq<Issue>) returns (errors': seq<Issue>)
    ensures errors' == errors + FlatMap(pairs, EchoPieces(codes))
  {
    errors' := errors;
    for i := 0 to |pairs|
      invariant errors' == errors + FlatMap(pairs[..i], EchoPieces(codes))
    {
      FlatMapStep(pairs, i, EchoPieces(codes));
      var (code1, code2) := pairs[i];
      if code1 in codes && code2 in codes {
        errors' := errors' + [EchoExclusive(code1, code2)];
      }
    }
    assert pairs[..|pairs|] == pairs;
  }

  /** A pair is reported iff it is listed and both its codes are on the charge. */
  lemma EchoExclusionIff(pairs: seq<(string, string)>, codes: seq<string>, a: string, b: string)
    ensures EchoExclusive(a, b) in FlatMap(pairs, EchoPieces(codes)) <==> (a, b) in pairs && a in codes && b in codes
  {
    FlatMapMember(pairs, EchoPieces(codes), EchoExclusive(a, b));
    if (a, b) in pairs && a in codes && b in codes {
      var i :| 0 <= i < |pairs| && pairs[i] == (a, b);
      assert EchoExclusive(a, b) in EchoPieces(codes)(pairs[i]);
    }
  }

  // ==================================================================== 9. critical care bundling

  function CriticalCarePieces(code: string): seq<Issue>
  {
    if IsCriticalCareBundled(code) then [CriticalCareBundled(code)] else []
  }

  /** The warnings of `checkCriticalCareBundling`: only when 99291 or 99292 is on the charge. */
  function CriticalCareWarnings(codes: seq<string>): seq<Issue>
  {
    if exists c :: c in codes && IsCriticalCareCode(c) then FlatMap(codes, CriticalCarePieces) else []
  }

  method CheckCriticalCareBundling(codes: seq<string>, warnings: seq<Issue>) returns (warnings': seq<Issue>)
    ensures warnings' == warnings + CriticalCareWarnings(codes)
  {
    warnings' := warnings;
    var hasCriticalCare := exists c :: c in codes && IsCriticalCareCode(c);
    if !hasCriticalCare {
      return;
    }
    for i := 0 to |codes|
      invariant warnings' == warnings + FlatMap(codes[..i], CriticalCarePieces)
    {
      FlatMapStep(codes, i, CriticalCarePieces);
      if IsCriticalCareBundled(codes[i]) {
        warnings' := warnings' + [CriticalCareBundled(codes[i])];
      }
    }
    assert codes[..|codes|] == codes;
  }

  /** A bundled procedure is flagged iff it is on the charge together with a critical care code. */
  lemma CriticalCareBundledIff(codes: seq<string>, c: string)
    ensures CriticalCareBundled(c) in CriticalCareWarnings(codes) <==>
      c in codes && IsCriticalCareBundled(c) && ("99291" in codes || "99292" in codes)
  {
    FlatMapMember(codes, CriticalCarePieces, CriticalCareBundled(c));
  }

  // ==================================================================== 10. sedation bundling


  /** The errors of `checkSedationBundling`: each sedation code, naming the procedures that include sedation. */
  function SedationErrors(codes: seq<string>): seq<Issue>
  {
    var sedation := Filter(codes, IsSedationCode);
    var inherent := Filter(codes, IsSedationInherentProcedure);
    if |sedation| > 0 && |inherent| > 0 then
      seq(|sedation|, i requires 0 <= i < |sedation| => SedationInherent(sedation[i], inherent))
    else []
  }

  method CheckSedationBundling(codes: seq<string>, errors: seq<Issue>) returns (errors': seq<Issue>)
    ensures errors' == errors + SedationErrors(codes)
  {
    errors' := errors;
    var sedationCodesFound := Filter(codes, IsSedationCode);
    if |sedationCodesFound| == 0 {
      return;
    }
    var inherentProcs := Filter(codes, IsSedationInherentProcedure);
    if |inherentProcs| > 0 {
      for k := 0 to |sedationCodesFound|
        invariant errors' == errors + seq(k, i requires 0 <= i < k => SedationInherent(sedationCodesFound[i], inherentProcs))
      {
        errors' := errors' + [SedationInherent(sedationCodesFound[k], inherentProcs)];
      }
    }
  }

  /** A sedation code is rejected iff a procedure with inherent sedation is on the charge; the error lists all of them. */
  lemma SedationBundlingIff(codes: seq<string>, c: string, procs: seq<string>)
    ensures SedationInherent(c, procs) in SedationErrors(codes) <==>
      c in codes && IsSedationCode(c) && procs == Filter(codes, IsSedationInherentProcedure) && |procs| > 0
  {
    var sedation := Filter(codes, IsSedationCode);
    if c in codes && IsSedationCode(c) && procs == Filter(codes, IsSedationInherentProcedure) && |procs| > 0 {
      var i :| 0 <= i < |sedation| && sedation[i] == c;
      assert SedationErrors(codes)[i] == SedationInherent(c, procs);
    }
  }

  // ==================================================================== 11, 18, 19. inclusion tables

  function LowerPieces(table: InclusionTable, higher: string, codes: seq<string>): string -> seq<Issue>
  {
    lower => if lower in codes then [Included(table, higher, lower)] else []
  }

  /** For a higher code on the charge, one finding per included lower code also on it. */
  function InclusionPieces(table: InclusionTable, codes: seq<string>): Inclusion -> seq<Issue>
  {
    (inc: Inclusion) => if inc.higher in codes then FlatMap(inc.includes, LowerPieces(table, inc.higher, codes)) else []
  }

  /** The inner loop: the lower codes of one entry that are on the charge. */
  method IncludedLowers(table: InclusionTable, higher: string, includes: seq<string>, codes: seq<string>, issues: seq<Issue>)
    returns (issues': seq<Issue>)
    ensures issues' == issues + FlatMap(includes, LowerPieces(table, higher, codes))
  {
    issues' := issues;
    for j := 0 to |includes|
      invariant issues' == issues + FlatMap(includes[..j], LowerPieces(table, higher, codes))
    {
      FlatMapStep(includes, j, LowerPieces(table, higher, codes));
      var lower := includes[j];
      if lower in codes {
        issues' := issues' + [Included(table, higher, lower)];
      }
    }
    assert includes[..|includes|] == includes;
  }

  /**
   * The nested loop shared by `checkCatheterHierarchy` (rule 11), the first
   * half of `checkDiagCathCodeHierarchy` (rule 18) and
   * `checkEPStudyAblationWithinCharge` (rule 19).
   */
  method CheckInclusions(table: InclusionTable, entries: seq<Inclusion>, codes: seq<string>, issues: seq<Issue>)
    returns (issues': seq<Issue>)
    ensures issues' == issues + FlatMap(entries, InclusionPieces(table, codes))
  {
    issues' := issues;
    for i := 0 to |entries|
      invariant issues' == issues + FlatMap(entries[..i], InclusionPieces(table, codes))
    {
      FlatMapAccStep(issues, entries, i, InclusionPieces(table, codes));
      issues' := InclusionsOfEntry(table, entries[i], codes, issues');
    }
    assert entries[..|entries|] == entries;
  }

  /** The outer loop's body: one entry's findings. */
  method InclusionsOfEntry(table: InclusionTable, inc: Inclusion, codes: seq<string>, issues: seq<Issue>)
    returns (issues': seq<Issue>)
    ensures issues' == issues + InclusionPieces(table, codes)(inc)
  {
    if inc.higher in codes {
      issues' := IncludedLowers(table, inc.higher, inc.includes, codes, issues);
    } else {
      issues' := issues;
      assert issues + [] == issues;
    }
  }

  /** A (higher, lower) pair is reported iff both are on the charge and some entry for `higher` includes `lower`. */
  lemma InclusionIff(table: InclusionTable, entries: seq<Inclusion>, codes: seq<string>, higher: string, lower: string)
    ensures Included(table, higher, lower) in FlatMap(entries, InclusionPieces(table, codes)) <==>
      higher in codes && lower in codes && exists inc :: inc in entries && inc.higher == higher && lower in inc.includes
  {
    if Included(table, higher, lower) in FlatMap(entries, InclusionPieces(table, codes)) {
      InclusionSound(table, entries, codes, higher, lower);
    }
    if higher in codes && lower in codes && exists inc :: inc in entries && inc.higher == higher && lower in inc.includes {
      var inc :| inc in entries && inc.higher == higher && lower in inc.includes;
      InclusionComplete(table, entries, codes, inc, lower);
    }
  }

  lemma InclusionSound(table: InclusionTable, entries: seq<Inclusion>, codes: seq<string>, higher: string, lower: string)
    requires Included(table, higher, lower) in FlatMap(entries, InclusionPieces(table, codes))
    ensures higher in codes && lower in codes && exists inc :: inc in entries && inc.higher == higher && lower in inc.includes
  {
    var x := Included(table, higher, lower);
    FlatMapMember(entries, InclusionPieces(table, codes), x);
    var i :| 0 <= i < |entries| && x in InclusionPieces(table, codes)(entries[i]);
    FlatMapMember(entries[i].includes, LowerPieces(table, entries[i].higher, codes), x);
  }

  lemma InclusionComplete(table: InclusionTable, entries: seq<Inclusion>, codes: seq<string>, inc: Inclusion, lower: string)
    requires inc.higher in codes && lower in codes && inc in entries && lower in inc.includes
    ensures Included(table, inc.higher, lower) in FlatMap(entries, InclusionPieces(table, codes))
  {
    var x := Included(table, inc.higher, lower);
    FlatMapMember(entries, InclusionPieces(table, codes), x);
    var i :| 0 <= i < |entries| && entries[i] == inc;
    FlatMapMember(inc.includes, LowerPieces(table, inc.higher, codes), x);
    assert x in InclusionPieces(table, codes)(entries[i]);
  }

  // ==================================================================== 12. supervision and interpretation

  function SupervisionPieces(pairings: map<string, seq<string>>, codes: seq<string>): string -> seq<Issue>
  {
    c => if c in pairings && !HasAnyOf(pairings[c], codes) then [SupervisionWithoutCatheter(c)] else []
  }

  /** `checkSIPairing`: a warning for each S&I code with none of its catheter placements on the charge. */
  method CheckSIPairing(pairings: map<string, seq<string>>, codes: seq<string>, warnings: seq<Issue>)
    returns (warnings': seq<Issue>)
    ensures warnings' == warnings + FlatMap(codes, SupervisionPieces(pairings, codes))
  {
    warnings' := warnings;
    for i := 0 to |codes|
      invariant warnings' == warnings + FlatMap(codes[..i], SupervisionPieces(pairings, codes))
    {
      FlatMapStep(codes, i, SupervisionPieces(pairings, codes));
      var code := codes[i];
      if code in pairings {
        var requiredCaths := pairings[code];
        var hasCath := exists c :: c in requiredCaths && c in codes;
        if !hasCath {
          warnings' := warnings' + [SupervisionWithoutCatheter(code)];
        }
      }
    }
    assert codes[..|codes|] == codes;
  }

  /** An S&I code is flagged iff it is on the charge and none of its catheter placements is. */
  lemma SupervisionIff(pairings: map<string, seq<string>>, codes: seq<string>, c: string)
    ensures SupervisionWithoutCatheter(c) in FlatMap(codes, SupervisionPieces(pairings, codes)) <==>
      c in codes && c in pairings && forall k :: k in pairings[c] ==> k !in codes
  {
    FlatMapMember(codes, SupervisionPieces(pairings, codes), SupervisionWithoutCatheter(c));
  }

  // ==================================================================== 13. peripheral territories

  /** For one territory: more than one primary selected, or add-ons without any primary. */
  function TerritoryPieces(codes: seq<string>): Territory -> seq<Issue>
  {
    (t: Territory) =>
      var primaryCodes := Filter(t.primary, InCodes(codes));
      var addOnCodes := Filter(t.addOn, InCodes(codes));
      (if |primaryCodes| > 1 then [TerritoryMultiplePrimaries(t.name, primaryCodes)] else [])
        + (if |addOnCodes| > 0 && |primaryCodes| == 0 then [TerritoryAddOnWithoutPrimary(t.name, addOnCodes)] else [])
  }

  /** `checkPeripheralTerritory`: at most one primary per territory, and add-ons need a primary. */
  method CheckPeripheralTerritory(territories: seq<Territory>, codes: seq<string>, errors: seq<Issue>) returns (errors': seq<Issue>)
    ensures errors' == errors + FlatMap(territories, TerritoryPieces(codes))
  {
    errors' := errors;
    for i := 0 to |territories|
      invariant errors' == errors + FlatMap(territories[..i], TerritoryPieces(codes))
    {
      FlatMapStep(territories, i, TerritoryPieces(codes));
      var territory := territories[i];
      var primaryCodes := Filter(territory.primary, InCodes(codes));
      var addOnCodes := Filter(territory.addOn, InCodes(codes));
      if |primaryCodes| > 1 {
        errors' := errors' + [TerritoryMultiplePrimaries(territory.name, primaryCodes)];
      }
      if |addOnCodes| > 0 && |primaryCodes| == 0 {
        errors' := errors' + [TerritoryAddOnWithoutPrimary(territory.name, addOnCodes)];
      }
    }
    assert territories[..|territories|] == territories;
  }

  /** Filtering by membership keeps something iff the two lists share a code. */
  lemma SelectedNonEmpty(candidates: seq<string>, codes: seq<string>)
    ensures |Filter(candidates, InCodes(codes))| > 0 <==> HasAnyOf(candidates, codes)
  {
    var f := Filter(candidates, InCodes(codes));
    if |f| > 0 {
      assert f[0] in f;
    }
    if HasAnyOf(candidates, codes) {
      var c :| c in candidates && c in codes;
      assert c in f;
    }
  }

  /** A territory is reported for several primaries iff more than one of its primary codes is selected; the finding lists them. */
  lemma TerritoryPrimariesIff(territories: seq<Territory>, codes: seq<string>, name: string, ps: seq<string>)
    ensures TerritoryMultiplePrimaries(name, ps) in FlatMap(territories, TerritoryPieces(codes)) <==>
      exists t :: t in territories && t.name == name && ps == Filter(t.primary, InCodes(codes)) && |ps| > 1
  {
    var x := TerritoryMultiplePrimaries(name, ps);
    FlatMapMember(territories, TerritoryPieces(codes), x);
    if exists t :: t in territories && t.name == name && ps == Filter(t.primary, InCodes(codes)) && |ps| > 1 {
      var t :| t in territories && t.name == name && ps == Filter(t.primary, InCodes(codes)) && |ps| > 1;
      var i :| 0 <= i < |territories| && territories[i] == t;
      assert x in TerritoryPieces(codes)(territories[i]);
    }
  }

  /** One territory's piece holds an orphan add-on finding exactly when its add-ons but none of its primaries are selected. */
  lemma TerritoryAddOnPiece(codes: seq<string>, t: Territory, name: string, ad: seq<string>)
    ensures TerritoryAddOnWithoutPrimary(name, ad) in TerritoryPieces(codes)(t) <==>
      t.name == name && ad == Filter(t.addOn, InCodes(codes)) && |ad| > 0 && !HasAnyOf(t.primary, codes)
  {
    SelectedNonEmpty(t.primary, codes);
  }

  /** A territory is reported for orphan add-ons iff some of its add-ons but none of its primaries is selected. */
  lemma TerritoryAddOnsIff(territories: seq<Territory>, codes: seq<string>, name: string, ad: seq<string>)
    ensures TerritoryAddOnWithoutPrimary(name, ad) in FlatMap(territories, TerritoryPieces(codes)) <==>
      exists t :: t in territories && t.name == name && ad == Filter(t.addOn, InCodes(codes)) && |ad| > 0 &&
        !HasAnyOf(t.primary, codes)
  {
    var x := TerritoryAddOnWithoutPrimary(name, ad);
    FlatMapMember(territories, TerritoryPieces(codes), x);
    forall i | 0 <= i < |territories| ensures x in TerritoryPieces(codes)(territories[i]) <==>
      territories[i].name == name && ad == Filter(territories[i].addOn, InCodes(codes)) && |ad| > 0 && !HasAnyOf(territories[i].primary, codes)
    {
      TerritoryAddOnPiece(codes, territories[i], name, ad);
    }
  }

  // ==================================================================== 14. multiple procedures

  const MultipleProcedureTemplate := Template("-51", Optional, false, "multiple-procedure-51")
  const SeparateProcedureModifiers: set<string> := {"-59", "-51"}

  /** A code rule 14 counts: a procedure that is neither an add-on nor E/M. */
  predicate IsMultipleProcedureCandidate(code: string)
  {
    IsProcedureCode(code) && !IsAddOnCode(code) && !IsEMCode(code)
  }

  /** The codes grouped by key, keys in first-appearance order (`[...groups.values()].flat()`). */
  function GroupedBy<D(==,!new)>(codes: seq<string>, key: string -> D): seq<string>
  {
    FlatMap(Dedup(KeysOf(codes, key)), GroupOf(codes, key))
  }

  /**
   * The codes after the first of the grouping that a secondary-procedure
   * loop suggests for, when there are two codes and two keys.
   */
  function SecondaryAdded<D(==,!new)>(acc: seq<Suggestion>, procs: seq<string>, key: string -> D): seq<string>
  {
    var all := GroupedBy(procs, key);
    if |procs| >= 2 && |Dedup(KeysOf(procs, key))| >= 2 && |all| > 0 then Fresh(acc, all[1..], SeparateProcedureModifiers)
    else []
  }

  /** The secondary codes `checkMultipleProcedures` suggests '-51' for, after the suggestions `acc`. */
  function MultipleProcedureAdded(acc: seq<Suggestion>, codes: seq<string>): seq<string>
  {
    SecondaryAdded(acc, Filter(codes, IsMultipleProcedureCandidate), GetCodeDomain)
  }

  /** Group by key, flatten, and suggest for every code after the first when two keys occur. */
  method SuggestSecondaries<D(==,!new)>(procs: seq<string>, key: string -> D, suggestions: seq<Suggestion>)
    returns (suggestions': seq<Suggestion>)
    ensures suggestions' == suggestions + MakeAll(MultipleProcedureTemplate, SecondaryAdded(suggestions, procs, key))
  {
    suggestions' := suggestions;
    if |procs| < 2 {
      return;
    }
    var groups, order := GroupByKey(procs, key);
    if |order| >= 2 {
      var all := [];
      for k := 0 to |order|
        invariant all == FlatMap(order[..k], GroupOf(procs, key))
      {
        FlatMapStep(order, k, GroupOf(procs, key));
        all := all + groups[order[k]];
      }
      assert order[..|order|] == order;
      if |all| > 0 {
        var added;
        suggestions', added := SuggestOnceEach(suggestions, all[1..], SeparateProcedureModifiers, MultipleProcedureTemplate);
      }
    }
  }

  /** `checkMultipleProcedures`: across two or more domains, an optional '-51' on every code after the first. */
  method CheckMultipleProcedures(codes: seq<string>, suggestions: seq<Suggestion>) returns (suggestions': seq<Suggestion>)
    ensures suggestions' == suggestions + MakeAll(MultipleProcedureTemplate, MultipleProcedureAdded(suggestions, codes))
  {
    var procedureCodes := Filter(codes, IsMultipleProcedureCandidate);
    suggestions' := SuggestSecondaries(procedureCodes, GetCodeDomain, suggestions);
  }

  /** The grouping holds exactly the codes, and the first code stays first. */
  lemma GroupedByFacts<D(!new)>(codes: seq<string>, key: string -> D)
    ensures forall x :: x in GroupedBy(codes, key) <==> x in codes
    ensures |codes| > 0 ==> |GroupedBy(codes, key)| > 0 && GroupedBy(codes, key)[0] == codes[0]
  {
    var order := Dedup(KeysOf(codes, key));
    forall x ensures x in GroupedBy(codes, key) <==> x in codes {
      FlatMapMember(order, GroupOf(codes, key), x);
      if x in codes {
        var i :| 0 <= i < |codes| && codes[i] == x;
        assert KeysOf(codes, key)[i] in order;
        var j :| 0 <= j < |order| && order[j] == key(x);
        assert x in GroupOf(codes, key)(order[j]);
      }
    }
    if |codes| > 0 {
      DedupFirst(KeysOf(codes, key));
      FlatMapCons(order, GroupOf(codes, key));
      assert codes[0] in Filter(codes, HasKey(key, order[0]));
    }
  }

  /**
   * When the codes span two keys, every code other than the first ends up
   * with a '-59' or '-51'; the loop never suggests for a code that already
   * had one, nor twice for one code.
   */
  lemma SecondariesCover<D(!new)>(acc: seq<Suggestion>, procs: seq<string>, key: string -> D, a: string, b: string)
    requires a in procs && b in procs && key(a) != key(b)
    ensures forall c :: c in procs && c != procs[0] ==>
      HasSuggestion(acc + MakeAll(MultipleProcedureTemplate, SecondaryAdded(acc, procs, key)), c, SeparateProcedureModifiers)
    ensures NoDup(SecondaryAdded(acc, procs, key))
    ensures forall c :: c in SecondaryAdded(acc, procs, key) ==> c in procs && !HasSuggestion(acc, c, SeparateProcedureModifiers)
  {
    var order := Dedup(KeysOf(procs, key));
    var all := GroupedBy(procs, key);
    GroupedByFacts(procs, key);
    var ia :| 0 <= ia < |procs| && procs[ia] == a;
    var ib :| 0 <= ib < |procs| && procs[ib] == b;
    assert ia != ib;
    assert KeysOf(procs, key)[ia] in order && KeysOf(procs, key)[ib] in order;
    var ja :| 0 <= ja < |order| && order[ja] == key(a);
    var jb :| 0 <= jb < |order| && order[jb] == key(b);
    assert ja != jb;
    OnceEachFacts(acc, all[1..], SeparateProcedureModifiers, MultipleProcedureTemplate);
    forall c | c in procs && c != procs[0]
      ensures HasSuggestion(acc + MakeAll(MultipleProcedureTemplate, SecondaryAdded(acc, procs, key)), c, SeparateProcedureModifiers)
    {
      var k :| 0 <= k < |all| && all[k] == c;
      assert all[1..][k - 1] == c;
    }
    forall c | c in SecondaryAdded(acc, procs, key) ensures c in procs {
      assert c in all[1..];
    }
  }

  /**
   * Rule 14 on a charge whose candidate procedures span two domains: every
   * candidate other than the first gets a '-59' or '-51', at most once each.
   */
  lemma MultipleProceduresCover(acc: seq<Suggestion>, codes: seq<string>, a: string, b: string)
    requires a in codes && b in codes && IsMultipleProcedureCandidate(a) && IsMultipleProcedureCandidate(b)
    requires GetCodeDomain(a) != GetCodeDomain(b)
    ensures forall c :: c in codes && IsMultipleProcedureCandidate(c) && c != Filter(codes, IsMultipleProcedureCandidate)[0] ==>
      HasSuggestion(acc + MakeAll(MultipleProcedureTemplate, MultipleProcedureAdded(acc, codes)), c, SeparateProcedureModifiers)
    ensures NoDup(MultipleProcedureAdded(acc, codes))
    ensures forall c :: c in MultipleProcedureAdded(acc, codes) ==> !HasSuggestion(acc, c, SeparateProcedureModifiers)
  {
    SecondariesCover(acc, Filter(codes, IsMultipleProcedureCandidate), GetCodeDomain, a, b);
  }

  // ==================================================================== 15. discharge + procedure

  const DischargeTemplate := Template("-25", Required, true, "discharge-plus-procedure-25")

  /** The discharge codes `checkDischargePlusProcedure` suggests '-25' for, after the suggestions `acc`. */
  function DischargePlusProcedureAdded(acc: seq<Suggestion>, codes: seq<string>): seq<string>
  {
    var dischargeCodes := Filter(codes, IsDischargeCode);
    if |dischargeCodes| > 0 && |Filter(codes, IsProcedureCode)| > 0 then Fresh(acc, dischargeCodes, {"-25"}) else []
  }

  method CheckDischargePlusProcedure(codes: seq<string>, suggestions: seq<Suggestion>) returns (suggestions': seq<Suggestion>)
    ensures suggestions' == suggestions + MakeAll(DischargeTemplate, DischargePlusProcedureAdded(suggestions, codes))
  {
    var dischargeCodesFound := Filter(codes, IsDischargeCode);
    var procCodes := Filter(codes, IsProcedureCode);
    suggestions' := suggestions;
    if |dischargeCodesFound| > 0 && |procCodes| > 0 {
      var added;
      suggestions', added := SuggestOnceEach(suggestions, dischargeCodesFound, {"-25"}, DischargeTemplate);
    }
  }

  /**
   * Discharge codes are E/M codes, so once the E/M rule has put '-25' on
   * every E/M code the discharge rule finds nothing left to add.
   */
  lemma DischargeRuleSubsumed(acc: seq<Suggestion>, codes: seq<string>)
    requires forall e :: e in codes && IsEMCode(e) ==> HasSuggestion(acc, e, {"-25"})
    ensures DischargePlusProcedureAdded(acc, codes) == []
  {
    var dischargeCodes := Filter(codes, IsDischargeCode);
    FreshFacts(acc, dischargeCodes, {"-25"});
    var f := Fresh(acc, dischargeCodes, {"-25"});
    if |f| > 0 {
      assert f[0] in f;
      assert f[0] in dischargeCodes;
      assert IsEMCode(f[0]);
    }
  }

  /** Appending suggestions never uncovers a code. */
  lemma CoveredStaysCovered(acc: seq<Suggestion>, more: seq<Suggestion>, code: string, mods: set<string>)
    requires HasSuggestion(acc, code, mods)
    ensures HasSuggestion(acc + more, code, mods)
  {
    var s :| s in acc && s.code == code && s.modifier in mods;
    assert s in acc + more;
  }

  // ==================================================================== 16. pericardiocentesis during cath

  const PericardiocentesisTemplate := Template("-59", Recommended, false, "pericardiocentesis-cath-59")

  /** The pericardiocentesis codes rule 16 reports: all of them, once a diagnostic cath is on the charge. */
  function PericardiocentesisWithCath(codes: seq<string>): seq<string>
  {
    var pericCodes := Filter(codes, IsPericardiocentesisCode);
    if |pericCodes| > 0 && |Filter(codes, IsDiagnosticCathCode)| > 0 then pericCodes else []
  }

  function PericardiocentesisWarnings(pericCodes: seq<string>): (w: seq<Issue>)
    ensures |w| == |pericCodes|
    ensures forall i :: 0 <= i < |pericCodes| ==> w[i] == PericardiocentesisDocumentation(pericCodes[i])
  {
    seq(|pericCodes|, i requires 0 <= i < |pericCodes| => PericardiocentesisDocumentation(pericCodes[i]))
  }

  /** `checkPericardiocentesisDuringCath`: a recommended '-59' and a reminder per pericardiocentesis code. */
  method CheckPericardiocentesisDuringCath(codes: seq<string>, suggestions: seq<Suggestion>, warnings: seq<Issue>)
    returns (suggestions': seq<Suggestion>, warnings': seq<Issue>)
    ensures suggestions' == suggestions + MakeAll(PericardiocentesisTemplate, PericardiocentesisWithCath(codes))
    ensures warnings' == warnings + PericardiocentesisWarnings(PericardiocentesisWithCath(codes))
  {
    suggestions', warnings' := suggestions, warnings;
    var pericCodes := Filter(codes, IsPericardiocentesisCode);
    var cathCodes := Filter(codes, IsDiagnosticCathCode);
    if |pericCodes| > 0 && |cathCodes| > 0 {
      for k := 0 to |pericCodes|
        invariant suggestions' == suggestions + MakeAll(PericardiocentesisTemplate, pericCodes[..k])
        invariant warnings' == warnings + PericardiocentesisWarnings(pericCodes[..k])
      {
        assert pericCodes[..k + 1] == pericCodes[..k] + [pericCodes[k]];
        MakeAllAppend(PericardiocentesisTemplate, pericCodes[..k], pericCodes[k]);
        suggestions' := suggestions' + [Make(PericardiocentesisTemplate, pericCodes[k])];
        warnings' := warnings' + [PericardiocentesisDocumentation(pericCodes[k])];
      }
      assert pericCodes[..|pericCodes|] == pericCodes;
    }
  }

  /** A pericardiocentesis code is reported iff it is on the charge with a diagnostic cath code. */
  lemma PericardiocentesisIff(codes: seq<string>, c: string)
    ensures c in PericardiocentesisWithCath(codes) <==>
      c in codes && IsPericardiocentesisCode(c) && exists k :: k in codes && IsDiagnosticCathCode(k)
  {
    FilterNonEmpty(codes, IsDiagnosticCathCode);
    FilterNonEmpty(codes, IsPericardiocentesisCode);
  }

  // ==================================================================== 17. Category III

  function CategoryIIIPieces(code: string): seq<Issue>
  {
    if IsCategoryIIICode(code) then [CategoryIII(code, HasCategoryIIINote(code))] else []
  }

  /** `checkCategoryIIICodes`: a payer warning per Category III code, with the code-specific note when there is one. */
  method CheckCategoryIIICodes(codes: seq<string>, warnings: seq<Issue>) returns (warnings': seq<Issue>)
    ensures warnings' == warnings + FlatMap(codes, CategoryIIIPieces)
  {
    warnings' := warnings;
    for i := 0 to |codes|
      invariant warnings' == warnings + FlatMap(codes[..i], CategoryIIIPieces)
    {
      FlatMapStep(codes, i, CategoryIIIPieces);
      var code := codes[i];
      if IsCategoryIIICode(code) {
        var specific := HasCategoryIIINote(code);
        warnings' := warnings' + [CategoryIII(code, specific)];
      }
    }
    assert codes[..|codes|] == codes;
  }

  /** A code is warned about iff it is a Category III code on the charge; five-digit numeric codes never are. */
  lemma CategoryIIIIff(codes: seq<string>, c: string, note: bool)
    ensures CategoryIII(c, note) in FlatMap(codes, CategoryIIIPieces) <==>
      c in codes && IsCategoryIIICode(c) && note == (HasCategoryIIINote(c))
    ensures |c| == 5 && AllDigits(c) ==> CategoryIII(c, note) !in FlatMap(codes, CategoryIIIPieces)
  {
    FlatMapMember(codes, CategoryIIIPieces, CategoryIII(c, note));
    CategoryIIIFacts(c);
  }

  // ==================================================================== 18. diagnostic cath hierarchy


  /** One error listing the coronary angiography codes when more than one is billed. */
  function AngiographyErrors(codes: seq<string>): seq<Issue>
  {
    var angio := Filter(codes, IsCoronaryAngioCode);
    if |angio| > 1 then [AngiographyExclusive(angio)] else []
  }

  /** `checkDiagCathCodeHierarchy`: included lower cath codes, then mutually exclusive angiography codes. */
  method CheckDiagCathCodeHierarchy(entries: seq<Inclusion>, codes: seq<string>, errors: seq<Issue>) returns (errors': seq<Issue>)
    ensures errors' == errors + FlatMap(entries, InclusionPieces(DiagnosticCathFamily, codes)) + AngiographyErrors(codes)
  {
    errors' := CheckInclusions(DiagnosticCathFamily, entries, codes, errors);
    var angioCodesPresent := Filter(codes, IsCoronaryAngioCode);
    if |angioCodesPresent| > 1 {
      errors' := errors' + [AngiographyExclusive(angioCodesPresent)];
    }
  }

  /** The angiography error appears iff two different listed angiography codes are billed. */
  lemma AngiographyExclusiveIff(codes: seq<string>)
    requires NoDup(codes)
    ensures |AngiographyErrors(codes)| > 0 <==>
      exists a, b :: a in codes && b in codes && a != b && IsCoronaryAngioCode(a) && IsCoronaryAngioCode(b)
  {
    TwoSelectedIff(codes, IsCoronaryAngioCode);
  }

  /** Of distinct codes, more than one passes `p` iff two different codes pass it. */
  lemma TwoSelectedIff(codes: seq<string>, p: string -> bool)
    requires NoDup(codes)
    ensures |Filter(codes, p)| > 1 <==> exists a, b :: a in codes && b in codes && a != b && p(a) && p(b)
  {
    var selected := Filter(codes, p);
    if |selected| > 1 {
      FilterNoDup(codes, p);
      assert selected[0] in selected && selected[1] in selected;
    }
    if exists a, b :: a in codes && b in codes && a != b && p(a) && p(b) {
      var a, b :| a in codes && b in codes && a != b && p(a) && p(b);
      assert a in selected && b in selected;
      var i :| 0 <= i < |selected| && selected[i] == a;
      var j :| 0 <= j < |selected| && selected[j] == b;
      assert i != j;
    }
  }

  /** Filtering keeps a sequence duplicate-free. */
  lemma {:induction false} FilterNoDup(s: seq<string>, p: string -> bool)
    requires NoDup(s)
    ensures NoDup(Filter(s, p))
  {
    if |s| > 0 {
      FilterNoDup(s[1..], p);
      assert s[0] !in s[1..];
    }
  }

  // ==================================================================== 20. device implants


  /** `checkDeviceImplantConsistency`: one error when generator-change and de novo implant codes are billed together. */
  function DeviceImplantErrors(codes: seq<string>): (e: seq<Issue>)
    ensures |e| <= 1
    ensures |e| == 1 <==> (exists g :: g in codes && IsGeneratorChangeCode(g)) && (exists d :: d in codes && IsDeNovoImplantCode(d))
    ensures |e| == 1 ==> e[0] == GeneratorWithDeNovo(Filter(codes, IsGeneratorChangeCode), Filter(codes, IsDeNovoImplantCode))
  {
    var hasGenChange := exists c :: c in codes && IsGeneratorChangeCode(c);
    var hasDeNovo := exists c :: c in codes && IsDeNovoImplantCode(c);
    if hasGenChange && hasDeNovo then
      [GeneratorWithDeNovo(Filter(codes, IsGeneratorChangeCode), Filter(codes, IsDeNovoImplantCode))]
    else []
  }

  // ==================================================================== 21. cardioversion

  /** The cardioversion codes rule 21 warns about: all of them, once a cath or PCI code is on the charge. */
  function CardioversionWarnings(codes: seq<string>): seq<Issue>
  {
    var cvCodes := Filter(codes, IsCardioversionCode);
    if |cvCodes| > 0 && exists c :: c in codes && (IsDiagnosticCathCode(c) || IsPCICode(c)) then
      seq(|cvCodes|, i requires 0 <= i < |cvCodes| => CardioversionWithCath(cvCodes[i]))
    else []
  }

  /** `checkCardioversionBundling`. */
  method CheckCardioversionBundling(codes: seq<string>, warnings: seq<Issue>) returns (warnings': seq<Issue>)
    ensures warnings' == warnings + CardioversionWarnings(codes)
  {
    warnings' := warnings;
    var cvCodes := Filter(codes, IsCardioversionCode);
    if |cvCodes| == 0 {
      return;
    }
    var hasCathCodes := exists c :: c in codes && IsDiagnosticCathCode(c);
    var hasPCI := exists c :: c in codes && IsPCICode(c);
    if hasCathCodes || hasPCI {
      for k := 0 to |cvCodes|
        invariant warnings' == warnings + seq(k, i requires 0 <= i < k => CardioversionWithCath(cvCodes[i]))
      {
        warnings' := warnings' + [CardioversionWithCath(cvCodes[k])];
      }
    }
  }

  /** A cardioversion code is warned about iff a diagnostic cath or PCI code is on the same charge. */
  lemma CardioversionIff(codes: seq<string>, c: string)
    ensures CardioversionWithCath(c) in CardioversionWarnings(codes) <==>
      c in codes && IsCardioversionCode(c) && exists k :: k in codes && (IsDiagnosticCathCode(k) || IsPCICode(k))
  {
    var cvCodes := Filter(codes, IsCardioversionCode);
    if c in codes && IsCardioversionCode(c) && exists k :: k in codes && (IsDiagnosticCathCode(k) || IsPCICode(k)) {
      var i :| 0 <= i < |cvCodes| && cvCodes[i] == c;
      assert CardioversionWarnings(codes)[i] == CardioversionWithCath(c);
    }
  }

  // ==================================================================== 22. structural TEE


  /** `checkStructuralTEECode`: for a structural procedure, a warning for generic TEE without 93355, or for no TEE at all. */
  function StructuralTEEWarnings(codes: seq<string>): (w: seq<Issue>)
    ensures |w| <= 1
    ensures |w| == 0 <==> (forall c :: c in codes ==> !IsStructuralExpectingTEE(c)) || StructuralTEECode in codes
    ensures StructuralGenericTEE in w <==>
      (exists c :: c in codes && IsStructuralExpectingTEE(c)) && StructuralTEECode !in codes &&
      (exists g :: g in codes && IsGenericTEECode(g))
    ensures StructuralWithoutTEE in w <==>
      (exists c :: c in codes && IsStructuralExpectingTEE(c)) && StructuralTEECode !in codes &&
      (forall g :: g in codes ==> !IsGenericTEECode(g))
  {
    var hasStructural := exists c :: c in codes && IsStructuralExpectingTEE(c);
    if !hasStructural then []
    else
      var hasStructuralTEE := StructuralTEECode in codes;
      var hasGenericTEE := exists c :: c in codes && IsGenericTEECode(c);
      (if hasGenericTEE && !hasStructuralTEE then [StructuralGenericTEE] else [])
        + (if !hasStructuralTEE && !hasGenericTEE then [StructuralWithoutTEE] else [])
  }

  // ==================================================================== the within-charge pipeline

  /** The codes with their modifiers stripped (`codes.map(stripModifier)`). */
  function StripAll(codes: seq<string>): (r: seq<string>)
    ensures |r| == |codes|
    ensures forall i :: 0 <= i < |codes| ==> r[i] == StripModifier(codes[i])
  {
    seq(|codes|, i requires 0 <= i < |codes| => StripModifier(codes[i]))
  }

  /**
   * The ordered reference tables the rules walk. `validateChargeCodes` reads
   * them as module constants; the model passes them in, and
   * `StandardTables` collects the constants.
   */
  datatype RuleTables = RuleTables(
    cciPairs: seq<CciPair>,
    echoExclusions: seq<(string, string)>,
    catheterHierarchy: seq<Inclusion>,
    siPairings: map<string, seq<string>>,
    territories: seq<Territory>,
    diagnosticCathHierarchy: seq<Inclusion>,
    ablationBundles: seq<Inclusion>)

  const StandardTables := RuleTables(
    CciPairs, EchoMutualExclusionPairs, CatheterHierarchy, SICodePairings,
    PeripheralTerritories, DiagnosticCathHierarchy, AblationBundlesEPStudy)

  /** The suggestions made by rules 1 to 5. */
  function SuggestionsThroughRule5(t: RuleTables, c: seq<string>): seq<Suggestion>
  {
    var s2 := DuplicateSuggestions(c) + FlatMap(t.cciPairs, NcciSuggestionPieces(c));
    var s3 := s2 + MakeAll(EmProcedureTemplate, EmPlusProcedureAdded(s2, c));
    s3 + MakeAll(ProfTechTemplate, Filter(c, IsProfTechCode)) + FlatMap(c, LateralityPieces)
  }

  /** The suggestions made by rules 1 to 6. */
  function SuggestionsThroughRule6(t: RuleTables, c: seq<string>): seq<Suggestion>
  {
    var s5 := SuggestionsThroughRule5(t, c);
    s5 + MakeAll(DiagCathPciTemplate, DiagCathPciAdded(s5, c))
  }

  /** The warnings of rules 2 and 6. */
  function WarningsThroughRule6(t: RuleTables, c: seq<string>): seq<Issue>
  {
    FlatMap(t.cciPairs, NcciWarningPieces(c)) + DiagCathPciWarnings(DiagCathPciAdded(SuggestionsThroughRule5(t, c), c))
  }

  /** The warnings of rules 9, 11 and 12. */
  function WarningsRules9To12(t: RuleTables, c: seq<string>): seq<Issue>
  {
    CriticalCareWarnings(c) + FlatMap(t.catheterHierarchy, InclusionPieces(CatheterFamily, c))
      + FlatMap(c, SupervisionPieces(t.siPairings, c))
  }

  /** The errors of rules 7, 8, 10 and 13. */
  function ErrorsRules7To13(t: RuleTables, c: seq<string>): seq<Issue>
  {
    FlatMap(c, OrphanPieces(c)) + FlatMap(t.echoExclusions, EchoPieces(c)) + SedationErrors(c)
      + FlatMap(t.territories, TerritoryPieces(c))
  }

  /** What rules 14, 15 and 16 append to the suggestions `acc` made so far. */
  function SuggestionsRules14To16(acc: seq<Suggestion>, c: seq<string>): seq<Suggestion>
  {
    var s14 := acc + MakeAll(MultipleProcedureTemplate, MultipleProcedureAdded(acc, c));
    var s15 := s14 + MakeAll(DischargeTemplate, DischargePlusProcedureAdded(s14, c));
    s15 + MakeAll(PericardiocentesisTemplate, PericardiocentesisWithCath(c))
  }

  /** Every suggestion the pipeline makes on the stripped codes `c`. */
  function PipelineSuggestions(t: RuleTables, c: seq<string>): seq<Suggestion>
  {
    SuggestionsRules14To16(SuggestionsThroughRule6(t, c), c)
  }

  /** The warnings of rules 17, 21 and 22. */
  function WarningsRules17To22(c: seq<string>): seq<Issue>
  {
    FlatMap(c, CategoryIIIPieces) + CardioversionWarnings(c) + StructuralTEEWarnings(c)
  }

  /** The errors of rules 18, 19 and 20. */
  function ErrorsRules18To20(t: RuleTables, c: seq<string>): seq<Issue>
  {
    FlatMap(t.diagnosticCathHierarchy, InclusionPieces(DiagnosticCathFamily, c)) + AngiographyErrors(c)
      + FlatMap(t.ablationBundles, InclusionPieces(AblationFamily, c)) + DeviceImplantErrors(c)
  }

  /** What `validateChargeCodes` returns: nothing for no codes, else every rule on the stripped codes. */
  function WithinCharge(t: RuleTables, codes: seq<string>): ValidationResult
  {
    if |codes| == 0 then ValidationResult([], [], [], true)
    else
      var c := StripAll(codes);
      ValidationResult(
        PipelineSuggestions(t, c),
        WarningsThroughRule6(t, c) + WarningsRules9To12(t, c)
          + PericardiocentesisWarnings(PericardiocentesisWithCath(c)) + WarningsRules17To22(c),
        ErrorsRules7To13(t, c) + ErrorsRules18To20(t, c),
        true)
  }

  /** Rules 1 to 6, the ones that write suggestions first. */
  method SuggestionRules(t: RuleTables, c: seq<string>) returns (suggestions: seq<Suggestion>, warnings: seq<Issue>)
    ensures suggestions == SuggestionsThroughRule6(t, c)
    ensures warnings == WarningsThroughRule6(t, c)
  {
    suggestions := CheckDuplicates(c, []);
    assert suggestions == DuplicateSuggestions(c);
    suggestions, warnings := CheckNCCIEdits(t.cciPairs, c, suggestions, []);
    assert warnings == FlatMap(t.cciPairs, NcciWarningPieces(c));
    suggestions := CheckEMPlusProcedure(c, suggestions);
    suggestions := CheckProfTechSplit(c, suggestions);
    suggestions := CheckLaterality(c, suggestions);
    assert suggestions == SuggestionsThroughRule5(t, c);
    suggestions, warnings := CheckDiagCathPCI(c, suggestions, warnings);
  }

  /** Rules 7 to 13: errors and warnings only. */
  method BundlingRules(t: RuleTables, c: seq<string>) returns (warnings: seq<Issue>, errors: seq<Issue>)
    ensures warnings == WarningsRules9To12(t, c)
    ensures errors == ErrorsRules7To13(t, c)
  {
    errors := CheckAddOnOrphans(c, []);
    assert errors == FlatMap(c, OrphanPieces(c));
    errors := CheckEchoMutualExclusion(t.echoExclusions, c, errors);
    warnings := CheckCriticalCareBundling(c, []);
    assert warnings == CriticalCareWarnings(c);
    errors := CheckSedationBundling(c, errors);
    warnings := CheckInclusions(CatheterFamily, t.catheterHierarchy, c, warnings);
    warnings := CheckSIPairing(t.siPairings, c, warnings);
    errors := CheckPeripheralTerritory(t.territories, c, errors);
  }

  /** Rules 14 to 16, appending to the suggestions of rules 1 to 6. */
  method ModifierRules(c: seq<string>, suggestions: seq<Suggestion>) returns (suggestions': seq<Suggestion>, warnings: seq<Issue>)
    ensures suggestions' == SuggestionsRules14To16(suggestions, c)
    ensures warnings == PericardiocentesisWarnings(PericardiocentesisWithCath(c))
  {
    suggestions' := CheckMultipleProcedures(c, suggestions);
    suggestions' := CheckDischargePlusProcedure(c, suggestions');
    suggestions', warnings := CheckPericardiocentesisDuringCath(c, suggestions', []);
  }

  /** Rules 17 to 22: errors and warnings only. */
  method HierarchyRules(t: RuleTables, c: seq<string>) returns (warnings: seq<Issue>, errors: seq<Issue>)
    ensures warnings == WarningsRules17To22(c)
    ensures errors == ErrorsRules18To20(t, c)
  {
    warnings := CheckCategoryIIICodes(c, []);
    assert warnings == FlatMap(c, CategoryIIIPieces);
    errors := CheckDiagCathCodeHierarchy(t.diagnosticCathHierarchy, c, []);
    assert errors == FlatMap(t.diagnosticCathHierarchy, InclusionPieces(DiagnosticCathFamily, c)) + AngiographyErrors(c);
    errors := CheckInclusions(AblationFamily, t.ablationBundles, c, errors);
    errors := errors + DeviceImplantErrors(c);
    warnings := CheckCardioversionBundling(c, warnings);
    warnings := warnings + StructuralTEEWarnings(c);
  }

  /**
   * `validateChargeCodes`: the 22 within-charge rules in order over the
   * stripped codes. Each stage's pushes are appended in the order the
   * stages run, which is the order the rules push them.
   */
  method ValidateChargeCodes(t: RuleTables, codes: seq<string>) returns (r: ValidationResult)
    ensures r == WithinCharge(t, codes)
  {
    if |codes| == 0 {
      return ValidationResult([], [], [], true);
    }
    var c := StripAll(codes);
    var suggestions, warnings := SuggestionRules(t, c);
    var bundlingWarnings, errors := BundlingRules(t, c);
    var pericardiocentesisWarnings;
    suggestions, pericardiocentesisWarnings := ModifierRules(c, suggestions);
    var hierarchyWarnings, hierarchyErrors := HierarchyRules(t, c);
    r := ValidationResult(suggestions, warnings + bundlingWarnings + pericardiocentesisWarnings + hierarchyWarnings,
      errors + hierarchyErrors, true);
  }

  /** No codes: no suggestions, warnings or errors, and the result counts as scrubbed. */
  lemma EmptyChargeIsClean(t: RuleTables)
    ensures WithinCharge(t, []) == ValidationResult([], [], [], true)
    ensures GetValidationStatus(WithinCharge(t, [])) == Clean
  {
  }

  /** Stripping twice is stripping once. */
  lemma StripModifierIdempotent(code: string)
    ensures StripModifier(StripModifier(code)) == StripModifier(code)
  {
    var r := StripModifier(code);
    if r != code {
      StripModifierNoDash(r);
    }
  }

  /** Modifiers already applied to the codes do not change what the pipeline finds. */
  lemma AppliedModifiersIgnored(t: RuleTables, codes: seq<string>)
    ensures WithinCharge(t, StripAll(codes)) == WithinCharge(t, codes)
  {
    forall i | 0 <= i < |codes| ensures StripAll(StripAll(codes))[i] == StripAll(codes)[i] {
      StripModifierIdempotent(codes[i]);
    }
    assert StripAll(StripAll(codes)) == StripAll(codes);
  }

  /** Rules 1 to 6 give every E/M code of a charge with a procedure a '-25' suggestion. */
  lemma EmCoveredThroughRule6(t: RuleTables, c: seq<string>)
    ensures (exists p :: p in c && IsProcedureCode(p)) ==>
      forall e :: e in c && IsEMCode(e) ==> HasSuggestion(SuggestionsThroughRule6(t, c), e, {"-25"})
  {
    var s2 := DuplicateSuggestions(c) + FlatMap(t.cciPairs, NcciSuggestionPieces(c));
    var s3 := s2 + MakeAll(EmProcedureTemplate, EmPlusProcedureAdded(s2, c));
    var s4 := s3 + MakeAll(ProfTechTemplate, Filter(c, IsProfTechCode));
    var s5 := s4 + FlatMap(c, LateralityPieces);
    var s6 := s5 + MakeAll(DiagCathPciTemplate, DiagCathPciAdded(s5, c));
    EmPlusProcedureCovers(s2, c);
    forall e | e in c && IsEMCode(e) && HasSuggestion(s3, e, {"-25"}) ensures HasSuggestion(s6, e, {"-25"}) {
      CoveredStaysCovered(s3, MakeAll(ProfTechTemplate, Filter(c, IsProfTechCode)), e, {"-25"});
      CoveredStaysCovered(s4, FlatMap(c, LateralityPieces), e, {"-25"});
      CoveredStaysCovered(s5, MakeAll(DiagCathPciTemplate, DiagCathPciAdded(s5, c)), e, {"-25"});
    }
  }

  /** Rules 14 to 16 only append: a suggestion made earlier survives them, and rule 14's. */
  lemma LaterRulesKeep(acc: seq<Suggestion>, c: seq<string>, code: string, mods: set<string>)
    requires HasSuggestion(acc, code, mods)
    ensures HasSuggestion(acc + MakeAll(MultipleProcedureTemplate, MultipleProcedureAdded(acc, c)), code, mods)
    ensures HasSuggestion(SuggestionsRules14To16(acc, c), code, mods)
  {
    var s14 := acc + MakeAll(MultipleProcedureTemplate, MultipleProcedureAdded(acc, c));
    var s15 := s14 + MakeAll(DischargeTemplate, DischargePlusProcedureAdded(s14, c));
    CoveredStaysCovered(acc, MakeAll(MultipleProcedureTemplate, MultipleProcedureAdded(acc, c)), code, mods);
    CoveredStaysCovered(s14, MakeAll(DischargeTemplate, DischargePlusProcedureAdded(s14, c)), code, mods);
    CoveredStaysCovered(s15, MakeAll(PericardiocentesisTemplate, PericardiocentesisWithCath(c)), code, mods);
  }

  /** On a charge with a procedure code, every E/M code leaves the pipeline with a '-25' suggestion. */
  lemma EmCodesGet25(t: RuleTables, c: seq<string>)
    ensures (exists p :: p in c && IsProcedureCode(p)) ==>
      forall e :: e in c && IsEMCode(e) ==> HasSuggestion(PipelineSuggestions(t, c), e, {"-25"})
  {
    var s6 := SuggestionsThroughRule6(t, c);
    EmCoveredThroughRule6(t, c);
    forall e | e in c && IsEMCode(e) && HasSuggestion(s6, e, {"-25"})
      ensures HasSuggestion(PipelineSuggestions(t, c), e, {"-25"})
    {
      LaterRulesKeep(s6, c, e, {"-25"});
    }
  }

  /**
   * The discharge rule (15) never adds a suggestion of its own in the
   * pipeline: with a procedure, the E/M rule (3) has already covered every
   * discharge code, since discharge codes are E/M codes.
   */
  lemma DischargeRuleNeverFires(t: RuleTables, c: seq<string>)
    ensures var s6 := SuggestionsThroughRule6(t, c);
      DischargePlusProcedureAdded(s6 + MakeAll(MultipleProcedureTemplate, MultipleProcedureAdded(s6, c)), c) == []
  {
    var s6 := SuggestionsThroughRule6(t, c);
    var s14 := s6 + MakeAll(MultipleProcedureTemplate, MultipleProcedureAdded(s6, c));
    EmCoveredThroughRule6(t, c);
    if exists p :: p in c && IsProcedureCode(p) {
      forall e | e in c && IsEMCode(e) ensures HasSuggestion(s14, e, {"-25"}) {
        LaterRulesKeep(s6, c, e, {"-25"});
      }
      DischargeRuleSubsumed(s14, c);
    } else {
      DischargeNoProcedure(s14, c);
    }
  }

  /** Without a procedure code the discharge rule adds nothing. */
  lemma DischargeNoProcedure(acc: seq<Suggestion>, codes: seq<string>)
    requires forall p :: p in codes ==> !IsProcedureCode(p)
    ensures DischargePlusProcedureAdded(acc, codes) == []
  {
    FilterNonEmpty(codes, IsProcedureCode);
  }
}
