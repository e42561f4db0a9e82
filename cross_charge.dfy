/**
 * Cross-charge validation (`validateCrossChargeModifiers` in
 * src/services/modifierEngine.ts): the codes of one charge checked against
 * the codes of the patient's other charges on the same date.
 */
module CrossCharge {
  import opened Text
  import opened CodeDomains
  import opened CciEdits
  import opened ModifierEngine
  import opened ChargesService

  // ==================================================================== the other charges

  /** The current charge is skipped by id, and only when that id is given and non-empty. */
  predicate IsCurrentCharge(c: StoredCharge, currentChargeId: Option<string>)
  {
    currentChargeId.Some? && currentChargeId.value != "" && c.id == currentChargeId.value
  }

  /** The stripped codes of the other charges, in order. */
  function OtherCodes(otherCharges: seq<StoredCharge>, currentChargeId: Option<string>): seq<string>
  {
    if |otherCharges| == 0 then []
    else
      var prev := OtherCodes(otherCharges[..|otherCharges| - 1], currentChargeId);
      var c := otherCharges[|otherCharges| - 1];
      if IsCurrentCharge(c, currentChargeId) then prev else prev + [StripModifier(c.cptCode)]
  }

  /** A code comes from the other charges iff some charge that is not the current one carries it. */
  lemma {:induction false} OtherCodesMembers(otherCharges: seq<StoredCharge>, currentChargeId: Option<string>, x: string)
    ensures x in OtherCodes(otherCharges, currentChargeId) <==>
      exists c :: c in otherCharges && !IsCurrentCharge(c, currentChargeId) && StripModifier(c.cptCode) == x
  {
    if |otherCharges| > 0 {
      var p := otherCharges[..|otherCharges| - 1];
      var last := otherCharges[|otherCharges| - 1];
      OtherCodesMembers(p, currentChargeId, x);
      assert otherCharges == p + [last];
      var prev := OtherCodes(p, currentChargeId);
      if x in OtherCodes(otherCharges, currentChargeId) && x !in prev {
        assert !IsCurrentCharge(last, currentChargeId) && StripModifier(last.cptCode) == x;
      }
      if exists c :: c in otherCharges && !IsCurrentCharge(c, currentChargeId) && StripModifier(c.cptCode) == x {
        var c :| c in otherCharges && !IsCurrentCharge(c, currentChargeId) && StripModifier(c.cptCode) == x;
        if c != last {
          assert c in p;
        }
      }
    }
  }

  /** The first loop: collect the other charges' stripped codes. */
  method CollectOtherCodes(otherCharges: seq<StoredCharge>, currentChargeId: Option<string>) returns (otherCodes: seq<string>)
    ensures otherCodes == OtherCodes(otherCharges, currentChargeId)
  {
    otherCodes := [];
    for i := 0 to |otherCharges|
      invariant otherCodes == OtherCodes(otherCharges[..i], currentChargeId)
    {
      assert otherCharges[..i + 1][..i] == otherCharges[..i];
      var c := otherCharges[i];
      if !IsCurrentCharge(c, currentChargeId) {
        otherCodes := otherCodes + [StripModifier(c.cptCode)];
      }
    }
    assert otherCharges[..|otherCharges|] == otherCharges;
  }

  // ==================================================================== pushing one item per code

  function Map<T>(codes: seq<string>, f: string -> T): (r: seq<T>)
    ensures |r| == |codes| && forall i :: 0 <= i < |codes| ==> r[i] == f(codes[i])
  {
    seq(|codes|, i requires 0 <= i < |codes| => f(codes[i]))
  }

  /** A loop pushing `f(code)` for every code. */
  method PushEach<T>(acc: seq<T>, codes: seq<string>, f: string -> T) returns (acc': seq<T>)
    ensures acc' == acc + Map(codes, f)
  {
    acc' := acc;
    for i := 0 to |codes|
      invariant acc' == acc + Map(codes[..i], f)
    {
      assert Map(codes[..i + 1], f) == Map(codes[..i], f) + [f(codes[i])];
      acc' := acc' + [f(codes[i])];
    }
    assert codes[..|codes|] == codes;
  }

  // ==================================================================== 1. E/M with a procedure elsewhere

  /** The '-25' for an E/M code of this charge; a discharge code gets its own rule id. */
  function CrossEm25(code: string): (s: Suggestion)
    ensures s.code == code && s.modifier == "-25" && s.confidence == Required && s.autoApplied
    ensures s.ruleId == "cross-charge-discharge-procedure-25" <==> IsDischargeCode(code)
  {
    Suggestion(code, "-25", Required, true,
      if IsDischargeCode(code) then "cross-charge-discharge-procedure-25" else "cross-charge-em-procedure-25")
  }

  function CrossEmSuggestions(c: seq<string>, o: seq<string>): seq<Suggestion>
  {
    var em := Filter(c, IsEMCode);
    if |em| > 0 && |Filter(o, IsProcedureCode)| > 0 then Map(em, CrossEm25) else []
  }

  function SeparateEmWarning(procedures: seq<string>): string -> Issue
  {
    e => SeparateChargeEmMayNeed25(e, procedures)
  }

  function SeparateEmWarnings(c: seq<string>, o: seq<string>): seq<Issue>
  {
    var otherEm := Filter(o, IsEMCode);
    var procedures := Filter(c, IsProcedureCode);
    if |otherEm| > 0 && |procedures| > 0 then Map(otherEm, SeparateEmWarning(procedures)) else []
  }

  method CrossEmRule(c: seq<string>, o: seq<string>) returns (suggestions: seq<Suggestion>, warnings: seq<Issue>)
    ensures suggestions == CrossEmSuggestions(c, o)
    ensures warnings == SeparateEmWarnings(c, o)
  {
    var currentEm := Filter(c, IsEMCode);
    var currentProc := Filter(c, IsProcedureCode);
    var otherEm := Filter(o, IsEMCode);
    var otherProc := Filter(o, IsProcedureCode);
    suggestions := [];
    warnings := [];
    if |currentEm| > 0 && |otherProc| > 0 {
      suggestions := PushEach([], currentEm, CrossEm25);
    }
    if |otherEm| > 0 && |currentProc| > 0 {
      warnings := PushEach([], otherEm, SeparateEmWarning(currentProc));
    }
  }

  /** `Map` holds exactly the images of its codes. */
  lemma MapMember<T>(codes: seq<string>, f: string -> T, y: T)
    ensures y in Map(codes, f) <==> exists x :: x in codes && y == f(x)
  {
    if exists x :: x in codes && y == f(x) {
      var x :| x in codes && y == f(x);
      var i :| 0 <= i < |codes| && codes[i] == x;
      assert Map(codes, f)[i] == y;
    }
  }

  /**
   * With a procedure on another charge, every E/M code of this charge gets a
   * required, auto-applied '-25', and with none it gets nothing.
   */
  lemma CrossEmCoverage(c: seq<string>, o: seq<string>, e: string)
    requires e in c && IsEMCode(e)
    ensures CrossEm25(e) in CrossEmSuggestions(c, o) <==> exists p :: p in o && IsProcedureCode(p)
  {
    FilterNonEmpty(o, IsProcedureCode);
    MapMember(Filter(c, IsEMCode), CrossEm25, CrossEm25(e));
  }

  /** Rule 1 suggests '-25' only, and only for E/M codes of this charge. */
  lemma CrossEmSuggestionFacts(c: seq<string>, o: seq<string>, s: Suggestion)
    requires s in CrossEmSuggestions(c, o)
    ensures s.code in c && IsEMCode(s.code) && s.modifier == "-25"
  {
    MapMember(Filter(c, IsEMCode), CrossEm25, s);
  }

  /** The warnings of rule 1 name E/M codes of the other charges, and only when this charge has a procedure. */
  lemma SeparateEmWarningFacts(c: seq<string>, o: seq<string>, w: Issue)
    requires w in SeparateEmWarnings(c, o)
    ensures w.SeparateChargeEmMayNeed25? && w.emCode in o && IsEMCode(w.emCode)
    ensures |w.procedures| > 0 && forall p :: p in w.procedures ==> p in c && IsProcedureCode(p)
  {
    MapMember(Filter(o, IsEMCode), SeparateEmWarning(Filter(c, IsProcedureCode)), w);
  }

  // ==================================================================== 2. the same echo on two charges

  const RepeatEchoTemplate := Template("-76", Recommended, false, "cross-charge-repeat-echo-76")

  /** The current charge's echo codes that also appear among the other charges' echo codes. */
  function RepeatedEchoCodes(c: seq<string>, o: seq<string>): (r: seq<string>)
    ensures forall x :: x in r <==> x in c && IsEchoCode(x) && x in o
  {
    Filter(Filter(c, IsEchoCode), InCodes(Filter(o, IsEchoCode)))
  }

  method CrossRepeatEchoRule(c: seq<string>, o: seq<string>, suggestions: seq<Suggestion>) returns (suggestions': seq<Suggestion>)
    ensures suggestions' == suggestions + MakeAll(RepeatEchoTemplate, RepeatedEchoCodes(c, o))
  {
    var currentEcho := Filter(c, IsEchoCode);
    var otherEcho := Filter(o, IsEchoCode);
    suggestions' := SuggestEachMatching(suggestions, currentEcho, InCodes(otherEcho), RepeatEchoTemplate);
  }

  // ==================================================================== 3. NCCI pairs split across charges

  predicate Joins(p: CciPair, a: string, b: string)
  {
    (p.column1 == a && p.column2 == b) || (p.column1 == b && p.column2 == a)
  }

  /** `cciPairs.find` for a pair joining two codes in either orientation. */
  function FindPair(pairs: seq<CciPair>, a: string, b: string): (r: Option<CciPair>)
    ensures r.None? <==> forall p :: p in pairs ==> !Joins(p, a, b)
    ensures r.Some? ==> r.value in pairs && Joins(r.value, a, b)
  {
    if |pairs| == 0 then None
    else if Joins(pairs[0], a, b) then Some(pairs[0])
    else FindPair(pairs[1..], a, b)
  }

  /** The search does not depend on which code is on this charge. */
  lemma {:induction false} FindPairSymmetric(pairs: seq<CciPair>, a: string, b: string)
    ensures FindPair(pairs, a, b) == FindPair(pairs, b, a)
  {
    if |pairs| > 0 {
      FindPairSymmetric(pairs[1..], a, b);
    }
  }

  /** The code the warning is about: whichever of the two is the pair's column 2, so always column 2. */
  function ComponentCode(p: CciPair, current: string, other: string): (r: string)
    requires Joins(p, current, other)
    ensures r == p.column2
  {
    if p.column2 == current then current else if p.column2 == other then other else p.column2
  }

  /** What the inner loop pushes for one code of this charge and one code of another. */
  function CciCrossPiece(pairs: seq<CciPair>, c: seq<string>, current: string, other: string): seq<Issue>
  {
    match FindPair(pairs, current, other)
    case None => []
    case Some(p) =>
      var component := ComponentCode(p, current, other);
      if p.modifierException && component in c then [CrossChargeCci(p.column1, p.column2, component)] else []
  }

  function CciCrossPieces(pairs: seq<CciPair>, c: seq<string>, current: string): string -> seq<Issue>
  {
    other => CciCrossPiece(pairs, c, current, other)
  }

  /** What the inner loop pushes for one code of this charge. */
  function CciCrossAgainst(pairs: seq<CciPair>, c: seq<string>, current: string, o: seq<string>): seq<Issue>
  {
    FlatMap(o, CciCrossPieces(pairs, c, current))
  }

  function CciCrossRow(pairs: seq<CciPair>, c: seq<string>, o: seq<string>): string -> seq<Issue>
  {
    current => CciCrossAgainst(pairs, c, current, o)
  }

  function CciCrossWarnings(pairs: seq<CciPair>, c: seq<string>, o: seq<string>): seq<Issue>
  {
    FlatMap(c, CciCrossRow(pairs, c, o))
  }

  method CciAgainstOthers(pairs: seq<CciPair>, c: seq<string>, current: string, o: seq<string>, warnings: seq<Issue>)
    returns (warnings': seq<Issue>)
    ensures warnings' == warnings + CciCrossAgainst(pairs, c, current, o)
  {
    warnings' := warnings;
    for j := 0 to |o|
      invariant warnings' == warnings + FlatMap(o[..j], CciCrossPieces(pairs, c, current))
    {
      FlatMapStep(o, j, CciCrossPieces(pairs, c, current));
      var pair := FindPair(pairs, current, o[j]);
      if pair.Some? && pair.value.modifierException {
        var component := ComponentCode(pair.value, current, o[j]);
        if component in c {
          warnings' := warnings' + [CrossChargeCci(pair.value.column1, pair.value.column2, component)];
        }
      }
    }
    assert o[..|o|] == o;
  }

  method CrossCciRule(pairs: seq<CciPair>, c: seq<string>, o: seq<string>, warnings: seq<Issue>) returns (warnings': seq<Issue>)
    ensures warnings' == warnings + CciCrossWarnings(pairs, c, o)
  {
    warnings' := warnings;
    for i := 0 to |c|
      invariant warnings' == warnings + FlatMap(c[..i], CciCrossRow(pairs, c, o))
    {
      FlatMapStep(c, i, CciCrossRow(pairs, c, o));
      warnings' := CciAgainstOthers(pairs, c, c[i], o, warnings');
    }
    assert c[..|c|] == c;
  }

  lemma CciCrossPieceFacts(pairs: seq<CciPair>, c: seq<string>, current: string, other: string, w: Issue)
    requires w in CciCrossPieces(pairs, c, current)(other)
    ensures w.CrossChargeCci? && w.component == w.column2 && w.column2 in c && (w.column1 == current || w.column1 == other)
    ensures exists p :: p in pairs && p.column1 == w.column1 && p.column2 == w.column2 && p.modifierException
  {
    var p := FindPair(pairs, current, other).value;
    assert w == CrossChargeCci(p.column1, p.column2, p.column2);
  }

  /**
   * Every cross-charge NCCI warning is about a table pair that allows a
   * modifier, whose column-2 code is on this charge and whose column-1 code
   * is on this charge or another.
   */
  lemma CciCrossWarningFacts(pairs: seq<CciPair>, c: seq<string>, o: seq<string>, w: Issue)
    requires w in CciCrossWarnings(pairs, c, o)
    ensures w.CrossChargeCci? && w.component == w.column2 && w.column2 in c && (w.column1 in c || w.column1 in o)
    ensures exists p :: p in pairs && p.column1 == w.column1 && p.column2 == w.column2 && p.modifierException
  {
    FlatMapMember(c, CciCrossRow(pairs, c, o), w);
    var i :| 0 <= i < |c| && w in CciCrossRow(pairs, c, o)(c[i]);
    FlatMapMember(o, CciCrossPieces(pairs, c, c[i]), w);
    var j :| 0 <= j < |o| && w in CciCrossPieces(pairs, c, c[i])(o[j]);
    CciCrossPieceFacts(pairs, c, c[i], o[j], w);
  }

  /** A pair that allows a modifier, with column 1 on another charge and column 2 on this one, is always reported. */
  lemma CciCrossReported(pairs: seq<CciPair>, c: seq<string>, o: seq<string>, i: nat, j: nat)
    requires i < |c| && j < |o|
    requires FindPair(pairs, c[i], o[j]).Some?
    requires var p := FindPair(pairs, c[i], o[j]).value; p.modifierException && p.column2 == c[i]
    ensures var p := FindPair(pairs, c[i], o[j]).value; CrossChargeCci(p.column1, p.column2, p.column2) in CciCrossWarnings(pairs, c, o)
  {
    var p := FindPair(pairs, c[i], o[j]).value;
    var w := CrossChargeCci(p.column1, p.column2, p.column2);
    assert w in CciCrossPieces(pairs, c, c[i])(o[j]);
    FlatMapMember(o, CciCrossPieces(pairs, c, c[i]), w);
    FlatMapMember(c, CciCrossRow(pairs, c, o), w);
  }

  // ==================================================================== 4. exclusive echo codes across charges

  /** `echoMutualExclusionPairs.find` in either orientation. */
  function FindExclusion(exclusions: seq<(string, string)>, a: string, b: string): (r: Option<(string, string)>)
    ensures r.Some? ==> r.value in exclusions && (r.value == (a, b) || r.value == (b, a))
    ensures r.None? ==> (a, b) !in exclusions && (b, a) !in exclusions
  {
    if |exclusions| == 0 then None
    else if exclusions[0] == (a, b) || exclusions[0] == (b, a) then Some(exclusions[0])
    else FindExclusion(exclusions[1..], a, b)
  }

  /** What the inner loop pushes for one echo code of this charge and one of another. */
  function EchoCrossPiece(exclusions: seq<(string, string)>, current: string, other: string): seq<Issue>
  {
    if current == other then []
    else match FindExclusion(exclusions, current, other)
      case None => []
      case Some(x) => [CrossChargeEchoExclusive(x.0, x.1)]
  }

  function EchoCrossPieces(exclusions: seq<(string, string)>, current: string): string -> seq<Issue>
  {
    other => EchoCrossPiece(exclusions, current, other)
  }

  /** What the inner loop pushes for one echo code of this charge. */
  function EchoCrossAgainst(exclusions: seq<(string, string)>, current: string, otherEcho: seq<string>): seq<Issue>
  {
    FlatMap(otherEcho, EchoCrossPieces(exclusions, current))
  }

  function EchoCrossRow(exclusions: seq<(string, string)>, otherEcho: seq<string>): string -> seq<Issue>
  {
    current => EchoCrossAgainst(exclusions, current, otherEcho)
  }

  function EchoCrossErrors(exclusions: seq<(string, string)>, currentEcho: seq<string>, otherEcho: seq<string>): seq<Issue>
  {
    FlatMap(currentEcho, EchoCrossRow(exclusions, otherEcho))
  }

  method EchoAgainstOthers(exclusions: seq<(string, string)>, current: string, otherEcho: seq<string>, errors: seq<Issue>)
    returns (errors': seq<Issue>)
    ensures errors' == errors + EchoCrossAgainst(exclusions, current, otherEcho)
  {
    errors' := errors;
    for j := 0 to |otherEcho|
      invariant errors' == errors + FlatMap(otherEcho[..j], EchoCrossPieces(exclusions, current))
    {
      FlatMapStep(otherEcho, j, EchoCrossPieces(exclusions, current));
      var other := otherEcho[j];
      if current != other {
        var exclusion := FindExclusion(exclusions, current, other);
        if exclusion.Some? {
          errors' := errors' + [CrossChargeEchoExclusive(exclusion.value.0, exclusion.value.1)];
        }
      }
    }
    assert otherEcho[..|otherEcho|] == otherEcho;
  }

  method CrossEchoExclusionRule(exclusions: seq<(string, string)>, currentEcho: seq<string>, otherEcho: seq<string>)
    returns (errors: seq<Issue>)
    ensures errors == EchoCrossErrors(exclusions, currentEcho, otherEcho)
  {
    errors := [];
    for i := 0 to |currentEcho|
      invariant errors == FlatMap(currentEcho[..i], EchoCrossRow(exclusions, otherEcho))
    {
      FlatMapStep(currentEcho, i, EchoCrossRow(exclusions, otherEcho));
      errors := EchoAgainstOthers(exclusions, currentEcho[i], otherEcho, errors);
    }
    assert currentEcho[..|currentEcho|] == currentEcho;
  }

  lemma EchoCrossPieceFacts(exclusions: seq<(string, string)>, current: string, other: string, a: string, b: string)
    requires CrossChargeEchoExclusive(a, b) in EchoCrossPiece(exclusions, current, other)
    ensures (a, b) in exclusions && a != b && current != other
    ensures (a == current && b == other) || (a == other && b == current)
  {
  }

  /** An error names a table entry whose codes are distinct, one on this charge and one on another. */
  lemma EchoCrossErrorFacts(exclusions: seq<(string, string)>, currentEcho: seq<string>, otherEcho: seq<string>, a: string, b: string)
    requires CrossChargeEchoExclusive(a, b) in EchoCrossErrors(exclusions, currentEcho, otherEcho)
    ensures (a, b) in exclusions && a != b
    ensures (a in currentEcho && b in otherEcho) || (b in currentEcho && a in otherEcho)
  {
    var w := CrossChargeEchoExclusive(a, b);
    FlatMapMember(currentEcho, EchoCrossRow(exclusions, otherEcho), w);
    var i :| 0 <= i < |currentEcho| && w in EchoCrossRow(exclusions, otherEcho)(currentEcho[i]);
    FlatMapMember(otherEcho, EchoCrossPieces(exclusions, currentEcho[i]), w);
    var j :| 0 <= j < |otherEcho| && w in EchoCrossPieces(exclusions, currentEcho[i])(otherEcho[j]);
    EchoCrossPieceFacts(exclusions, currentEcho[i], otherEcho[j], a, b);
    assert currentEcho[i] in currentEcho && otherEcho[j] in otherEcho;
  }

  /** Two distinct codes of a table entry, one on this charge and one on another, are always reported. */
  lemma EchoCrossReported(exclusions: seq<(string, string)>, currentEcho: seq<string>, otherEcho: seq<string>, a: string, b: string)
    requires (a, b) in exclusions && a != b && a in currentEcho && b in otherEcho
    ensures FindExclusion(exclusions, a, b).Some?
    ensures var x := FindExclusion(exclusions, a, b).value;
      CrossChargeEchoExclusive(x.0, x.1) in EchoCrossErrors(exclusions, currentEcho, otherEcho)
  {
    var i :| 0 <= i < |currentEcho| && currentEcho[i] == a;
    var j :| 0 <= j < |otherEcho| && otherEcho[j] == b;
    var x := FindExclusion(exclusions, a, b).value;
    var e := CrossChargeEchoExclusive(x.0, x.1);
    assert e in EchoCrossPieces(exclusions, a)(otherEcho[j]);
    FlatMapMember(otherEcho, EchoCrossPieces(exclusions, a), e);
    assert e in EchoCrossRow(exclusions, otherEcho)(currentEcho[i]);
    FlatMapMember(currentEcho, EchoCrossRow(exclusions, otherEcho), e);
    assert e in EchoCrossErrors(exclusions, currentEcho, otherEcho);
  }

  // ==================================================================== 5. discharge with a procedure elsewhere

  const CrossDischargeTemplate := Template("-25", Required, true, "cross-charge-discharge-procedure-25")

  function CrossDischargeAdded(acc: seq<Suggestion>, c: seq<string>, o: seq<string>): seq<string>
  {
    var discharge := Filter(c, IsDischargeCode);
    if |discharge| > 0 && |Filter(o, IsProcedureCode)| > 0 then Fresh(acc, discharge, {"-25"}) else []
  }

  method CrossDischargeRule(c: seq<string>, o: seq<string>, suggestions: seq<Suggestion>) returns (suggestions': seq<Suggestion>)
    ensures suggestions' == suggestions + MakeAll(CrossDischargeTemplate, CrossDischargeAdded(suggestions, c, o))
  {
    var discharge := Filter(c, IsDischargeCode);
    var otherProc := Filter(o, IsProcedureCode);
    suggestions' := suggestions;
    if |discharge| > 0 && |otherProc| > 0 {
      var added;
      suggestions', added := SuggestOnceEach(suggestions, discharge, {"-25"}, CrossDischargeTemplate);
    }
  }

  /** An E/M code of this charge is covered by rule 1 when another charge has a procedure. */
  lemma CrossEmCovered(c: seq<string>, o: seq<string>, more: seq<Suggestion>, d: string)
    requires d in c && IsEMCode(d)
    requires |Filter(o, IsProcedureCode)| > 0
    ensures HasSuggestion(CrossEmSuggestions(c, o) + more, d, {"-25"})
  {
    FilterNonEmpty(o, IsProcedureCode);
    CrossEmCoverage(c, o, d);
    assert CrossEm25(d) in CrossEmSuggestions(c, o) + more;
  }

  /** `Fresh` is empty when every code is already covered. */
  lemma {:induction false} FreshAllCovered(acc: seq<Suggestion>, codes: seq<string>, mods: set<string>)
    requires forall x :: x in codes ==> HasSuggestion(acc, x, mods)
    ensures Fresh(acc, codes, mods) == []
  {
    if |codes| > 0 {
      FreshAllCovered(acc, codes[..|codes| - 1], mods);
      assert codes[|codes| - 1] in codes;
    }
  }

  /**
   * Rule 5 never adds anything after rule 1: a discharge code is an E/M
   * code, so rule 1 has already given it a '-25' under the same condition.
   */
  lemma CrossDischargeNeverAdds(c: seq<string>, o: seq<string>, more: seq<Suggestion>)
    ensures CrossDischargeAdded(CrossEmSuggestions(c, o) + more, c, o) == []
  {
    var acc := CrossEmSuggestions(c, o) + more;
    var discharge := Filter(c, IsDischargeCode);
    if |discharge| > 0 && |Filter(o, IsProcedureCode)| > 0 {
      forall d | d in discharge ensures HasSuggestion(acc, d, {"-25"}) {
        DischargeIsEm(d);
        CrossEmCovered(c, o, more, d);
      }
      FreshAllCovered(acc, discharge, {"-25"});
    }
  }

  lemma DischargeIsEm(d: string)
    requires IsDischargeCode(d)
    ensures IsEMCode(d)
  {
  }

  // ==================================================================== 6. pericardiocentesis with a cath elsewhere

  const CrossPericardiocentesisTemplate := Template("-59", Recommended, false, "cross-charge-pericardiocentesis-cath-59")

  function CrossPericardiocentesis(c: seq<string>, o: seq<string>): seq<string>
  {
    var peric := Filter(c, IsPericardiocentesisCode);
    if |peric| > 0 && |Filter(o, IsDiagnosticCathCode)| > 0 then peric else []
  }

  method CrossPericardiocentesisRule(c: seq<string>, o: seq<string>, suggestions: seq<Suggestion>) returns (suggestions': seq<Suggestion>)
    ensures suggestions' == suggestions + MakeAll(CrossPericardiocentesisTemplate, CrossPericardiocentesis(c, o))
  {
    var peric := Filter(c, IsPericardiocentesisCode);
    var otherCath := Filter(o, IsDiagnosticCathCode);
    suggestions' := suggestions;
    if |peric| > 0 && |otherCath| > 0 {
      suggestions' := PushEach(suggestions, peric, (code: string) => Make(CrossPericardiocentesisTemplate, code));
      assert Map(peric, (code: string) => Make(CrossPericardiocentesisTemplate, code)) == MakeAll(CrossPericardiocentesisTemplate, peric);
    }
  }

  // ==================================================================== the pass

  /** The suggestions, in push order: rules 1, 2, 5 and 6. */
  function CrossSuggestions(c: seq<string>, o: seq<string>): seq<Suggestion>
  {
    var s2 := CrossEmSuggestions(c, o) + MakeAll(RepeatEchoTemplate, RepeatedEchoCodes(c, o));
    var s5 := s2 + MakeAll(CrossDischargeTemplate, CrossDischargeAdded(s2, c, o));
    s5 + MakeAll(CrossPericardiocentesisTemplate, CrossPericardiocentesis(c, o))
  }

  /** What `validateCrossChargeModifiers` returns: nothing when no other charge remains. */
  function CrossChargeResult(t: RuleTables, currentCodes: seq<string>, otherCharges: seq<StoredCharge>, currentChargeId: Option<string>): ValidationResult
  {
    var c := StripAll(currentCodes);
    var o := OtherCodes(otherCharges, currentChargeId);
    if |o| == 0 then ValidationResult([], [], [], true) else CrossFound(t, c, o)
  }

  /** The pass over the stripped current codes `c` and the other charges' codes `o`. */
  function CrossFound(t: RuleTables, c: seq<string>, o: seq<string>): ValidationResult
  {
    ValidationResult(
      CrossSuggestions(c, o),
      SeparateEmWarnings(c, o) + CciCrossWarnings(t.cciPairs, c, o),
      EchoCrossErrors(t.echoExclusions, Filter(c, IsEchoCode), Filter(o, IsEchoCode)),
      true)
  }

  method CrossSuggestionRules(c: seq<string>, o: seq<string>, suggestions: seq<Suggestion>) returns (suggestions': seq<Suggestion>)
    ensures suggestions' == suggestions + MakeAll(CrossDischargeTemplate, CrossDischargeAdded(suggestions, c, o))
      + MakeAll(CrossPericardiocentesisTemplate, CrossPericardiocentesis(c, o))
  {
    suggestions' := CrossDischargeRule(c, o, suggestions);
    suggestions' := CrossPericardiocentesisRule(c, o, suggestions');
  }

  /** `validateCrossChargeModifiers`. */
  method ValidateCrossChargeModifiers(t: RuleTables, currentCodes: seq<string>, otherCharges: seq<StoredCharge>, currentChargeId: Option<string>)
    returns (r: ValidationResult)
    ensures r == CrossChargeResult(t, currentCodes, otherCharges, currentChargeId)
  {
    var c := StripAll(currentCodes);
    var o := CollectOtherCodes(otherCharges, currentChargeId);
    if |o| == 0 {
      return ValidationResult([], [], [], true);
    }
    var suggestions, warnings := CrossEmRule(c, o);
    suggestions := CrossRepeatEchoRule(c, o, suggestions);
    warnings := CrossCciRule(t.cciPairs, c, o, warnings);
    var errors := CrossEchoExclusionRule(t.echoExclusions, Filter(c, IsEchoCode), Filter(o, IsEchoCode));
    suggestions := CrossSuggestionRules(c, o, suggestions);
    r := ValidationResult(suggestions, warnings, errors, true);
  }

  lemma {:induction false} OtherCodesEmpty(otherCharges: seq<StoredCharge>, currentChargeId: Option<string>)
    requires forall ch :: ch in otherCharges ==> IsCurrentCharge(ch, currentChargeId)
    ensures OtherCodes(otherCharges, currentChargeId) == []
  {
    if |otherCharges| > 0 {
      var p := otherCharges[..|otherCharges| - 1];
      assert forall ch :: ch in p ==> ch in otherCharges;
      OtherCodesEmpty(p, currentChargeId);
      assert otherCharges[|otherCharges| - 1] in otherCharges;
    }
  }

  /** When every other charge is the current one (or there are none), the pass reports nothing. */
  lemma NoOtherChargesNothingReported(t: RuleTables, currentCodes: seq<string>, otherCharges: seq<StoredCharge>, currentChargeId: Option<string>)
    requires forall ch :: ch in otherCharges ==> IsCurrentCharge(ch, currentChargeId)
    ensures CrossChargeResult(t, currentCodes, otherCharges, currentChargeId) == ValidationResult([], [], [], true)
  {
    OtherCodesEmpty(otherCharges, currentChargeId);
  }

  /** With a procedure on another charge, every E/M code of this charge leaves the pass with a '-25'. */
  lemma CrossEmCodesGet25(t: RuleTables, currentCodes: seq<string>, otherCharges: seq<StoredCharge>, currentChargeId: Option<string>, e: string)
    requires e in StripAll(currentCodes) && IsEMCode(e)
    requires exists p :: p in OtherCodes(otherCharges, currentChargeId) && IsProcedureCode(p)
    ensures HasSuggestion(CrossChargeResult(t, currentCodes, otherCharges, currentChargeId).suggestions, e, {"-25"})
  {
    var c := StripAll(currentCodes);
    var o := OtherCodes(otherCharges, currentChargeId);
    CrossEmCoverage(c, o, e);
    var s2 := CrossEmSuggestions(c, o) + MakeAll(RepeatEchoTemplate, RepeatedEchoCodes(c, o));
    var s5 := s2 + MakeAll(CrossDischargeTemplate, CrossDischargeAdded(s2, c, o));
    CoveredStaysCovered(CrossEmSuggestions(c, o), MakeAll(RepeatEchoTemplate, RepeatedEchoCodes(c, o)), e, {"-25"});
    CoveredStaysCovered(s2, MakeAll(CrossDischargeTemplate, CrossDischargeAdded(s2, c, o)), e, {"-25"});
    CoveredStaysCovered(s5, MakeAll(CrossPericardiocentesisTemplate, CrossPericardiocentesis(c, o)), e, {"-25"});
  }
}
