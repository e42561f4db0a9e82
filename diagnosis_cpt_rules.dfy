/** ICD-10 to CPT medical-necessity cross-reference rules (src/data/diagnosisCptRules.ts). */
module DiagnosisCptRules {
  import opened Text

  datatype Severity = Error | Warning

  /** Which CPT codes a rule covers: a list, or an integer range matched on the code's leading integer. */
  datatype CptMatcher = Codes(codes: seq<string>) | IntRange(lo: int, hi: int)

  /** A rule; its display name and message are looked up by its id (`RuleName`, `RuleMessage`). */
  datatype DiagnosisCptRule = DiagnosisCptRule(
    id: string,
    matcher: CptMatcher,
    icd10Prefixes: seq<string>,
    severity: Severity)

  /** The result of a failed check: the rule's id and severity; its message is `RuleMessage(ruleId)`. */
  datatype DiagnosisFailure = DiagnosisFailure(ruleId: string, severity: Severity)

  const CardiacRules: seq<DiagnosisCptRule> := [
    DiagnosisCptRule(
      "pci-cad-diagnosis",
      Codes(["92920", "92924", "92928", "92930", "92933", "92937", "92943", "92945"]),
      ["I25", "I20", "I21", "I22", "I24"],
      Error),
    DiagnosisCptRule(
      "acute-mi-pci-diagnosis",
      Codes(["92941"]),
      ["I21", "I22"],
      Error),
    DiagnosisCptRule(
      "diag-cath-cardiac-diagnosis",
      Codes(["93451", "93452", "93453", "93454", "93455", "93456", "93457", "93458", "93459", "93460", "93461"]),
      ["I25", "I20", "I21", "I22", "I24", "I50", "I34", "I35", "I36", "I37", "I42", "I43", "I47", "I48", "I49", "Q20", "Q21", "Q22", "Q23", "Q24", "R00", "R07", "R55", "R94.31"],
      Warning),
    DiagnosisCptRule(
      "tavr-aortic-stenosis",
      Codes(["33361", "33362", "33363", "33364", "33365", "33366"]),
      ["I35.0", "I35.2", "I06.0", "I06.2"],
      Error),
    DiagnosisCptRule(
      "pacemaker-bradycardia",
      Codes(["33206", "33207", "33208", "33212", "33213"]),
      ["I44", "I45", "I49.5", "R00.1"],
      Error),
    DiagnosisCptRule(
      "leadless-pm-diagnosis",
      Codes(["33274", "33275"]),
      ["I44", "I45", "I49.5", "R00.1"],
      Error),
    DiagnosisCptRule(
      "icd-vt-vf-cmp",
      Codes(["33249", "33230", "33231", "33240", "33262", "33263", "33264"]),
      ["I42", "I43", "I47.2", "I49.01", "I46", "I50"],
      Error),
    DiagnosisCptRule(
      "sicd-vt-vf-diagnosis",
      Codes(["33270", "33271", "33272", "33273"]),
      ["I42", "I43", "I47.2", "I49.01", "I46", "I50"],
      Error),
    DiagnosisCptRule(
      "crt-hf-diagnosis",
      Codes(["33224", "33225", "33226"]),
      ["I50", "I42", "I43", "I25.5"],
      Error)
  ]

  const ProcedureRules: seq<DiagnosisCptRule> := [
    DiagnosisCptRule(
      "ep-ablation-arrhythmia",
      Codes(["93653", "93654", "93655", "93656", "93657"]),
      ["I47", "I48", "I49"],
      Error),
    DiagnosisCptRule(
      "cardioversion-arrhythmia",
      Codes(["92960", "92961"]),
      ["I48", "I47"],
      Warning),
    DiagnosisCptRule(
      "echo-cardiac-indication",
      Codes(["93303", "93304", "93306", "93307", "93308", "93312", "93314", "93315", "93350", "93351", "93355"]),
      ["I", "R00", "R01", "R06.0", "R07", "R55", "R94.31", "Q20", "Q21", "Q22", "Q23", "Q24", "Q25", "Q26", "Q27", "Q28", "Z01.81", "Z13.6", "Z82.4", "Z87.7"],
      Warning),
    DiagnosisCptRule(
      "structural-closure-diagnosis",
      Codes(["93580", "93581", "93582", "93583"]),
      ["Q21", "I51.0", "Q25.0"],
      Error),
    DiagnosisCptRule(
      "mitral-repair-diagnosis",
      Codes(["33418", "33419"]),
      ["I34", "I05", "I08"],
      Error),
    DiagnosisCptRule(
      "ttvr-diagnosis",
      Codes(["0569T", "0570T"]),
      ["I36", "I07", "Q22.4", "Q22.8"],
      Error),
    DiagnosisCptRule(
      "mcs-shock-hf-diagnosis",
      Codes(["33990", "33991", "33995", "33992", "33993", "33946", "33947", "33948", "33949", "33951", "33952", "33989"]),
      ["I50", "I21", "I46", "R57", "I40", "I51.4", "T86.2"],
      Error),
    DiagnosisCptRule(
      "peripheral-pvd-diagnosis",
      IntRange(37184, 37299),
      ["I70", "I73", "I74", "I77", "I80", "I82", "I87"],
      Warning),
    DiagnosisCptRule(
      "evar-aortic-diagnosis",
      Codes(["34701", "34702", "34703", "34704", "34705", "34706", "34707", "34708", "34709", "34710", "34711", "34712", "34713", "34714", "33880", "33881", "33883", "33884", "33886", "33889", "33891"]),
      ["I71", "I77.0", "I77.1"],
      Error)
  ]

  /** The display name of each rule. */
  function RuleName(id: string): string
  {
    var table := map[
      "pci-cad-diagnosis" := "PCI requires CAD/ACS diagnosis",
      "acute-mi-pci-diagnosis" := "Acute MI PCI requires STEMI/NSTEMI diagnosis",
      "diag-cath-cardiac-diagnosis" := "Diagnostic cath requires cardiac indication",
      "tavr-aortic-stenosis" := "TAVR requires aortic stenosis diagnosis",
      "pacemaker-bradycardia" := "Pacemaker requires bradycardia/conduction diagnosis",
      "leadless-pm-diagnosis" := "Leadless pacemaker requires bradycardia diagnosis",
      "icd-vt-vf-cmp" := "ICD requires VT/VF or cardiomyopathy diagnosis",
      "sicd-vt-vf-diagnosis" := "S-ICD requires VT/VF or cardiomyopathy",
      "crt-hf-diagnosis" := "CRT requires heart failure diagnosis",
      "ep-ablation-arrhythmia" := "EP ablation requires arrhythmia diagnosis",
      "cardioversion-arrhythmia" := "Cardioversion requires arrhythmia diagnosis",
      "echo-cardiac-indication" := "Echo requires cardiac indication",
      "structural-closure-diagnosis" := "Structural closure requires septal defect diagnosis",
      "mitral-repair-diagnosis" := "Mitral valve repair requires mitral valve disorder",
      "ttvr-diagnosis" := "TTVR requires tricuspid valve disorder",
      "mcs-shock-hf-diagnosis" := "MCS/ECMO requires shock or heart failure diagnosis",
      "peripheral-pvd-diagnosis" := "Peripheral intervention requires PVD diagnosis",
      "evar-aortic-diagnosis" := "EVAR/TEVAR requires aortic diagnosis"
    ];
    if id in table then table[id] else ""
  }

  /** The message reported when a rule fails. */
  function RuleMessage(id: string): string
  {
    var table := map[
      "pci-cad-diagnosis" := "PCI codes require a coronary artery disease or acute coronary syndrome diagnosis (I20-I25). Missing diagnosis is a top reason for PCI claim denial.",
      "acute-mi-pci-diagnosis" := "Acute MI PCI (92941) requires an acute myocardial infarction diagnosis (I21.x STEMI/NSTEMI or I22.x subsequent MI). Chronic CAD (I25.x) does not support 92941.",
      "diag-cath-cardiac-diagnosis" := "Diagnostic cardiac catheterization should be supported by a cardiac diagnosis. Verify ICD-10 code supports medical necessity.",
      "tavr-aortic-stenosis" := "TAVR requires an aortic stenosis diagnosis (I35.0/I35.2 nonrheumatic, I06.0/I06.2 rheumatic). Missing diagnosis will result in claim denial.",
      "pacemaker-bradycardia" := "Pacemaker implant requires a bradycardia or conduction disorder diagnosis (I44.x AV block, I45.x conduction disorder, I49.5 sick sinus, R00.1 bradycardia).",
      "leadless-pm-diagnosis" := "Leadless pacemaker requires a bradycardia or conduction disorder diagnosis.",
      "icd-vt-vf-cmp" := "ICD implant requires ventricular arrhythmia (I47.2 VT, I49.01 VF), cardiomyopathy (I42.x), cardiac arrest (I46.x), or heart failure (I50.x) diagnosis.",
      "sicd-vt-vf-diagnosis" := "S-ICD requires a ventricular arrhythmia, cardiomyopathy, or heart failure diagnosis.",
      "crt-hf-diagnosis" := "CRT implant requires heart failure (I50.x) or cardiomyopathy (I42.x) diagnosis with reduced EF documentation.",
      "ep-ablation-arrhythmia" := "EP ablation requires an arrhythmia diagnosis (I47.x paroxysmal tachycardia, I48.x atrial fibrillation/flutter, I49.x other arrhythmias).",
      "cardioversion-arrhythmia" := "Cardioversion should be supported by an arrhythmia diagnosis (I48.x atrial fibrillation/flutter, I47.x paroxysmal tachycardia).",
      "echo-cardiac-indication" := "Echocardiogram should be supported by a cardiac diagnosis or symptom code. Verify ICD-10 supports medical necessity.",
      "structural-closure-diagnosis" := "Structural closure (ASD/PFO/VSD) requires a septal defect diagnosis (Q21.x congenital, I51.0 acquired ASD).",
      "mitral-repair-diagnosis" := "Mitral valve repair requires a mitral valve disorder diagnosis (I34.x nonrheumatic, I05.x rheumatic).",
      "ttvr-diagnosis" := "Transcatheter tricuspid valve repair requires a tricuspid valve disorder diagnosis (I36.x nonrheumatic, I07.x rheumatic, Q22.4 congenital).",
      "mcs-shock-hf-diagnosis" := "Mechanical circulatory support requires cardiogenic shock (R57.0), heart failure (I50.x), acute MI (I21.x), or cardiac arrest (I46.x) diagnosis.",
      "peripheral-pvd-diagnosis" := "Peripheral vascular intervention should be supported by a vascular disease diagnosis (I70.x atherosclerosis, I73.x PVD, I74.x embolism).",
      "evar-aortic-diagnosis" := "Endovascular aortic repair requires an aortic aneurysm (I71.x) or aortic dissection diagnosis."
    ];
    if id in table then table[id] else ""
  }

  /** The rules in priority order: only the first rule covering a code is consulted. */
  const DiagnosisCptRules: seq<DiagnosisCptRule> := CardiacRules + ProcedureRules

  /** Whether a rule covers a code; a range rule uses the code's leading integer, as `parseInt` does. */
  predicate Applies(rule: DiagnosisCptRule, code: string)
  {
    match rule.matcher
    case Codes(cs) => code in cs
    case IntRange(lo, hi) => ParseInt(code).Some? && lo <= ParseInt(code).value <= hi
  }

  predicate MatchesSomePrefix(dx: string, prefixes: seq<string>)
  {
    exists j :: 0 <= j < |prefixes| && StartsWith(dx, prefixes[j])
  }

  /** Some diagnosis starts with one of the prefixes. */
  predicate HasMatch(diagnoses: seq<string>, prefixes: seq<string>)
  {
    exists k :: 0 <= k < |diagnoses| && MatchesSomePrefix(diagnoses[k], prefixes)
  }

  /** Rule `i` covers the code and no diagnosis satisfies it. */
  predicate FailsAt(rules: seq<DiagnosisCptRule>, i: int, code: string, diagnoses: seq<string>)
  {
    0 <= i < |rules| && Applies(rules[i], code) && !HasMatch(diagnoses, rules[i].icd10Prefixes)
  }

  function FailureOf(rule: DiagnosisCptRule): (f: DiagnosisFailure)
    ensures f.ruleId == rule.id && f.severity == rule.severity
  {
    DiagnosisFailure(rule.id, rule.severity)
  }

  /** Rule `i` covers the code and no rule before it does. */
  predicate FirstCovering(rules: seq<DiagnosisCptRule>, i: int, code: string)
  {
    0 <= i < |rules| && Applies(rules[i], code) && forall j :: 0 <= j < i ==> !Applies(rules[j], code)
  }

  /** The verdict of the first rule covering the code, or `None` when no rule covers it. */
  function FirstRuleVerdict(rules: seq<DiagnosisCptRule>, code: string, diagnoses: seq<string>)
    : (r: Option<DiagnosisFailure>)
    ensures r.Some? ==> exists i :: FirstCovering(rules, i, code) && FailsAt(rules, i, code, diagnoses)
                                  && r.value == FailureOf(rules[i])
  {
    if |rules| == 0 then None
    else if Applies(rules[0], code) then
      if HasMatch(diagnoses, rules[0].icd10Prefixes) then None
      else
        assert FirstCovering(rules, 0, code);
        Some(FailureOf(rules[0]))
    else
      var r := FirstRuleVerdict(rules[1..], code, diagnoses);
      assert r.Some? ==> exists i :: FirstCovering(rules, i, code) && FailsAt(rules, i, code, diagnoses)
                                     && r.value == FailureOf(rules[i]) by {
        if r.Some? {
          var i :| FirstCovering(rules[1..], i, code) && FailsAt(rules[1..], i, code, diagnoses)
                   && r.value == FailureOf(rules[1..][i]);
          assert rules[1..][i] == rules[i + 1];
          assert forall j :: 1 <= j < i + 1 ==> rules[j] == rules[1..][j - 1];
          assert FirstCovering(rules, i + 1, code);
          assert FailsAt(rules, i + 1, code, diagnoses);
        }
      }
      r
  }

  /** Checks one CPT code against its diagnoses; `None` means no issue. */
  function ValidateDiagnosisCpt(code: string, diagnoses: seq<string>): (r: Option<DiagnosisFailure>)
    ensures |diagnoses| == 0 ==> r.None?
    ensures r.Some? ==> exists i :: FirstCovering(DiagnosisCptRules, i, code)
                                 && FailsAt(DiagnosisCptRules, i, code, diagnoses)
                                 && r.value == FailureOf(DiagnosisCptRules[i])
  {
    if |diagnoses| == 0 then None else FirstRuleVerdict(DiagnosisCptRules, code, diagnoses)
  }

  /** The first covering rule alone decides: it fails exactly when no diagnosis carries one of its prefixes. */
  lemma {:induction false} FirstRuleDecides(rules: seq<DiagnosisCptRule>, code: string, diagnoses: seq<string>, i: nat)
    requires i < |rules| && Applies(rules[i], code)
    requires forall j :: 0 <= j < i ==> !Applies(rules[j], code)
    ensures FirstRuleVerdict(rules, code, diagnoses) ==
      (if HasMatch(diagnoses, rules[i].icd10Prefixes) then None else Some(FailureOf(rules[i])))
  {
    if i > 0 {
      assert !Applies(rules[0], code);
      FirstRuleDecides(rules[1..], code, diagnoses, i - 1);
    }
  }

  /** A code covered by no rule never fails. */
  lemma {:induction false} UncoveredCodePasses(rules: seq<DiagnosisCptRule>, code: string, diagnoses: seq<string>)
    requires forall j :: 0 <= j < |rules| ==> !Applies(rules[j], code)
    ensures FirstRuleVerdict(rules, code, diagnoses).None?
  {
    if |rules| > 0 {
      assert !Applies(rules[0], code);
      UncoveredCodePasses(rules[1..], code, diagnoses);
    }
  }

  /** Acute-MI PCI '92941' is absent from the elective PCI rule and covered by the acute-MI rule. */
  lemma AcuteMIPciIsJudgedBySecondRule(diagnoses: seq<string>)
    requires |diagnoses| > 0
    ensures ValidateDiagnosisCpt("92941", diagnoses) ==
      (if HasMatch(diagnoses, ["I21", "I22"]) then None else Some(FailureOf(CardiacRules[1])))
  {
    var rules := DiagnosisCptRules;
    assert rules[0] == CardiacRules[0] && rules[1] == CardiacRules[1];
    assert !Applies(rules[0], "92941");
    assert Applies(rules[1], "92941");
    FirstRuleDecides(rules, "92941", diagnoses, 1);
  }

  lemma ChronicCADIsNotAcuteMI()
    ensures !HasMatch(["I25.10"], ["I21", "I22"])
  {
    assert !StartsWith("I25.10", "I21") by { assert "I25.10"[..3] == "I25"; }
    assert !StartsWith("I25.10", "I22") by { assert "I25.10"[..3] == "I25"; }
    assert !MatchesSomePrefix("I25.10", ["I21", "I22"]);
    assert ["I25.10"][0] == "I25.10";
  }

  lemma AcuteMIMatches()
    ensures HasMatch(["I21.4"], ["I21", "I22"])
  {
    var ps := ["I21", "I22"];
    assert StartsWith("I21.4", ps[0]) by { assert "I21.4"[..3] == "I21"; }
    assert MatchesSomePrefix("I21.4", ps);
    assert ["I21.4"][0] == "I21.4";
  }

  /** So chronic CAD ('I25.10') alone fails '92941', while an acute MI ('I21.4') supports it. */
  lemma AcuteMIPciRejectsChronicCAD()
    ensures ValidateDiagnosisCpt("92941", ["I25.10"]) == Some(FailureOf(CardiacRules[1]))
    ensures ValidateDiagnosisCpt("92941", ["I21.4"]).None?
  {
    AcuteMIPciIsJudgedBySecondRule(["I25.10"]);
    ChronicCADIsNotAcuteMI();
    AcuteMIPciIsJudgedBySecondRule(["I21.4"]);
    AcuteMIMatches();
  }

  /** '37228' is listed by none of the rules before the peripheral rule. */
  lemma TibialStentNotListedEarlier()
    ensures forall j :: 0 <= j < 16 ==> !Applies(DiagnosisCptRules[j], "37228")
  {
    CardiacRulesSkipTibialStent();
    EarlyProcedureRulesSkipTibialStent();
    assert |CardiacRules| == 9;
    forall j | 0 <= j < 16 ensures !Applies(DiagnosisCptRules[j], "37228") {
      if j < 9 {
        assert DiagnosisCptRules[j] == CardiacRules[j];
      } else {
        assert DiagnosisCptRules[j] == ProcedureRules[j - 9];
      }
    }
  }

  lemma CardiacRulesSkipTibialStent()
    ensures forall j :: 0 <= j < |CardiacRules| ==> !Applies(CardiacRules[j], "37228")
  {
  }

  lemma EarlyProcedureRulesSkipTibialStent()
    ensures forall j :: 0 <= j < 7 ==> !Applies(ProcedureRules[j], "37228")
  {
  }

  /** The peripheral rule covers '37228' through its integer range, not through a code list. */
  lemma TibialStentInPeripheralRange()
    ensures DiagnosisCptRules[16] == ProcedureRules[7]
    ensures ProcedureRules[7].matcher == IntRange(37184, 37299)
    ensures Applies(DiagnosisCptRules[16], "37228")
  {
    assert "37228" == "37228" + "";
    assert DigitsValue("37228") == 37228 by {
      assert "37228"[..4] == "3722";
      assert "3722"[..3] == "372";
      assert "372"[..2] == "37";
      assert "37"[..1] == "3";
    }
    ParseIntPrefix("37228", "");
  }

  /** A peripheral intervention code is judged by the vascular-disease prefixes. */
  lemma PeripheralCodeJudgedByRange(diagnoses: seq<string>)
    requires |diagnoses| > 0
    ensures ValidateDiagnosisCpt("37228", diagnoses) ==
      (if HasMatch(diagnoses, ProcedureRules[7].icd10Prefixes) then None else Some(FailureOf(ProcedureRules[7])))
  {
    TibialStentNotListedEarlier();
    TibialStentInPeripheralRange();
    FirstRuleDecides(DiagnosisCptRules, "37228", diagnoses, 16);
  }
}
