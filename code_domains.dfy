/**
 * Classification of CPT codes into clinical domains, and the code tables the
 * modifier engine reads (src/data/codeDomains.ts).
 */
module CodeDomains {
  import opened Text

  datatype CodeDomain =
    | Em | Echo | DiagnosticCath | Pci | Ep | PeripheralDx | PeripheralInt | Structural | Mcs | Misc

  // ==================================================================== E/M

  predicate IsSpecificEMCode(code: string)
  {
    code in {
      "99221", "99222", "99223", "99231", "99232", "99233", "99224", "99225", "99226",
      "99238", "99239", "99251", "99252", "99253", "99254", "99255", "99291", "99292",
      "99354", "99355", "99356", "99357", "99417"
    }
  }

  const EMRangeMin := 99202
  const EMRangeMax := 99499

  /** An E/M code: a listed inpatient code, or one whose leading integer lies in the E/M range. */
  predicate IsEMCode(code: string)
  {
    IsSpecificEMCode(code)
    || (ParseInt(code).Some? && EMRangeMin <= ParseInt(code).value <= EMRangeMax)
  }

  /** A code whose leading digits are in 99202..99499 is E/M whatever follows them. */
  lemma EMByLeadingDigits(d: string, rest: string)
    requires |d| > 0 && AllDigits(d) && (|rest| == 0 || !IsDigit(rest[0]))
    requires EMRangeMin <= DigitsValue(d) <= EMRangeMax
    ensures IsEMCode(d + rest)
  {
    ParseIntPrefix(d, rest);
  }

  /** '99232-25' is an E/M code: its integer prefix is 99232. */
  lemma EMWithModifier()
    ensures IsEMCode("99232-25")
  {
    assert "99232-25" == "99232" + "-25";
    assert DigitsValue("99232") == 99232 by {
      assert "99232"[..4] == "9923";
      assert "9923"[..3] == "992";
      assert "992"[..2] == "99";
      assert "99"[..1] == "9";
    }
    EMByLeadingDigits("99232", "-25");
  }

  /** '0913T' is not an E/M code: its integer prefix is 913. */
  lemma CategoryIIINotEM()
    ensures !IsEMCode("0913T")
  {
    assert !IsSpecificEMCode("0913T") by {
      assert "0913T"[0] == '0';
    }
    assert "0913T" == "0913" + "T";
    assert DigitsValue("0913") == 913 by {
      assert "0913"[..3] == "091";
      assert "091"[..2] == "09";
      assert "09"[..1] == "0";
    }
    ParseIntPrefix("0913", "T");
  }

  // ==================================================================== procedure sets

  predicate IsDiagnosticCathCode(code: string)
  {
    code in {
      "93451", "93452", "93453", "93454", "93455", "93456", "93457", "93458", "93459", "93460", "93461"
    }
  }

  predicate IsPCICode(code: string)
  {
    code in {
      "92920", "92924", "92928", "92930", "92933", "92937", "92941", "92943", "92945",
      "0913T", "0914T", "92972", "92973", "92974", "92978", "92979", "93571", "93572", "0523T", "0524T"
    }
  }

  predicate IsEchoCode(code: string)
  {
    code in {
      "93306", "93307", "93308", "93303", "93304", "93320", "93321", "93325", "93352", "93356",
      "76376", "76377", "93312", "93313", "93314", "93315", "93316", "93317", "93318", "93355",
      "93350", "93351", "93662", "92960", "92961"
    }
  }

  predicate IsEPCode(code: string)
  {
    code in {
      "93600", "93602", "93603", "93609", "93610", "93612", "93613",
      "93618", "93619", "93620", "93621", "93622", "93623", "93624",
      "93631", "93640", "93641", "93642",
      "93650", "93653", "93654", "93655", "93656", "93657",
      "33206", "33207", "33208", "33212", "33213", "33227", "33228", "33229",
      "33249", "33230", "33231", "33240", "33262", "33263", "33264",
      "33224", "33225", "33226", "33274", "33275", "33270", "33271", "33272", "33273",
      "33214", "33215", "33216", "33217", "33218", "33220", "33221", "33222", "33223",
      "33234", "33235", "33241", "33244", "33285", "33286", "95921", "95922", "95924"
    }
  }

  predicate IsPeripheralDxCode(code: string)
  {
    code in {
      "36200", "36245", "36246", "36247", "36248", "36215", "36216", "36217",
      "36010", "36011", "36012", "75600", "75605", "75625", "75630", "75676", "75680",
      "75710", "75716", "75722", "75724", "75726", "75736", "75774",
      "75820", "75822", "75825", "75827",
      "36221", "36222", "36223", "36224", "36225", "36226", "36227", "36228"
    }
  }

  predicate IsPeripheralIntCode(code: string)
  {
    code in {
      "37254", "37255", "37256", "37257", "37258", "37259", "37260", "37261", "37262",
      "37263", "37264", "37265", "37266", "37267", "37268", "37269", "37270",
      "37271", "37272", "37273", "37274", "37275", "37276", "37277", "37278", "37279",
      "37280", "37281", "37282", "37283", "37284", "37285", "37286", "37287",
      "37288", "37289", "37290", "37291", "37292", "37293", "37294", "37295",
      "37296", "37297", "37298", "37299",
      "37246", "37247", "37248", "37249", "0338T", "0339T",
      "37220", "37221", "37236", "37237", "37215", "37216", "37217", "37218",
      "37191", "37192", "37193", "37238", "37239", "37187", "37188",
      "37211", "37212", "37213", "37214", "37184", "37185", "37186",
      "37241", "37242", "37226", "37227", "37197"
    }
  }

  predicate IsStructuralCode(code: string)
  {
    code in {
      "33361", "33362", "33363", "33364", "33365", "33366", "33367", "33368", "33369",
      "92986", "92987", "92990", "93580", "93581", "93582", "93583", "93590", "93591",
      "33340", "33418", "33419", "0569T", "0570T",
      "34701", "34702", "34703", "34704", "34705", "34706", "34707", "34708", "34709",
      "34710", "34711", "34712", "34713", "34714", "34808", "34812", "34820", "34833", "34834",
      "34717", "34718", "0254T", "0255T",
      "33880", "33881", "33883", "33884", "33886", "33889", "33891"
    }
  }

  predicate IsMcsCode(code: string)
  {
    code in {
      "33990", "33991", "33995", "33992", "33993",
      "33946", "33947", "33948", "33949", "33951", "33952", "33989"
    }
  }

  /** Membership in one of the procedure tables (every domain except E/M and miscellaneous). */
  predicate InProcedureTable(code: string)
  {
    IsEchoCode(code) || IsDiagnosticCathCode(code) || IsPCICode(code) || IsEPCode(code)
    || IsPeripheralDxCode(code) || IsPeripheralIntCode(code) || IsStructuralCode(code) || IsMcsCode(code)
  }

  /** The domain of a code, by a fixed priority cascade; adjunctive and unknown codes are `Misc`. */
  function GetCodeDomain(code: string): (d: CodeDomain)
    ensures d == Em <==> IsEMCode(code)
    ensures d == Misc <==> !IsEMCode(code) && !InProcedureTable(code)
    ensures d == Echo <==> !IsEMCode(code) && IsEchoCode(code)
    ensures d == Pci ==> IsPCICode(code) && !IsDiagnosticCathCode(code)
  {
    if IsEMCode(code) then Em
    else if IsEchoCode(code) then Echo
    else if IsDiagnosticCathCode(code) then DiagnosticCath
    else if IsPCICode(code) then Pci
    else if IsEPCode(code) then Ep
    else if IsPeripheralDxCode(code) then PeripheralDx
    else if IsPeripheralIntCode(code) then PeripheralInt
    else if IsStructuralCode(code) then Structural
    else if IsMcsCode(code) then Mcs
    else Misc
  }

  /** A procedure code: neither E/M nor miscellaneous. */
  predicate IsProcedureCode(code: string)
  {
    var d := GetCodeDomain(code);
    d != Em && d != Misc
  }

  /** A procedure code is exactly a non-E/M code found in one of the procedure tables; so no E/M code is a procedure. */
  lemma ProcedureCodeIff(code: string)
    ensures IsProcedureCode(code) <==> !IsEMCode(code) && InProcedureTable(code)
    ensures IsEMCode(code) ==> !IsProcedureCode(code)
  {
  }


  // ==================================================================== modifier-related sets

  predicate IsProfTechCode(code: string)
  {
    code in {
      "93306", "93307", "93308", "93303", "93304", "93320", "93321", "93325",
      "93312", "93314", "93315", "93317", "93350", "93351",
      "75600", "75605", "75625", "75630", "75676", "75680",
      "75710", "75716", "75722", "75724", "75726", "75736", "75774",
      "75820", "75822", "75825", "75827", "76376", "76377"
    }
  }

  predicate IsBilateralCode(code: string)
  {
    code in {"75716", "75724", "0339T", "75822"}
  }

  predicate IsLateralityCode(code: string)
  {
    code in {"93451", "93452", "75710", "75722", "75820", "0338T"}
  }

  /** An echo interpretation code: split-billable and an echo code. */
  predicate IsInterpretationCode(code: string)
  {
    IsProfTechCode(code) && IsEchoCode(code)
  }

  /** A code that does not start with "99" and is not a listed E/M code is not E/M. */
  lemma NotNinetyNineIsNotEM(code: string)
    requires |code| == 5 && AllDigits(code)
    requires code[0] != '9' || code[1] != '9'
    requires !IsSpecificEMCode(code)
    ensures !IsEMCode(code)
  {
    ParseIntPrefix(code, "");
    assert code + "" == code;
    DigitsFiveBelow(code);
  }

  lemma DigitsFiveBelow(code: string)
    requires |code| == 5 && AllDigits(code)
    requires code[0] != '9' || code[1] != '9'
    ensures DigitsValue(code) < 99000
  {
    var a := code[..4];
    var b := a[..3];
    var c := b[..2];
    var e := c[..1];
    assert e[..0] == [];
    assert DigitsValue(e) == DigitValue(code[0]);
    assert DigitsValue(c) == DigitValue(code[0]) * 10 + DigitValue(code[1]);
    assert DigitsValue(b) == DigitsValue(c) * 10 + DigitValue(code[2]);
    assert DigitsValue(a) == DigitsValue(b) * 10 + DigitValue(code[3]);
    assert DigitsValue(code) == DigitsValue(a) * 10 + DigitValue(code[4]);
  }

  // ==================================================================== add-on codes

  const PciBase: seq<string> :=
    ["92920", "92924", "92928", "92930", "92933", "92937", "92941", "92943", "92945"]
  const DiagCathAll: seq<string> :=
    ["93451", "93452", "93453", "93454", "93455", "93456", "93457", "93458", "93459", "93460", "93461"]
  const EchoBase: seq<string> :=
    ["93303", "93304", "93306", "93307", "93308", "93312", "93314", "93315"]
  const EpAddOnBase: seq<string> := ["93619", "93620", "93653", "93654", "93656"]
  const CathAddOnBase: seq<string> :=
    ["93451", "93452", "93453", "93458", "93459", "93460", "93461"]

  /** Each add-on code and the primary codes one of which must accompany it. */
  function AddOnEntry(code: string): Option<seq<string>>
  {
    var table := map[
      "92972" := PciBase, "92973" := PciBase, "92974" := PciBase,
      "0914T" := ["92920", "92924", "92928", "92930", "92933", "0913T"],
      "92978" := PciBase + DiagCathAll, "93571" := PciBase + DiagCathAll, "0523T" := PciBase + DiagCathAll,
      "92979" := ["92978"], "93572" := ["93571"], "0524T" := ["0523T"],
      "93320" := EchoBase, "93321" := EchoBase, "93325" := EchoBase + ["93350", "93351"],
      "93352" := ["93306", "93303", "93304", "93312", "93314", "93350", "93351"],
      "93356" := ["93306", "93303", "93304"],
      "76376" := ["93306", "93303", "93312", "93314"], "76377" := ["93306", "93303", "93312", "93314"],
      "93313" := ["93312", "93314"], "93316" := ["93315"], "93317" := ["93315"],
      "93318" := ["93312", "93314", "93315"], "93355" := ["93312", "93314"],
      "93621" := EpAddOnBase, "93622" := EpAddOnBase, "93623" := EpAddOnBase,
      "93655" := ["93653", "93654", "93656"], "93657" := ["93656"],
      "93662" := ["93653", "93654", "93656", "93619", "93620", "93580", "93581", "93582", "93590", "33340",
                  "33361", "33362", "33363", "33364", "33365", "33366", "33418", "33419", "0569T"],
      "93462" := CathAddOnBase, "93463" := CathAddOnBase, "93464" := CathAddOnBase,
      "93566" := CathAddOnBase, "93567" := CathAddOnBase, "93568" := CathAddOnBase,
      "99292" := ["99291"], "99355" := ["99354"], "99357" := ["99356"],
      "33225" := ["33206", "33207", "33208", "33224", "33249"]
    ];
    if code in table then Some(table[code]) else None
  }

  /** An add-on code: a key of the add-on table. */
  predicate IsAddOnCode(code: string) { AddOnEntry(code).Some? }

  /** The primaries an add-on needs; empty for a code that is not an add-on. */
  function RequiredPrimaries(code: string): (ps: seq<string>)
    ensures IsAddOnCode(code) <==> |ps| > 0
  {
    match AddOnEntry(code)
    case Some(ps) => ps
    case None => []
  }

  // ==================================================================== global periods

  /** The global period of a code, or `None` (undefined) when the table has no entry. */
  function GetGlobalPeriod(code: string): Option<nat>
  {
    var table: map<string, nat> := map[
      "33206" := 90, "33207" := 90, "33208" := 90, "33212" := 90, "33213" := 90,
      "33227" := 90, "33228" := 90, "33229" := 90,
      "33249" := 90, "33230" := 90, "33231" := 90, "33240" := 90,
      "33262" := 90, "33263" := 90, "33264" := 90, "33224" := 90, "33225" := 90, "33226" := 90,
      "33274" := 90, "33275" := 90, "33270" := 90, "33271" := 90, "33272" := 90, "33273" := 90,
      "33361" := 90, "33362" := 90, "33363" := 90, "33364" := 90, "33365" := 90, "33366" := 90,
      "34701" := 90, "34702" := 90, "34703" := 90, "34704" := 90, "34705" := 90, "34706" := 90,
      "33880" := 90, "33881" := 90, "33883" := 90, "33884" := 90, "33886" := 90,
      "33234" := 90, "33235" := 90, "33241" := 90, "33244" := 90,
      "33214" := 90, "33215" := 90, "33216" := 90, "33217" := 90,
      "33218" := 90, "33220" := 90, "33221" := 90, "33222" := 90, "33223" := 90,
      "33285" := 10, "33286" := 10, "33016" := 0, "33017" := 0, "33340" := 0
    ];
    if code in table then Some(table[code]) else None
  }

  // ==================================================================== special sets

  predicate IsDischargeCode(code: string)
  {
    code in {"99238", "99239"}
  }
  predicate IsCriticalCareCode(code: string)
  {
    code in {"99291", "99292"}
  }
  predicate IsPericardiocentesisCode(code: string)
  {
    code in {"33016", "33017"}
  }
  predicate IsSedationCode(code: string)
  {
    code in {"99152", "99153", "99155", "99156", "99157"}
  }


  // ==================================================================== Category III

  /** Exactly four digits followed by 'T' (`/^\d{4}T$/`). */
  predicate IsCategoryIIICode(code: string)
  {
    |code| == 5 && AllDigits(code[..4]) && code[4] == 'T'
  }

  /** Category III codes with a specific payer note. */
  predicate HasCategoryIIINote(code: string)
  {
    code in {
      "0913T", "0914T", "0523T", "0524T", "0338T", "0339T", "0569T", "0570T", "0254T", "0255T"
    }
  }

  /** Every code with a payer note is a Category III code; a five-digit code never is. */
  lemma CategoryIIIFacts(code: string)
    ensures HasCategoryIIINote(code) ==> IsCategoryIIICode(code)
    ensures |code| == 5 && AllDigits(code) ==> !IsCategoryIIICode(code)
  {
  }

  // ==================================================================== ordered rule tables

  const EchoMutualExclusionPairs: seq<(string, string)> := [
    ("93306", "93307"), ("93306", "93303"), ("93303", "93304"), ("93306", "93304"),
    ("93350", "93351"), ("93312", "93314"), ("93306", "93350"), ("93306", "93351"),
    ("93307", "93350"), ("93307", "93351"), ("93303", "93350"), ("93303", "93351"),
    ("93304", "93351")
  ]

  predicate IsCriticalCareBundled(code: string)
  {
    code in {"93503", "92950", "36000", "36140", "36410", "36600"}
  }

  predicate IsSedationInherentProcedure(code: string)
  {
    code in {
      "93451", "93452", "93453", "93454", "93455", "93456", "93457", "93458", "93459", "93460", "93461",
      "92920", "92924", "92928", "92930", "92933", "92937", "92941", "92943", "92945",
      "93653", "93654", "93656", "93619", "93620",
      "33206", "33207", "33208", "33212", "33213", "33249", "33230", "33231", "33240",
      "33262", "33263", "33264", "33270", "33271", "33274", "33275",
      "93312", "93314", "93315", "92960", "92961",
      "33361", "33362", "33363", "33364", "33365", "33366",
      "93580", "93581", "93582", "93583", "93590", "93591", "33340",
      "33990", "33991", "33995", "33946", "33947", "92986", "92987", "92990",
      "37220", "37221", "37224", "37225", "37226", "37227", "37228", "37229",
      "37230", "37231", "37236", "37237", "37238", "37239"
    }
  }

  /** A higher-order code and the lower-order codes it includes. */
  datatype Inclusion = Inclusion(higher: string, includes: seq<string>)

  const CatheterHierarchy: seq<Inclusion> := [
    Inclusion("36247", ["36245", "36246"]), Inclusion("36246", ["36245"]),
    Inclusion("36224", ["36222", "36223"]), Inclusion("36223", ["36222"]),
    Inclusion("36217", ["36215", "36216"]), Inclusion("36216", ["36215"]),
    Inclusion("36012", ["36010", "36011"]), Inclusion("36011", ["36010"])
  ]

  const ArchCaths: seq<string> := ["36200", "36245", "36246", "36247"]
  const ExtremityCaths: seq<string> := ["36245", "36246", "36247", "36248"]
  const SelectiveCaths: seq<string> := ["36245", "36246", "36247"]
  const CerebralCaths: seq<string> := ["36222", "36223", "36224", "36225", "36226", "36227", "36228"]
  const VenousCaths: seq<string> := ["36010", "36011", "36012"]

  /** Supervision-and-interpretation codes and the catheter placements that must accompany them. */
  const SICodePairings: map<string, seq<string>> := map[
    "75600" := ArchCaths, "75605" := ArchCaths, "75625" := ArchCaths, "75630" := ArchCaths,
    "75710" := ExtremityCaths, "75716" := ExtremityCaths,
    "75722" := SelectiveCaths, "75724" := SelectiveCaths, "75726" := SelectiveCaths, "75736" := SelectiveCaths,
    "75676" := CerebralCaths, "75680" := CerebralCaths,
    "75820" := VenousCaths, "75822" := VenousCaths, "75825" := VenousCaths, "75827" := VenousCaths,
    "75774" := ExtremityCaths
  ]

  /** A 2026 peripheral territory: its primary codes and its add-on codes. */
  datatype Territory = Territory(name: string, primary: seq<string>, addOn: seq<string>)

  const PeripheralTerritories: seq<Territory> := [
    Territory("Iliac", ["37254", "37256", "37258", "37260"], ["37255", "37257", "37259", "37261", "37262"]),
    Territory("Femoral/Popliteal",
      ["37263", "37265", "37267", "37269", "37271", "37273", "37275", "37277"],
      ["37264", "37266", "37268", "37270", "37272", "37274", "37276", "37278", "37279"]),
    Territory("Tibial/Peroneal",
      ["37280", "37282", "37284", "37286", "37288", "37290", "37292", "37294"],
      ["37281", "37283", "37285", "37287", "37289", "37291", "37293", "37295"]),
    Territory("Inframalleolar", ["37296", "37298"], ["37297", "37299"])
  ]

  const DiagnosticCathHierarchy: seq<Inclusion> := [
    Inclusion("93453", ["93451", "93452"]),
    Inclusion("93456", ["93454", "93451"]),
    Inclusion("93457", ["93454", "93451", "93455", "93456"]),
    Inclusion("93458", ["93454", "93452"]),
    Inclusion("93459", ["93454", "93452", "93455", "93458"]),
    Inclusion("93460", ["93454", "93451", "93452", "93453", "93456", "93458"]),
    Inclusion("93461", ["93454", "93451", "93452", "93453", "93455", "93456", "93457", "93458", "93459", "93460"])
  ]

  predicate IsCoronaryAngioCode(code: string)
  {
    code in {"93454", "93455", "93456", "93457", "93458", "93459", "93460", "93461"}
  }

  const AblationBundlesEPStudy: seq<Inclusion> := [
    Inclusion("93653", ["93619", "93620", "93600"]),
    Inclusion("93654", ["93619", "93620", "93600"]),
    Inclusion("93656", ["93619", "93620", "93621", "93622"])
  ]

  const AblationCodes: set<string> := {"93653", "93654", "93655", "93656", "93657"}
  const EPStudyCodes: set<string> := {"93619", "93620"}
  predicate IsGeneratorChangeCode(code: string)
  {
    code in {"33227", "33228", "33229", "33262", "33263", "33264", "33230", "33231"}
  }
  predicate IsDeNovoImplantCode(code: string)
  {
    code in {"33206", "33207", "33208", "33240", "33249", "33274"}
  }
  const StructuralTEECode := "93355"
  predicate IsGenericTEECode(code: string)
  {
    code in {"93312", "93314", "93315"}
  }
  predicate IsStructuralExpectingTEE(code: string)
  {
    code in {
      "33361", "33362", "33363", "33364", "33365", "33366", "93580", "93581", "93582",
      "33340", "93590", "33418", "33419", "0569T", "0570T"
    }
  }
  const IntravascularImagingCodes: set<string> := {"92978", "92979", "93571", "93572", "0523T", "0524T"}
  predicate IsCardioversionCode(code: string)
  {
    code in {"92960", "92961"}
  }

}
