/** National Correct Coding Initiative pair edits for cardiology codes (src/data/cciEdits.ts). */
module CciEdits {
  datatype CciCategory = CathPci | EchoBundle | EpBundle | EmProcedure | Peripheral

  /** A comprehensive code (column 1) that bundles a component code (column 2); the description text is not modelled. */
  datatype CciPair = CciPair(
    column1: string,
    column2: string,
    modifierException: bool,
    category: CciCategory)

  /** A reported pair; every CCI violation is a warning and never blocks submission. */
  datatype CciViolation = CciViolation(
    column1Code: string,
    column2Code: string,
    modifierException: bool)

  // Cath / PCI bundles
  const CathPciPairs: seq<CciPair> := [
    CciPair("93458", "93454", false, CathPci),
    CciPair("93459", "93454", false, CathPci),
    CciPair("93459", "93455", false, CathPci),
    CciPair("93459", "93456", false, CathPci),
    CciPair("93459", "93457", false, CathPci),
    CciPair("93459", "93458", false, CathPci),
    CciPair("92928", "92920", false, CathPci),
    CciPair("92933", "92920", false, CathPci),
    CciPair("92937", "92920", false, CathPci),
    CciPair("92928", "92924", true, CathPci),
    CciPair("92941", "92920", false, CathPci),
    CciPair("92941", "92928", true, CathPci),
    CciPair("93458", "93452", false, CathPci),
    CciPair("93460", "93452", false, CathPci),
    CciPair("93460", "93453", false, CathPci),
    CciPair("93461", "93452", false, CathPci),
    CciPair("93461", "93453", false, CathPci)
  ]

  // Echo bundles
  const EchoPairs: seq<CciPair> := [
    CciPair("93306", "93320", false, EchoBundle),
    CciPair("93306", "93321", false, EchoBundle),
    CciPair("93306", "93325", false, EchoBundle),
    CciPair("93312", "93320", false, EchoBundle),
    CciPair("93312", "93325", false, EchoBundle),
    CciPair("93314", "93312", false, EchoBundle),
    CciPair("93351", "93350", false, EchoBundle),
    CciPair("93351", "93320", false, EchoBundle),
    CciPair("93351", "93325", false, EchoBundle),
    CciPair("93303", "93304", false, EchoBundle),
    CciPair("93306", "93304", false, EchoBundle)
  ]

  // EP bundles
  const EpPairs: seq<CciPair> := [
    CciPair("93620", "93600", false, EpBundle),
    CciPair("93620", "93602", false, EpBundle),
    CciPair("93620", "93603", false, EpBundle),
    CciPair("93620", "93610", false, EpBundle),
    CciPair("93620", "93612", false, EpBundle),
    CciPair("93653", "93620", false, EpBundle),
    CciPair("93654", "93620", false, EpBundle),
    CciPair("93656", "93620", false, EpBundle),
    CciPair("93656", "93621", false, EpBundle),
    CciPair("93656", "93622", false, EpBundle),
    CciPair("93653", "93600", false, EpBundle),
    CciPair("93654", "93600", false, EpBundle)
  ]

  // E/M + procedure bundles
  const EmProcedurePairs: seq<CciPair> := [
    CciPair("99291", "99232", true, EmProcedure),
    CciPair("99291", "99233", true, EmProcedure),
    CciPair("99291", "99231", true, EmProcedure),
    CciPair("99291", "93458", true, EmProcedure),
    CciPair("99291", "93459", true, EmProcedure),
    CciPair("99291", "92928", true, EmProcedure),
    CciPair("99291", "33967", true, EmProcedure),
    CciPair("99291", "33990", true, EmProcedure)
  ]

  // Peripheral bundles
  const PeripheralPairs: seq<CciPair> := [
    CciPair("37228", "37226", true, Peripheral),
    CciPair("37229", "37226", true, Peripheral),
    CciPair("37230", "37228", true, Peripheral),
    CciPair("36247", "36245", true, Peripheral),
    CciPair("36247", "36246", true, Peripheral),
    CciPair("36248", "36246", true, Peripheral)
  ]

  /** The pair table, in source order. */
  const CciPairs: seq<CciPair> := CathPciPairs + EchoPairs + EpPairs + EmProcedurePairs + PeripheralPairs

  /** A pair applies when both of its codes are selected. */
  predicate PairApplies(p: CciPair, selected: seq<string>)
  {
    p.column1 in selected && p.column2 in selected
  }

  function ViolationOf(p: CciPair): (v: CciViolation)
    ensures v.column1Code == p.column1 && v.column2Code == p.column2
    ensures v.modifierException == p.modifierException
  {
    CciViolation(p.column1, p.column2, p.modifierException)
  }

  /** The violations of the applying pairs, in table order. */
  function Violations(pairs: seq<CciPair>, selected: seq<string>): (vs: seq<CciViolation>)
    ensures |vs| <= |pairs|
  {
    if |pairs| == 0 then []
    else
      var last := pairs[|pairs| - 1];
      Violations(pairs[..|pairs| - 1], selected)
      + (if PairApplies(last, selected) then [ViolationOf(last)] else [])
  }

  /** Checks the selected codes against every pair in table order. */
  method ValidateCCIEdits(selected: seq<string>) returns (violations: seq<CciViolation>)
    ensures violations == Violations(CciPairs, selected)
  {
    violations := CollectViolations(CciPairs, selected);
  }

  /** The loop of `validateCCIEdits` over a pair table, in table order. */
  method CollectViolations(pairs: seq<CciPair>, selected: seq<string>) returns (violations: seq<CciViolation>)
    ensures violations == Violations(pairs, selected)
  {
    violations := [];
    var i := 0;
    while i < |pairs|
      invariant 0 <= i <= |pairs|
      invariant violations == Violations(pairs[..i], selected)
    {
      var pair := pairs[i];
      if pair.column1 in selected && pair.column2 in selected {
        violations := violations + [ViolationOf(pair)];
      }
      assert pairs[..i + 1][..i] == pairs[..i];
      i := i + 1;
    }
    assert pairs[..i] == pairs;
  }

  /** A violation is reported exactly for each applying pair, and each copies its pair's fields. */
  lemma {:induction false} ViolationsIff(pairs: seq<CciPair>, selected: seq<string>, v: CciViolation)
    ensures v in Violations(pairs, selected) <==>
      exists p :: p in pairs && PairApplies(p, selected) && v == ViolationOf(p)
  {
    if |pairs| > 0 {
      var init := pairs[..|pairs| - 1];
      var last := pairs[|pairs| - 1];
      ViolationsIff(init, selected, v);
      assert pairs == init + [last];
      if exists p :: p in pairs && PairApplies(p, selected) && v == ViolationOf(p) {
        var p :| p in pairs && PairApplies(p, selected) && v == ViolationOf(p);
        if p != last {
          assert p in init;
        }
      }
    }
  }

  /** Only which codes are selected matters: repeating or reordering codes changes nothing. */
  lemma {:induction false} ViolationsDependOnSetOnly(pairs: seq<CciPair>, a: seq<string>, b: seq<string>)
    requires forall c :: c in a <==> c in b
    ensures Violations(pairs, a) == Violations(pairs, b)
  {
    if |pairs| > 0 {
      ViolationsDependOnSetOnly(pairs[..|pairs| - 1], a, b);
    }
  }

  /** Appending pairs appends their violations. */
  lemma {:induction false} ViolationsAppend(p: seq<CciPair>, q: seq<CciPair>, selected: seq<string>)
    ensures Violations(p + q, selected) == Violations(p, selected) + Violations(q, selected)
    decreases |q|
  {
    if |q| == 0 {
      assert p + q == p;
    } else {
      var n := |q|;
      assert (p + q)[..|p + q| - 1] == p + q[..n - 1];
      assert (p + q)[|p + q| - 1] == q[n - 1];
      ViolationsAppend(p, q[..n - 1], selected);
    }
  }

  predicate NoSelfPairs(pairs: seq<CciPair>)
  {
    forall i :: 0 <= i < |pairs| ==> pairs[i].column1 != pairs[i].column2
  }

  /** No pair of the table names the same code twice. */
  lemma TableHasNoSelfPairs()
    ensures NoSelfPairs(CciPairs)
  {
    CathPciHasNoSelfPairs();
    OtherTablesHaveNoSelfPairs();
    NoSelfPairsAppend(CathPciPairs, EchoPairs);
    NoSelfPairsAppend(CathPciPairs + EchoPairs, EpPairs);
    NoSelfPairsAppend(CathPciPairs + EchoPairs + EpPairs, EmProcedurePairs);
    NoSelfPairsAppend(CathPciPairs + EchoPairs + EpPairs + EmProcedurePairs, PeripheralPairs);
  }

  lemma CathPciHasNoSelfPairs()
    ensures NoSelfPairs(CathPciPairs)
  {
  }

  lemma OtherTablesHaveNoSelfPairs()
    ensures NoSelfPairs(EchoPairs) && NoSelfPairs(EpPairs) && NoSelfPairs(EmProcedurePairs) && NoSelfPairs(PeripheralPairs)
  {
  }

  lemma NoSelfPairsAppend(p: seq<CciPair>, q: seq<CciPair>)
    requires NoSelfPairs(p) && NoSelfPairs(q)
    ensures NoSelfPairs(p + q)
  {
    forall i | 0 <= i < |p + q| ensures (p + q)[i].column1 != (p + q)[i].column2 {
      if i >= |p| {
        assert (p + q)[i] == q[i - |p|];
      }
    }
  }

  /** Without pairs of a single code, an input with at most one distinct code yields nothing. */
  lemma {:induction false} NoViolationsForOneCode(pairs: seq<CciPair>, selected: seq<string>)
    requires NoSelfPairs(pairs)
    requires forall x, y :: x in selected && y in selected ==> x == y
    ensures Violations(pairs, selected) == []
  {
    if |pairs| > 0 {
      NoViolationsForOneCode(pairs[..|pairs| - 1], selected);
    }
  }

  /** An empty or single-code selection never triggers a CCI edit. */
  lemma EmptyOrSingleIsClean(code: string)
    ensures Violations(CciPairs, []) == []
    ensures Violations(CciPairs, [code]) == []
  {
    TableHasNoSelfPairs();
    NoViolationsForOneCode(CciPairs, []);
    NoViolationsForOneCode(CciPairs, [code]);
  }

  /** When a single pair applies, the result is that pair's violation alone. */
  lemma {:induction false} SingleApplyingPair(pairs: seq<CciPair>, selected: seq<string>, k: nat)
    requires k < |pairs| && PairApplies(pairs[k], selected)
    requires forall i :: 0 <= i < |pairs| && i != k ==> !PairApplies(pairs[i], selected)
    ensures Violations(pairs, selected) == [ViolationOf(pairs[k])]
  {
    var n := |pairs|;
    if k == n - 1 {
      NoViolationsForNone(pairs[..n - 1], selected);
    } else {
      SingleApplyingPair(pairs[..n - 1], selected, k);
    }
  }

  lemma {:induction false} NoViolationsForNone(pairs: seq<CciPair>, selected: seq<string>)
    requires forall i :: 0 <= i < |pairs| ==> !PairApplies(pairs[i], selected)
    ensures Violations(pairs, selected) == []
  {
    if |pairs| > 0 {
      NoViolationsForNone(pairs[..|pairs| - 1], selected);
    }
  }

  const StentWithAtherectomy: seq<string> := ["92928", "92924"]

  lemma StentWithAtherectomyCathPci()
    ensures Violations(CathPciPairs, StentWithAtherectomy) == [ViolationOf(CathPciPairs[9])]
  {
    assert forall i :: 0 <= i < |CathPciPairs| && i != 9 ==> !PairApplies(CathPciPairs[i], StentWithAtherectomy);
    SingleApplyingPair(CathPciPairs, StentWithAtherectomy, 9);
  }

  lemma StentWithAtherectomyEcho()
    ensures Violations(EchoPairs, StentWithAtherectomy) == []
  {
    NoViolationsForNone(EchoPairs, StentWithAtherectomy);
  }

  lemma StentWithAtherectomyEp()
    ensures Violations(EpPairs, StentWithAtherectomy) == []
  {
    NoViolationsForNone(EpPairs, StentWithAtherectomy);
  }

  lemma StentWithAtherectomyEm()
    ensures Violations(EmProcedurePairs, StentWithAtherectomy) == []
  {
    NoViolationsForNone(EmProcedurePairs, StentWithAtherectomy);
  }

  lemma StentWithAtherectomyPeripheral()
    ensures Violations(PeripheralPairs, StentWithAtherectomy) == []
  {
    NoViolationsForNone(PeripheralPairs, StentWithAtherectomy);
  }

  /** The stent/atherectomy pair: '92928' bundles '92924', with a modifier exception. */
  lemma StentPairFields()
    ensures CathPciPairs[9].column1 == "92928" && CathPciPairs[9].column2 == "92924" && CathPciPairs[9].modifierException
  {
  }

  /** Stent PCI with atherectomy PTCA ('92928', '92924') gives exactly one violation, the stent pair's. */
  lemma StentWithAtherectomyExample()
    ensures Violations(CciPairs, StentWithAtherectomy) == [ViolationOf(CathPciPairs[9])]
  {
    StentWithAtherectomyCathPci();
    StentWithAtherectomyEcho();
    StentWithAtherectomyEp();
    StentWithAtherectomyEm();
    StentWithAtherectomyPeripheral();
    ViolationsOfFiveTables(CathPciPairs, EchoPairs, EpPairs, EmProcedurePairs, PeripheralPairs, StentWithAtherectomy);
  }

  /** The violations of the joined tables are those of each table in turn. */
  lemma ViolationsOfFiveTables(a: seq<CciPair>, b: seq<CciPair>, c: seq<CciPair>, d: seq<CciPair>, e: seq<CciPair>, selected: seq<string>)
    ensures Violations(a + b + c + d + e, selected)
      == Violations(a, selected) + Violations(b, selected) + Violations(c, selected) + Violations(d, selected) + Violations(e, selected)
  {
    ViolationsAppend(a, b, selected);
    ViolationsAppend(a + b, c, selected);
    ViolationsAppend(a + b + c, d, selected);
    ViolationsAppend(a + b + c + d, e, selected);
  }
}
