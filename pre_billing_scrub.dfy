/**
 * `preBillingScrub` in src/services/modifierEngine.ts: every stored charge
 * validated on its own and against the patient's other charges of the same
 * date, then the cross-date global-period check, duplicate-record detection
 * and the high-volume alert, all appended to one result record per charge id.
 */
module PreBillingScrub {
  import opened Text
  import opened CodeDomains
  import opened ModifierEngine
  import opened ChargesService
  import opened CrossCharge

  /** The result records, keyed by charge id (a `Map<string, ValidationResult>`). */
  type Results = map<string, ValidationResult>

  /** A (patient, date) key. */
  type Visit = (string, int)

  /** An append to one charge's result record. */
  type Update = (ValidationResult, StoredCharge) -> ValidationResult

  /**
   * The code classification the scrub consults: a code's global period, and
   * whether it is an E/M, procedure or add-on code. `Standard` is the app's.
   */
  datatype Classifier = Classifier(
    globalPeriod: string -> Option<nat>,
    isEm: string -> bool,
    isProcedure: string -> bool,
    isAddOn: string -> bool)

  const Standard := Classifier(GetGlobalPeriod, IsEMCode, IsProcedureCode, IsAddOnCode)

  function ChargeId(c: StoredCharge): string { c.id }
  function PatientKey(c: StoredCharge): string { c.inpatientId }
  function VisitKey(c: StoredCharge): (string, int) { (c.inpatientId, c.chargeDate) }
  function ChargeCode(c: StoredCharge): string { StripModifier(c.cptCode) }

  /** The (patient, date) keys in first-appearance order, and one key's charges in order. */
  function VisitKeys(charges: seq<StoredCharge>): seq<(string, int)> { Dedup(KeysOf(charges, VisitKey)) }
  function VisitGroup(charges: seq<StoredCharge>, k: (string, int)): seq<StoredCharge> { Filter(charges, HasKey(VisitKey, k)) }

  /** The patients in first-appearance order, and one patient's charges in order. */
  function PatientIds(charges: seq<StoredCharge>): seq<string> { Dedup(KeysOf(charges, PatientKey)) }
  function PatientCharges(charges: seq<StoredCharge>, p: string): seq<StoredCharge> { Filter(charges, HasKey(PatientKey, p)) }

  /** The charges under one key when `cond` holds for the key, none otherwise. */
  function CondGroups<K(==,!new)>(charges: seq<StoredCharge>, key: StoredCharge -> K, cond: K -> bool): K -> seq<StoredCharge>
  {
    k => if cond(k) then Filter(charges, HasKey(key, k)) else []
  }

  // ==================================================================== appending to result records

  /** `results.get(charge.id)`, and when it exists, the appends `f` makes to it. */
  function UpdateAt(results: Results, c: StoredCharge, f: Update): Results
  {
    if c.id in results then results[c.id := f(results[c.id], c)] else results
  }

  /** `UpdateAt` for every charge of `scope`, in order. */
  function UpdateEach(results: Results, scope: seq<StoredCharge>, f: Update): Results
  {
    if |scope| == 0 then results
    else UpdateAt(UpdateEach(results, scope[..|scope| - 1], f), scope[|scope| - 1], f)
  }

  /** The appends `f` makes for each of `cs`, one after another, to one record. */
  function Iterate(r: ValidationResult, cs: seq<StoredCharge>, f: Update): ValidationResult
  {
    if |cs| == 0 then r else f(Iterate(r, cs[..|cs| - 1], f), cs[|cs| - 1])
  }

  /**
   * Each record receives exactly the appends for the charges of `scope` that
   * carry its id, in order; no record is added or removed.
   */
  lemma {:induction false} UpdateEachAt(results: Results, scope: seq<StoredCharge>, f: Update, x: string)
    ensures x in UpdateEach(results, scope, f) <==> x in results
    ensures x in results ==> UpdateEach(results, scope, f)[x] == Iterate(results[x], Filter(scope, HasKey(ChargeId, x)), f)
  {
    if |scope| > 0 {
      var p := scope[..|scope| - 1];
      var c := scope[|scope| - 1];
      UpdateEachAt(results, p, f, x);
      assert scope == p + [c];
      FilterSnoc(p, c, HasKey(ChargeId, x));
      assert HasKey(ChargeId, x)(c) <==> ChargeId(c) == x;
      if x in results {
        var fp := Filter(p, HasKey(ChargeId, x));
        var before := UpdateEach(results, p, f);
        if c.id == x {
          assert Filter(scope, HasKey(ChargeId, x)) == fp + [c];
          assert (fp + [c])[..|fp + [c]| - 1] == fp;
          assert UpdateEach(results, scope, f)[x] == f(before[x], c);
        } else {
          assert Filter(scope, HasKey(ChargeId, x)) == fp;
          assert UpdateEach(results, scope, f)[x] == before[x];
        }
      }
    }
  }

  /** A loop over `scope` appending to each charge's record is `UpdateEach`, one step at a time. */
  lemma UpdateEachStep(results: Results, scope: seq<StoredCharge>, i: nat, f: Update)
    requires i < |scope|
    ensures UpdateEach(results, scope[..i + 1], f) == UpdateAt(UpdateEach(results, scope[..i], f), scope[i], f)
  {
    assert scope[..i + 1][..i] == scope[..i];
  }

  /** Appending for two scopes one after the other is appending for their concatenation. */
  lemma {:induction false} UpdateEachAppend(results: Results, a: seq<StoredCharge>, b: seq<StoredCharge>, f: Update)
    ensures UpdateEach(UpdateEach(results, a, f), b, f) == UpdateEach(results, a + b, f)
  {
    if |b| > 0 {
      UpdateEachAppend(results, a, b[..|b| - 1], f);
      assert (a + b)[..|a + b| - 1] == a + b[..|b| - 1];
    } else {
      assert a + b == a;
    }
  }

  /** A pass over groups one key at a time appends each group's charges in turn. */
  lemma UpdateGroupsStep<K>(results: Results, keys: seq<K>, k: nat, g: K -> seq<StoredCharge>, f: Update)
    requires k < |keys|
    ensures UpdateEach(results, FlatMap(keys[..k + 1], g), f) == UpdateEach(UpdateEach(results, FlatMap(keys[..k], g), f), g(keys[k]), f)
  {
    FlatMapStep(keys, k, g);
    UpdateEachAppend(results, FlatMap(keys[..k], g), g(keys[k]), f);
  }

  // ==================================================================== the charge with a given id

  /** Without duplicate ids, the only charge with `c`'s id is `c`. */
  lemma {:induction false} OnlyChargeWithId(s: seq<StoredCharge>, c: StoredCharge)
    requires DistinctIds(s) && c in s
    ensures Filter(s, HasKey(ChargeId, c.id)) == [c]
  {
    var p := HasKey(ChargeId, c.id);
    assert p(s[0]) <==> ChargeId(s[0]) == c.id;
    HeadIdUnique(s);
    if s[0] == c {
      forall y | y in s[1..] ensures !p(y) {
        assert p(y) <==> ChargeId(y) == c.id;
      }
      FilterNone(s[1..], p);
    } else {
      assert c in s[1..] by {
        assert s == [s[0]] + s[1..];
      }
      assert DistinctIds(s[1..]);
      OnlyChargeWithId(s[1..], c);
    }
  }

  /**
   * Filtering a flat map of groups by an id sees only the group under `k0`
   * when no other group holds a charge with that id.
   */
  lemma {:induction false} FilterIdOneGroup<K>(keys: seq<K>, g: K -> seq<StoredCharge>, x: string, k0: K)
    requires NoDup(keys) && k0 in keys
    requires forall k :: k in keys && k != k0 ==> forall c :: c in g(k) ==> c.id != x
    ensures Filter(FlatMap(keys, g), HasKey(ChargeId, x)) == Filter(g(k0), HasKey(ChargeId, x))
  {
    var p := keys[..|keys| - 1];
    var last := keys[|keys| - 1];
    assert keys == p + [last];
    FilterAppend(FlatMap(p, g), g(last), HasKey(ChargeId, x));
    if last == k0 {
      assert k0 !in p;
      forall c | c in FlatMap(p, g) ensures c.id != x {
        FlatMapMember(p, g, c);
        var i :| 0 <= i < |p| && c in g(p[i]);
      }
      FilterNone(FlatMap(p, g), HasKey(ChargeId, x));
    } else {
      FilterIdOneGroup(p, g, x, k0);
      FilterNone(g(last), HasKey(ChargeId, x));
    }
  }

  /**
   * Without duplicate ids, a pass over the groups of `keys` that visits a
   * group only when `cond` holds for its key reaches `c` exactly once if its
   * key passes and never otherwise.
   */
  lemma CondGroupsReach<K(!new)>(charges: seq<StoredCharge>, key: StoredCharge -> K, cond: K -> bool, c: StoredCharge)
    requires DistinctIds(charges) && c in charges
    ensures Filter(FlatMap(Dedup(KeysOf(charges, key)), CondGroups(charges, key, cond)), HasKey(ChargeId, c.id))
      == if cond(key(c)) then [c] else []
  {
    var keys := Dedup(KeysOf(charges, key));
    var g := CondGroups(charges, key, cond);
    var i :| 0 <= i < |charges| && charges[i] == c;
    assert KeysOf(charges, key)[i] == key(c);
    forall k | k in keys && k != key(c) ensures forall y :: y in g(k) ==> y.id != c.id {
      forall y | y in g(k) ensures y.id != c.id {
        var j :| 0 <= j < |charges| && charges[j] == y;
      }
    }
    FilterIdOneGroup(keys, g, c.id, key(c));
    if cond(key(c)) {
      FilterKeepsDistinctIds(charges, HasKey(key, key(c)));
      OnlyChargeWithId(Filter(charges, HasKey(key, key(c))), c);
    }
  }

  // ==================================================================== 1. each charge on its own and within its visit

  /** The within-charge and cross-charge results concatenated. */
  function Merge(within: ValidationResult, cross: ValidationResult): ValidationResult
  {
    ValidationResult(within.suggestions + cross.suggestions, within.warnings + cross.warnings, within.errors + cross.errors, true)
  }

  /** The first record of a charge: its own code, and its code against the rest of its (patient, date) group. */
  function BaseResult(t: RuleTables, charges: seq<StoredCharge>, c: StoredCharge): ValidationResult
  {
    Merge(WithinCharge(t, [c.cptCode]), CrossChargeResult(t, [c.cptCode], VisitGroup(charges, VisitKey(c)), Some(c.id)))
  }

  function BaseOf(t: RuleTables, charges: seq<StoredCharge>): StoredCharge -> ValidationResult
  {
    c => BaseResult(t, charges, c)
  }

  /** `results.set(charge.id, ...)` for every charge of `scope`: a later charge with the same id overwrites. */
  function BaseResults(scope: seq<StoredCharge>, base: StoredCharge -> ValidationResult): Results
  {
    if |scope| == 0 then map[]
    else BaseResults(scope[..|scope| - 1], base)[scope[|scope| - 1].id := base(scope[|scope| - 1])]
  }

  /** The records are keyed by exactly the charge ids; without duplicate ids each holds its charge's result. */
  lemma {:induction false} BaseResultsAt(scope: seq<StoredCharge>, base: StoredCharge -> ValidationResult, x: string)
    ensures x in BaseResults(scope, base) <==> exists c :: c in scope && c.id == x
    ensures forall c :: DistinctIds(scope) && c in scope && c.id == x ==> BaseResults(scope, base)[x] == base(c)
  {
    if |scope| > 0 {
      var p := scope[..|scope| - 1];
      var last := scope[|scope| - 1];
      BaseResultsAt(p, base, x);
      assert scope == p + [last];
      forall c | DistinctIds(scope) && c in scope && c.id == x ensures BaseResults(scope, base)[x] == base(c) {
        if c != last {
          var i :| 0 <= i < |scope| && scope[i] == c;
          assert i < |p|;
          assert DistinctIds(p);
        }
      }
    }
  }

  /** `results.set` for one more charge. */
  lemma BaseResultsStep(scope: seq<StoredCharge>, i: nat, base: StoredCharge -> ValidationResult)
    requires i < |scope|
    ensures BaseResults(scope[..i + 1], base) == BaseResults(scope[..i], base)[scope[i].id := base(scope[i])]
  {
    assert scope[..i + 1][..i] == scope[..i];
  }

  /** One charge's first record, from the two validators. */
  method BaseFor(t: RuleTables, charges: seq<StoredCharge>, group: seq<StoredCharge>, c: StoredCharge) returns (r: ValidationResult)
    requires group == VisitGroup(charges, VisitKey(c))
    ensures r == BaseOf(t, charges)(c)
  {
    var within := ValidateChargeCodes(t, [c.cptCode]);
    var cross := ValidateCrossChargeModifiers(t, [c.cptCode], group, Some(c.id));
    r := Merge(within, cross);
  }

  method BaseResultsLoop(t: RuleTables, charges: seq<StoredCharge>, groups: map<(string, int), seq<StoredCharge>>)
    returns (results: Results)
    requires forall c :: c in charges ==> VisitKey(c) in groups && groups[VisitKey(c)] == VisitGroup(charges, VisitKey(c))
    ensures results == BaseResults(charges, BaseOf(t, charges))
  {
    results := map[];
    for i := 0 to |charges|
      invariant results == BaseResults(charges[..i], BaseOf(t, charges))
    {
      var c := charges[i];
      BaseResultsStep(charges, i, BaseOf(t, charges));
      var r := BaseFor(t, charges, groups[VisitKey(c)], c);
      results := results[c.id := r];
    }
    assert charges[..|charges|] == charges;
  }

  // ==================================================================== 2. global periods across dates

  /** A procedure charge whose code carries a global period, and that period in days. */
  datatype GlobalProcedure = GlobalProcedure(charge: StoredCharge, globalDays: nat)

  /** The global period of a charge's code when it is a non-zero period of a procedure code. */
  function GlobalDaysOf(kinds: Classifier, c: StoredCharge): (r: Option<nat>)
    ensures r.Some? <==> kinds.globalPeriod(ChargeCode(c)).Some? && kinds.globalPeriod(ChargeCode(c)).value > 0 && kinds.isProcedure(ChargeCode(c))
    ensures r.Some? ==> r == kinds.globalPeriod(ChargeCode(c))
  {
    var code := ChargeCode(c);
    match kinds.globalPeriod(code)
    case Some(gp) => if gp > 0 && kinds.isProcedure(code) then Some(gp) else None
    case None => None
  }

  /** `procedureChargesWithGlobal`, in the patient's charge order. */
  function ProceduresWithGlobal(kinds: Classifier, pCharges: seq<StoredCharge>): seq<GlobalProcedure>
  {
    if |pCharges| == 0 then []
    else
      var p := pCharges[..|pCharges| - 1];
      var c := pCharges[|pCharges| - 1];
      var prev := ProceduresWithGlobal(kinds, p);
      match GlobalDaysOf(kinds, c)
      case Some(gp) => prev + [GlobalProcedure(c, gp)]
      case None => prev
  }

  /** The list holds exactly the patient's procedures that have a global period, each with its days. */
  lemma {:induction false} ProceduresWithGlobalMembers(kinds: Classifier, pCharges: seq<StoredCharge>)
    ensures forall g :: g in ProceduresWithGlobal(kinds, pCharges) <==> g.charge in pCharges && GlobalDaysOf(kinds, g.charge) == Some(g.globalDays)
  {
    if |pCharges| > 0 {
      var p := pCharges[..|pCharges| - 1];
      assert pCharges == p + [pCharges[|pCharges| - 1]];
      ProceduresWithGlobalMembers(kinds, p);
    }
  }

  method CollectProceduresWithGlobal(kinds: Classifier, pCharges: seq<StoredCharge>) returns (procs: seq<GlobalProcedure>)
    ensures procs == ProceduresWithGlobal(kinds, pCharges)
  {
    procs := [];
    for i := 0 to |pCharges|
      invariant procs == ProceduresWithGlobal(kinds, pCharges[..i])
    {
      assert pCharges[..i + 1][..i] == pCharges[..i];
      var gp := GlobalDaysOf(kinds, pCharges[i]);
      if gp.Some? {
        procs := procs + [GlobalProcedure(pCharges[i], gp.value)];
      }
    }
    assert pCharges[..|pCharges|] == pCharges;
  }

  const MsPerDay := 86400000

  /**
   * The day count as the scrub computes it: the two dates are read as local
   * midnights, and the millisecond gap is floored to whole days. Across the
   * start of daylight saving time the gap is one hour short (`lostMs`), and
   * `/` by a positive divisor is floor division here as in `Math.floor`.
   */
  function DaysDiffAsWritten(chargeDay: int, procedureDay: int, lostMs: nat): int
  {
    ((chargeDay - procedureDay) * MsPerDay - lostMs) / MsPerDay
  }

  /** Whole calendar days from the procedure's date to the charge's date. */
  function DaysDiff(chargeDay: int, procedureDay: int): (r: int)
    ensures chargeDay == procedureDay + r
  {
    chargeDay - procedureDay
  }

  /** Without a clock change between the dates, the scrub's day count is the calendar day difference. */
  lemma DaysDiffWithoutClockChange(chargeDay: int, procedureDay: int)
    ensures DaysDiffAsWritten(chargeDay, procedureDay, 0) == DaysDiff(chargeDay, procedureDay)
  {
    assert (chargeDay - procedureDay) * MsPerDay / MsPerDay == chargeDay - procedureDay;
  }

  /**
   * Across the start of daylight saving time, a charge dated the day after the
   * procedure is counted as day 0, so it falls outside the global window.
   */
  lemma DaysDiffShortAcrossClockChange(procedureDay: int)
    ensures DaysDiffAsWritten(procedureDay + 1, procedureDay, 3600000) == 0
    ensures DaysDiff(procedureDay + 1, procedureDay) == 1
  {
  }

  /** A charge of another record dated after the procedure and no later than its global period ends. */
  predicate InGlobalWindow(c: StoredCharge, g: GlobalProcedure)
  {
    g.charge.id != c.id && 0 < DaysDiff(c.chargeDate, g.charge.chargeDate) <= g.globalDays
  }

  const GlobalPeriodEmTemplate := Template("-24", Recommended, false, "global-period-em-24")
  const GlobalPeriodProcedureTemplate := Template("-79", Recommended, false, "global-period-procedure-79")

  /** What one procedure contributes to a charge's suggestions: '-24' for an E/M code, '-79' for a procedure. */
  function GlobalPeriodSuggestions(kinds: Classifier, c: StoredCharge, g: GlobalProcedure): seq<Suggestion>
  {
    var code := ChargeCode(c);
    if !InGlobalWindow(c, g) then []
    else if kinds.isEm(code) then [Make(GlobalPeriodEmTemplate, code)]
    else if kinds.isProcedure(code) then [Make(GlobalPeriodProcedureTemplate, code)]
    else []
  }

  /** The warning that goes with each such suggestion. */
  function GlobalPeriodWarnings(kinds: Classifier, c: StoredCharge, g: GlobalProcedure): seq<Issue>
  {
    var code := ChargeCode(c);
    var procedureCode := ChargeCode(g.charge);
    if !InGlobalWindow(c, g) then []
    else if kinds.isEm(code) then [GlobalPeriodEm(code, g.globalDays, procedureCode, g.charge.chargeDate)]
    else if kinds.isProcedure(code) then [GlobalPeriodProcedure(code, g.globalDays, procedureCode, g.charge.chargeDate)]
    else []
  }

  function GlobalSuggestionPieces(kinds: Classifier, c: StoredCharge): GlobalProcedure -> seq<Suggestion>
  {
    g => GlobalPeriodSuggestions(kinds, c, g)
  }

  function GlobalWarningPieces(kinds: Classifier, c: StoredCharge): GlobalProcedure -> seq<Issue>
  {
    g => GlobalPeriodWarnings(kinds, c, g)
  }

  /** A charge's record after the loop over the patient's procedures. */
  function AddGlobalPeriod(kinds: Classifier, r: ValidationResult, c: StoredCharge, procs: seq<GlobalProcedure>): ValidationResult
  {
    r.(suggestions := r.suggestions + FlatMap(procs, GlobalSuggestionPieces(kinds, c)),
       warnings := r.warnings + FlatMap(procs, GlobalWarningPieces(kinds, c)))
  }

  /** The procedures checked against a charge are those of its own patient. */
  function GlobalUpdate(kinds: Classifier, charges: seq<StoredCharge>): Update
  {
    (r: ValidationResult, c: StoredCharge) => AddGlobalPeriod(kinds, r, c, ProceduresWithGlobal(kinds, PatientCharges(charges, c.inpatientId)))
  }

  /** A patient is checked only when one of their charges is a procedure with a global period. */
  function HasGlobalProcedure(kinds: Classifier, charges: seq<StoredCharge>): string -> bool
  {
    p => |ProceduresWithGlobal(kinds, PatientCharges(charges, p))| > 0
  }

  /** The charges the global-period pass visits, patient by patient. */
  function GlobalScope(kinds: Classifier, charges: seq<StoredCharge>): seq<StoredCharge>
  {
    FlatMap(PatientIds(charges), CondGroups(charges, PatientKey, HasGlobalProcedure(kinds, charges)))
  }

  /** One more procedure appends its suggestions and warnings. */
  lemma AddGlobalPeriodStep(kinds: Classifier, r: ValidationResult, c: StoredCharge, procs: seq<GlobalProcedure>, j: nat)
    requires j < |procs|
    ensures var prev := AddGlobalPeriod(kinds, r, c, procs[..j]);
      AddGlobalPeriod(kinds, r, c, procs[..j + 1])
        == prev.(suggestions := prev.suggestions + GlobalPeriodSuggestions(kinds, c, procs[j]),
                 warnings := prev.warnings + GlobalPeriodWarnings(kinds, c, procs[j]))
  {
    FlatMapStep(procs, j, GlobalSuggestionPieces(kinds, c));
    FlatMapStep(procs, j, GlobalWarningPieces(kinds, c));
  }

  /** The inner loop over the procedures for one charge. */
  method GlobalPeriodFor(kinds: Classifier, r: ValidationResult, c: StoredCharge, procs: seq<GlobalProcedure>) returns (r': ValidationResult)
    ensures r' == AddGlobalPeriod(kinds, r, c, procs)
  {
    r' := r;
    for j := 0 to |procs|
      invariant r' == AddGlobalPeriod(kinds, r, c, procs[..j])
    {
      AddGlobalPeriodStep(kinds, r, c, procs, j);
      var g := procs[j];
      var daysDiff := DaysDiff(c.chargeDate, g.charge.chargeDate);
      if g.charge.id != c.id && 0 < daysDiff <= g.globalDays {
        var code := ChargeCode(c);
        var procedureCode := ChargeCode(g.charge);
        if kinds.isEm(code) {
          r' := r'.(suggestions := r'.suggestions + [Make(GlobalPeriodEmTemplate, code)],
                    warnings := r'.warnings + [GlobalPeriodEm(code, g.globalDays, procedureCode, g.charge.chargeDate)]);
        } else if kinds.isProcedure(code) {
          r' := r'.(suggestions := r'.suggestions + [Make(GlobalPeriodProcedureTemplate, code)],
                    warnings := r'.warnings + [GlobalPeriodProcedure(code, g.globalDays, procedureCode, g.charge.chargeDate)]);
        }
      }
    }
    assert procs[..|procs|] == procs;
  }

  /** One patient's charges, each checked against that patient's procedures with a global period. */
  method GlobalPeriodPatient(kinds: Classifier, charges: seq<StoredCharge>, p: string, pCharges: seq<StoredCharge>, results: Results)
    returns (results': Results)
    requires pCharges == PatientCharges(charges, p)
    ensures results' == UpdateEach(results, CondGroups(charges, PatientKey, HasGlobalProcedure(kinds, charges))(p), GlobalUpdate(kinds, charges))
  {
    var procs := CollectProceduresWithGlobal(kinds, pCharges);
    results' := results;
    if |procs| == 0 {
      return;
    }
    for i := 0 to |pCharges|
      invariant results' == UpdateEach(results, pCharges[..i], GlobalUpdate(kinds, charges))
    {
      UpdateEachStep(results, pCharges, i, GlobalUpdate(kinds, charges));
      var c := pCharges[i];
      assert HasKey(PatientKey, p)(c) && PatientKey(c) == p by {
        assert c in pCharges;
      }
      if c.id in results' {
        var r := GlobalPeriodFor(kinds, results'[c.id], c, procs);
        assert r == GlobalUpdate(kinds, charges)(results'[c.id], c);
        results' := results'[c.id := r];
      }
    }
    assert pCharges[..|pCharges|] == pCharges;
  }

  /** The patients before index `k` have been visited. */
  function GlobalPassPrefix(kinds: Classifier, charges: seq<StoredCharge>, patients: seq<string>, k: nat, results: Results): Results
    requires k <= |patients|
  {
    UpdateEach(results, FlatMap(patients[..k], CondGroups(charges, PatientKey, HasGlobalProcedure(kinds, charges))), GlobalUpdate(kinds, charges))
  }

  /** One iteration of the loop over patients. */
  method GlobalPeriodNext(kinds: Classifier, charges: seq<StoredCharge>, patients: seq<string>, k: nat, pCharges: seq<StoredCharge>, results: Results, acc: Results)
    returns (acc': Results)
    requires k < |patients| && pCharges == PatientCharges(charges, patients[k])
    requires acc == GlobalPassPrefix(kinds, charges, patients, k, results)
    ensures acc' == GlobalPassPrefix(kinds, charges, patients, k + 1, results)
  {
    UpdateGroupsStep(results, patients, k, CondGroups(charges, PatientKey, HasGlobalProcedure(kinds, charges)), GlobalUpdate(kinds, charges));
    acc' := GlobalPeriodPatient(kinds, charges, patients[k], pCharges, acc);
  }

  method GlobalPeriodPass(kinds: Classifier, charges: seq<StoredCharge>, patientGroups: map<string, seq<StoredCharge>>, patients: seq<string>, results: Results)
    returns (results': Results)
    requires patients == PatientIds(charges)
    requires forall p :: p in patients ==> p in patientGroups && patientGroups[p] == PatientCharges(charges, p)
    ensures results' == UpdateEach(results, GlobalScope(kinds, charges), GlobalUpdate(kinds, charges))
  {
    results' := results;
    for k := 0 to |patients|
      invariant results' == GlobalPassPrefix(kinds, charges, patients, k, results)
    {
      results' := GlobalPeriodNext(kinds, charges, patients, k, patientGroups[patients[k]], results, results');
    }
    GlobalPassComplete(kinds, charges, results);
  }

  lemma GlobalPassComplete(kinds: Classifier, charges: seq<StoredCharge>, results: Results)
    ensures GlobalPassPrefix(kinds, charges, PatientIds(charges), |PatientIds(charges)|, results)
      == UpdateEach(results, GlobalScope(kinds, charges), GlobalUpdate(kinds, charges))
  {
    var patients := PatientIds(charges);
    assert patients[..|patients|] == patients;
  }

  // ==================================================================== 3. the same code on separate records

  /** The charges of a (patient, date) group with the same stripped code. */
  function SameCode(group: seq<StoredCharge>, code: string): seq<StoredCharge>
  {
    Filter(group, HasKey(ChargeCode, code))
  }

  /** A code on two or more records of a group is reported, unless it is an E/M or add-on code. */
  function IsDuplicatedCode(kinds: Classifier, group: seq<StoredCharge>): string -> bool
  {
    code => |SameCode(group, code)| >= 2 && !kinds.isEm(code) && !kinds.isAddOn(code)
  }

  /** The charges of one group that get a duplicate warning, code by code (the `codeMap` loop). */
  function DuplicatesIn(kinds: Classifier, charges: seq<StoredCharge>): Visit -> seq<StoredCharge>
  {
    k =>
      var group := VisitGroup(charges, k);
      if |group| < 2 then []
      else FlatMap(Dedup(KeysOf(group, ChargeCode)), CondGroups(group, ChargeCode, IsDuplicatedCode(kinds, group)))
  }

  function DuplicateScope(kinds: Classifier, charges: seq<StoredCharge>): seq<StoredCharge>
  {
    FlatMap(VisitKeys(charges), DuplicatesIn(kinds, charges))
  }

  function AddWarning(r: ValidationResult, w: Issue): ValidationResult
  {
    r.(warnings := r.warnings + [w])
  }

  /** The warning names the code and how many records of the group carry it. */
  function DuplicateUpdate(charges: seq<StoredCharge>): Update
  {
    (r: ValidationResult, c: StoredCharge) =>
      AddWarning(r, DuplicateChargeRecords(ChargeCode(c), |SameCode(VisitGroup(charges, VisitKey(c)), ChargeCode(c))|))
  }

  method DuplicatesOfCode(kinds: Classifier, charges: seq<StoredCharge>, group: seq<StoredCharge>, code: string, dupes: seq<StoredCharge>, results: Results)
    returns (results': Results)
    requires |group| > 0 && group == VisitGroup(charges, VisitKey(group[0]))
    requires dupes == SameCode(group, code)
    ensures results' == UpdateEach(results, CondGroups(group, ChargeCode, IsDuplicatedCode(kinds, group))(code), DuplicateUpdate(charges))
  {
    results' := results;
    if |dupes| < 2 || kinds.isEm(code) || kinds.isAddOn(code) {
      return;
    }
    for i := 0 to |dupes|
      invariant results' == UpdateEach(results, dupes[..i], DuplicateUpdate(charges))
    {
      UpdateEachStep(results, dupes, i, DuplicateUpdate(charges));
      var c := dupes[i];
      assert c in dupes;
      assert VisitKey(c) == VisitKey(group[0]) && ChargeCode(c) == code by {
        assert group[0] in group;
      }
      if c.id in results' {
        results' := results'[c.id := AddWarning(results'[c.id], DuplicateChargeRecords(code, |dupes|))];
      }
    }
    assert dupes[..|dupes|] == dupes;
  }

  method DuplicatesOfGroup(kinds: Classifier, charges: seq<StoredCharge>, k: (string, int), group: seq<StoredCharge>, results: Results)
    returns (results': Results)
    requires group == VisitGroup(charges, k)
    ensures results' == UpdateEach(results, DuplicatesIn(kinds, charges)(k), DuplicateUpdate(charges))
  {
    results' := results;
    if |group| < 2 {
      return;
    }
    assert group == VisitGroup(charges, VisitKey(group[0])) by {
      assert group[0] in group;
    }
    var codeMap, codes := GroupByKey(group, ChargeCode);
    var g := CondGroups(group, ChargeCode, IsDuplicatedCode(kinds, group));
    for j := 0 to |codes|
      invariant results' == UpdateEach(results, FlatMap(codes[..j], g), DuplicateUpdate(charges))
    {
      UpdateGroupsStep(results, codes, j, g, DuplicateUpdate(charges));
      results' := DuplicatesOfCode(kinds, charges, group, codes[j], codeMap[codes[j]], results');
    }
    assert codes[..|codes|] == codes;
  }

  method DuplicatePass(kinds: Classifier, charges: seq<StoredCharge>, groups: map<(string, int), seq<StoredCharge>>, keys: seq<(string, int)>, results: Results)
    returns (results': Results)
    requires keys == VisitKeys(charges)
    requires forall k :: k in keys ==> k in groups && groups[k] == VisitGroup(charges, k)
    ensures results' == UpdateEach(results, DuplicateScope(kinds, charges), DuplicateUpdate(charges))
  {
    var g := DuplicatesIn(kinds, charges);
    results' := results;
    for k := 0 to |keys|
      invariant results' == UpdateEach(results, FlatMap(keys[..k], g), DuplicateUpdate(charges))
    {
      UpdateGroupsStep(results, keys, k, g, DuplicateUpdate(charges));
      results' := DuplicatesOfGroup(kinds, charges, keys[k], groups[keys[k]], results');
    }
    assert keys[..|keys|] == keys;
  }

  // ==================================================================== 4. more than four charges in one visit

  function IsHighVolume(charges: seq<StoredCharge>): Visit -> bool
  {
    k => |VisitGroup(charges, k)| > 4
  }

  function VolumeScope(charges: seq<StoredCharge>): seq<StoredCharge>
  {
    FlatMap(VisitKeys(charges), CondGroups(charges, VisitKey, IsHighVolume(charges)))
  }

  function VolumeUpdate(charges: seq<StoredCharge>): Update
  {
    (r: ValidationResult, c: StoredCharge) => AddWarning(r, HighChargeVolume(|VisitGroup(charges, VisitKey(c))|, c.chargeDate))
  }

  method VolumeOfGroup(charges: seq<StoredCharge>, k: (string, int), group: seq<StoredCharge>, results: Results)
    returns (results': Results)
    requires group == VisitGroup(charges, k)
    ensures results' == UpdateEach(results, CondGroups(charges, VisitKey, IsHighVolume(charges))(k), VolumeUpdate(charges))
  {
    results' := results;
    if |group| <= 4 {
      return;
    }
    for i := 0 to |group|
      invariant results' == UpdateEach(results, group[..i], VolumeUpdate(charges))
    {
      UpdateEachStep(results, group, i, VolumeUpdate(charges));
      var c := group[i];
      assert c in group;
      if c.id in results' {
        results' := results'[c.id := AddWarning(results'[c.id], HighChargeVolume(|group|, c.chargeDate))];
      }
    }
    assert group[..|group|] == group;
  }

  method VolumePass(charges: seq<StoredCharge>, groups: map<(string, int), seq<StoredCharge>>, keys: seq<(string, int)>, results: Results)
    returns (results': Results)
    requires keys == VisitKeys(charges)
    requires forall k :: k in keys ==> k in groups && groups[k] == VisitGroup(charges, k)
    ensures results' == UpdateEach(results, VolumeScope(charges), VolumeUpdate(charges))
  {
    var g := CondGroups(charges, VisitKey, IsHighVolume(charges));
    results' := results;
    for k := 0 to |keys|
      invariant results' == UpdateEach(results, FlatMap(keys[..k], g), VolumeUpdate(charges))
    {
      UpdateGroupsStep(results, keys, k, g, VolumeUpdate(charges));
      results' := VolumeOfGroup(charges, keys[k], groups[keys[k]], results');
    }
    assert keys[..|keys|] == keys;
  }

  // ==================================================================== the scrub

  /** The three passes that follow the first records, in order. */
  function Passes(kinds: Classifier, charges: seq<StoredCharge>, r0: Results): Results
  {
    var r1 := UpdateEach(r0, GlobalScope(kinds, charges), GlobalUpdate(kinds, charges));
    var r2 := UpdateEach(r1, DuplicateScope(kinds, charges), DuplicateUpdate(charges));
    UpdateEach(r2, VolumeScope(charges), VolumeUpdate(charges))
  }

  /** Every charge's key is among the groups `GroupByKey` built. */
  lemma GroupsCover<K(!new)>(charges: seq<StoredCharge>, key: StoredCharge -> K, groups: map<K, seq<StoredCharge>>, order: seq<K>)
    requires order == Dedup(KeysOf(charges, key))
    requires forall d :: d in groups <==> d in order
    requires forall d :: d in groups ==> groups[d] == Filter(charges, HasKey(key, d))
    ensures forall c :: c in charges ==> key(c) in groups && groups[key(c)] == Filter(charges, HasKey(key, key(c)))
  {
    forall c | c in charges ensures key(c) in groups {
      var i :| 0 <= i < |charges| && charges[i] == c;
      assert KeysOf(charges, key)[i] == key(c);
    }
  }

  /** The global-period, duplicate and volume passes over the first records. */
  method RunPasses(kinds: Classifier, charges: seq<StoredCharge>, groups: map<(string, int), seq<StoredCharge>>, visitKeys: seq<(string, int)>,
                   patientGroups: map<string, seq<StoredCharge>>, patients: seq<string>, r0: Results)
    returns (results: Results)
    requires visitKeys == VisitKeys(charges)
    requires forall k :: k in visitKeys ==> k in groups && groups[k] == VisitGroup(charges, k)
    requires patients == PatientIds(charges)
    requires forall p :: p in patients ==> p in patientGroups && patientGroups[p] == PatientCharges(charges, p)
    ensures results == Passes(kinds, charges, r0)
  {
    results := GlobalPeriodPass(kinds, charges, patientGroups, patients, r0);
    results := DuplicatePass(kinds, charges, groups, visitKeys, results);
    results := VolumePass(charges, groups, visitKeys, results);
  }

  /** `preBillingScrub` (the passes it shares with this model; see the README for the rest). */
  method PreBillingScrub(t: RuleTables, kinds: Classifier, charges: seq<StoredCharge>) returns (results: Results)
    ensures results == Passes(kinds, charges, BaseResults(charges, BaseOf(t, charges)))
  {
    var groups, visitKeys := GroupByKey(charges, VisitKey);
    var patientGroups, patients := GroupByKey(charges, PatientKey);
    GroupsCover(charges, VisitKey, groups, visitKeys);
    results := BaseResultsLoop(t, charges, groups);
    results := RunPasses(kinds, charges, groups, visitKeys, patientGroups, patients, results);
  }

  // ==================================================================== what the scrub promises

  /** The passes only append to records: none is added or removed. */
  lemma PassesKeys(kinds: Classifier, charges: seq<StoredCharge>, r0: Results, x: string)
    ensures x in Passes(kinds, charges, r0) <==> x in r0
  {
    var r1 := UpdateEach(r0, GlobalScope(kinds, charges), GlobalUpdate(kinds, charges));
    var r2 := UpdateEach(r1, DuplicateScope(kinds, charges), DuplicateUpdate(charges));
    UpdateEachAt(r0, GlobalScope(kinds, charges), GlobalUpdate(kinds, charges), x);
    UpdateEachAt(r1, DuplicateScope(kinds, charges), DuplicateUpdate(charges), x);
    UpdateEachAt(r2, VolumeScope(charges), VolumeUpdate(charges), x);
  }

  /** The result map is keyed by exactly the ids of the input charges, whatever their first records. */
  lemma ScrubKeys(kinds: Classifier, charges: seq<StoredCharge>, base: StoredCharge -> ValidationResult, x: string)
    ensures x in Passes(kinds, charges, BaseResults(charges, base)) <==> exists c :: c in charges && c.id == x
  {
    PassesKeys(kinds, charges, BaseResults(charges, base), x);
    BaseResultsAt(charges, base, x);
  }

  /** The duplicate warning a charge receives, if any. */
  function DuplicateWarning(kinds: Classifier, charges: seq<StoredCharge>, c: StoredCharge): seq<Issue>
  {
    var group := VisitGroup(charges, VisitKey(c));
    var code := ChargeCode(c);
    if |group| >= 2 && IsDuplicatedCode(kinds, group)(code) then [DuplicateChargeRecords(code, |SameCode(group, code)|)] else []
  }

  /** The volume warning a charge receives, if any. */
  function VolumeWarning(charges: seq<StoredCharge>, c: StoredCharge): seq<Issue>
  {
    var n := |VisitGroup(charges, VisitKey(c))|;
    if n > 4 then [HighChargeVolume(n, c.chargeDate)] else []
  }

  /**
   * A charge's final record from its first record `b`: the global-period
   * findings against every procedure of its patient, then the duplicate and
   * volume warnings of its (patient, date) group.
   */
  function ChargeReport(kinds: Classifier, charges: seq<StoredCharge>, b: ValidationResult, c: StoredCharge): ValidationResult
  {
    var procs := ProceduresWithGlobal(kinds, PatientCharges(charges, c.inpatientId));
    ValidationResult(
      b.suggestions + FlatMap(procs, GlobalSuggestionPieces(kinds, c)),
      b.warnings + FlatMap(procs, GlobalWarningPieces(kinds, c)) + DuplicateWarning(kinds, charges, c) + VolumeWarning(charges, c),
      b.errors,
      b.scrubbed)
  }

  /** The global-period pass reaches a charge once when its patient has a procedure with a global period. */
  lemma GlobalReach(kinds: Classifier, charges: seq<StoredCharge>, c: StoredCharge)
    requires DistinctIds(charges) && c in charges
    ensures Filter(GlobalScope(kinds, charges), HasKey(ChargeId, c.id)) == if HasGlobalProcedure(kinds, charges)(c.inpatientId) then [c] else []
  {
    CondGroupsReach(charges, PatientKey, HasGlobalProcedure(kinds, charges), c);
  }

  /** The volume pass reaches a charge once when its (patient, date) group has more than four charges. */
  lemma VolumeReach(charges: seq<StoredCharge>, c: StoredCharge)
    requires DistinctIds(charges) && c in charges
    ensures Filter(VolumeScope(charges), HasKey(ChargeId, c.id)) == if IsHighVolume(charges)(VisitKey(c)) then [c] else []
  {
    CondGroupsReach(charges, VisitKey, IsHighVolume(charges), c);
  }

  /** No charge of another (patient, date) group carries `c`'s id. */
  lemma OtherVisitsMissId(kinds: Classifier, charges: seq<StoredCharge>, c: StoredCharge, k: Visit, y: StoredCharge)
    requires DistinctIds(charges) && c in charges
    requires k != VisitKey(c) && y in DuplicatesIn(kinds, charges)(k)
    ensures y.id != c.id
  {
    var other := VisitGroup(charges, k);
    var h := CondGroups(other, ChargeCode, IsDuplicatedCode(kinds, other));
    FlatMapMember(Dedup(KeysOf(other, ChargeCode)), h, y);
    assert y in charges && VisitKey(y) == k;
    var i :| 0 <= i < |charges| && charges[i] == c;
    var j :| 0 <= j < |charges| && charges[j] == y;
  }

  /** The duplicate pass reaches a charge once when its code is duplicated in its group of two or more. */
  lemma DuplicateReach(kinds: Classifier, charges: seq<StoredCharge>, c: StoredCharge)
    requires DistinctIds(charges) && c in charges
    ensures var group := VisitGroup(charges, VisitKey(c));
      Filter(DuplicateScope(kinds, charges), HasKey(ChargeId, c.id))
        == if |group| >= 2 && IsDuplicatedCode(kinds, group)(ChargeCode(c)) then [c] else []
  {
    var keys := VisitKeys(charges);
    var g := DuplicatesIn(kinds, charges);
    var group := VisitGroup(charges, VisitKey(c));
    var i :| 0 <= i < |charges| && charges[i] == c;
    assert KeysOf(charges, VisitKey)[i] == VisitKey(c);
    forall k | k in keys && k != VisitKey(c) ensures forall y :: y in g(k) ==> y.id != c.id {
      forall y | y in g(k) ensures y.id != c.id {
        OtherVisitsMissId(kinds, charges, c, k, y);
      }
    }
    FilterIdOneGroup(keys, g, c.id, VisitKey(c));
    if |group| >= 2 {
      FilterKeepsDistinctIds(charges, HasKey(VisitKey, VisitKey(c)));
      CondGroupsReach(group, ChargeCode, IsDuplicatedCode(kinds, group), c);
    }
  }

  /** The global-period pass appends to a charge's record what its patient's procedures give it. */
  lemma GlobalPassAt(kinds: Classifier, charges: seq<StoredCharge>, r0: Results, c: StoredCharge)
    requires DistinctIds(charges) && c in charges && c.id in r0
    ensures var r1 := UpdateEach(r0, GlobalScope(kinds, charges), GlobalUpdate(kinds, charges));
      c.id in r1 && r1[c.id] == AddGlobalPeriod(kinds, r0[c.id], c, ProceduresWithGlobal(kinds, PatientCharges(charges, c.inpatientId)))
  {
    var x, f := c.id, GlobalUpdate(kinds, charges);
    UpdateEachAt(r0, GlobalScope(kinds, charges), f, x);
    GlobalReach(kinds, charges, c);
    if HasGlobalProcedure(kinds, charges)(c.inpatientId) {
      IterateOne(r0[x], c, f);
    } else {
      NoProceduresNoChange(kinds, r0[x], c, ProceduresWithGlobal(kinds, PatientCharges(charges, c.inpatientId)));
    }
  }

  lemma IterateOne(r: ValidationResult, c: StoredCharge, f: Update)
    ensures Iterate(r, [c], f) == f(r, c)
  {
    assert [c][..0] == [];
  }

  /** A patient without a procedure with a global period leaves a record as it was. */
  lemma NoProceduresNoChange(kinds: Classifier, b: ValidationResult, c: StoredCharge, procs: seq<GlobalProcedure>)
    requires procs == []
    ensures AddGlobalPeriod(kinds, b, c, procs) == b
  {
    assert b.suggestions + [] == b.suggestions;
    assert b.warnings + [] == b.warnings;
  }

  /** The duplicate pass appends a charge's duplicate warning, if any. */
  lemma DuplicatePassAt(kinds: Classifier, charges: seq<StoredCharge>, r1: Results, c: StoredCharge)
    requires DistinctIds(charges) && c in charges && c.id in r1
    ensures var r2 := UpdateEach(r1, DuplicateScope(kinds, charges), DuplicateUpdate(charges));
      c.id in r2 && r2[c.id] == r1[c.id].(warnings := r1[c.id].warnings + DuplicateWarning(kinds, charges, c))
  {
    UpdateEachAt(r1, DuplicateScope(kinds, charges), DuplicateUpdate(charges), c.id);
    DuplicateReach(kinds, charges, c);
  }

  /** The volume pass appends a charge's volume warning, if any. */
  lemma VolumePassAt(charges: seq<StoredCharge>, r2: Results, c: StoredCharge)
    requires DistinctIds(charges) && c in charges && c.id in r2
    ensures var r3 := UpdateEach(r2, VolumeScope(charges), VolumeUpdate(charges));
      c.id in r3 && r3[c.id] == r2[c.id].(warnings := r2[c.id].warnings + VolumeWarning(charges, c))
  {
    UpdateEachAt(r2, VolumeScope(charges), VolumeUpdate(charges), c.id);
    VolumeReach(charges, c);
  }

  /**
   * Without duplicate ids, the passes turn each charge's first record into
   * its `ChargeReport`.
   */
  lemma PassesOfCharge(kinds: Classifier, charges: seq<StoredCharge>, r0: Results, c: StoredCharge)
    requires DistinctIds(charges) && c in charges && c.id in r0
    ensures c.id in Passes(kinds, charges, r0) && Passes(kinds, charges, r0)[c.id] == ChargeReport(kinds, charges, r0[c.id], c)
  {
    var r1 := UpdateEach(r0, GlobalScope(kinds, charges), GlobalUpdate(kinds, charges));
    var r2 := UpdateEach(r1, DuplicateScope(kinds, charges), DuplicateUpdate(charges));
    GlobalPassAt(kinds, charges, r0, c);
    DuplicatePassAt(kinds, charges, r1, c);
    VolumePassAt(charges, r2, c);
  }

  /**
   * Without duplicate ids, every charge's record is exactly its
   * `ChargeReport` over its first record (`BaseOf` in `PreBillingScrub`).
   */
  lemma ScrubOfCharge(kinds: Classifier, charges: seq<StoredCharge>, base: StoredCharge -> ValidationResult, c: StoredCharge)
    requires DistinctIds(charges) && c in charges
    ensures c.id in Passes(kinds, charges, BaseResults(charges, base))
    ensures Passes(kinds, charges, BaseResults(charges, base))[c.id] == ChargeReport(kinds, charges, base(c), c)
  {
    var r0 := BaseResults(charges, base);
    BaseResultsAt(charges, base, c.id);
    assert r0[c.id] == base(c);
    PassesOfCharge(kinds, charges, r0, c);
  }

  /** Another charge of the same patient, a procedure with a global period that `c`'s date falls within. */
  ghost predicate InGlobalPeriodOf(kinds: Classifier, charges: seq<StoredCharge>, c: StoredCharge)
  {
    exists d :: d in charges && d.inpatientId == c.inpatientId && d.id != c.id && GlobalDaysOf(kinds, d).Some?
      && 0 < c.chargeDate - d.chargeDate <= GlobalDaysOf(kinds, d).value
  }

  /** What the global-period pass suggests for a charge inside another charge's global period. */
  function GlobalSuggestionFor(kinds: Classifier, c: StoredCharge): seq<Suggestion>
  {
    var code := ChargeCode(c);
    if kinds.isEm(code) then [Make(GlobalPeriodEmTemplate, code)]
    else if kinds.isProcedure(code) then [Make(GlobalPeriodProcedureTemplate, code)]
    else []
  }

  /** Over any list of procedures: a suggestion is made exactly when the charge falls within one of their windows. */
  lemma {:induction false} GlobalPiecesMember(kinds: Classifier, c: StoredCharge, procs: seq<GlobalProcedure>, s: Suggestion)
    ensures s in FlatMap(procs, GlobalSuggestionPieces(kinds, c))
      <==> (exists g :: g in procs && InGlobalWindow(c, g)) && s in GlobalSuggestionFor(kinds, c)
  {
    var f := GlobalSuggestionPieces(kinds, c);
    FlatMapMember(procs, f, s);
    if exists g :: g in procs && InGlobalWindow(c, g) {
      var g :| g in procs && InGlobalWindow(c, g);
      var i :| 0 <= i < |procs| && procs[i] == g;
      assert f(procs[i]) == GlobalSuggestionFor(kinds, c);
    }
    if s in FlatMap(procs, f) {
      var i :| 0 <= i < |procs| && s in f(procs[i]);
      assert procs[i] in procs && InGlobalWindow(c, procs[i]);
    }
  }

  /** A procedure of the patient's list whose window holds `c` is another charge of the patient with that period. */
  lemma WindowOfPatientSound(kinds: Classifier, charges: seq<StoredCharge>, c: StoredCharge, g: GlobalProcedure)
    requires g in ProceduresWithGlobal(kinds, PatientCharges(charges, c.inpatientId)) && InGlobalWindow(c, g)
    ensures InGlobalPeriodOf(kinds, charges, c)
  {
    var pCharges := PatientCharges(charges, c.inpatientId);
    ProceduresWithGlobalMembers(kinds, pCharges);
    assert g.charge in pCharges;
    assert HasKey(PatientKey, c.inpatientId)(g.charge);
  }

  /** Another charge of the patient whose global period holds `c` is on the patient's list, with its window. */
  lemma WindowOfPatientComplete(kinds: Classifier, charges: seq<StoredCharge>, c: StoredCharge, d: StoredCharge)
    requires d in charges && d.inpatientId == c.inpatientId && d.id != c.id && GlobalDaysOf(kinds, d).Some?
    requires 0 < c.chargeDate - d.chargeDate <= GlobalDaysOf(kinds, d).value
    ensures var g := GlobalProcedure(d, GlobalDaysOf(kinds, d).value);
      g in ProceduresWithGlobal(kinds, PatientCharges(charges, c.inpatientId)) && InGlobalWindow(c, g)
  {
    var pCharges := PatientCharges(charges, c.inpatientId);
    ProceduresWithGlobalMembers(kinds, pCharges);
    assert HasKey(PatientKey, c.inpatientId)(d);
    assert d in pCharges;
  }

  /** The two directions together. */
  lemma WindowOfPatient(kinds: Classifier, charges: seq<StoredCharge>, c: StoredCharge)
    ensures (exists g :: g in ProceduresWithGlobal(kinds, PatientCharges(charges, c.inpatientId)) && InGlobalWindow(c, g))
      <==> InGlobalPeriodOf(kinds, charges, c)
  {
    if exists g :: g in ProceduresWithGlobal(kinds, PatientCharges(charges, c.inpatientId)) && InGlobalWindow(c, g) {
      var g :| g in ProceduresWithGlobal(kinds, PatientCharges(charges, c.inpatientId)) && InGlobalWindow(c, g);
      WindowOfPatientSound(kinds, charges, c, g);
    }
    if InGlobalPeriodOf(kinds, charges, c) {
      var d :| d in charges && d.inpatientId == c.inpatientId && d.id != c.id && GlobalDaysOf(kinds, d).Some?
        && 0 < c.chargeDate - d.chargeDate <= GlobalDaysOf(kinds, d).value;
      WindowOfPatientComplete(kinds, charges, c, d);
    }
  }

  /**
   * The global-period pass suggests something for a charge exactly when it
   * falls within the global period of another procedure charge of its
   * patient: '-24' for an E/M code, '-79' for any other procedure, nothing
   * for other codes.
   */
  lemma GlobalSuggestionIff(kinds: Classifier, charges: seq<StoredCharge>, c: StoredCharge, s: Suggestion)
    ensures s in FlatMap(ProceduresWithGlobal(kinds, PatientCharges(charges, c.inpatientId)), GlobalSuggestionPieces(kinds, c))
      <==> InGlobalPeriodOf(kinds, charges, c) && s in GlobalSuggestionFor(kinds, c)
  {
    GlobalPiecesMember(kinds, c, ProceduresWithGlobal(kinds, PatientCharges(charges, c.inpatientId)), s);
    WindowOfPatient(kinds, charges, c);
  }
}
