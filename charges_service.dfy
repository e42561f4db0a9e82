/**
 * Inpatient charges and their billing lifecycle (src/services/chargesService.ts).
 * The persisted charge list is the `charges` field of a `ChargeStore`;
 * clock reads and generated ids are parameters, and dates are day numbers
 * while timestamps are milliseconds.
 */
module ChargesService {
  import opened Text

  /** pending -> entered (by an admin) -> billed; a billed charge is locked against edits. */
  datatype ChargeStatus = Pending | Entered | Billed

  datatype StoredCharge = StoredCharge(
    id: string,
    inpatientId: string,
    chargeDate: int,
    cptCode: string,
    cptDescription: Option<string>,
    timeMinutes: Option<int>,
    rvu: Option<real>,
    diagnoses: seq<string>,
    createdAt: int,
    updatedAt: Option<int>,
    status: ChargeStatus,
    submittedByUserId: Option<string>,
    submittedByUserName: Option<string>,
    enteredAt: Option<int>,
    enteredBy: Option<string>,
    billedAt: Option<int>,
    billedBy: Option<string>)

  /** What a caller of `saveCharge` supplies: every field except the id, the creation time and the status. */
  datatype NewCharge = NewCharge(
    inpatientId: string,
    chargeDate: int,
    cptCode: string,
    cptDescription: Option<string>,
    timeMinutes: Option<int>,
    rvu: Option<real>,
    diagnoses: seq<string>,
    updatedAt: Option<int>,
    submittedByUserId: Option<string>,
    submittedByUserName: Option<string>,
    enteredAt: Option<int>,
    enteredBy: Option<string>,
    billedAt: Option<int>,
    billedBy: Option<string>)

  /** The optional field updates `updateCharge` accepts; `None` leaves a field as it is. */
  datatype ChargeUpdates = ChargeUpdates(
    cptCode: Option<string>,
    cptDescription: Option<string>,
    timeMinutes: Option<int>,
    diagnoses: Option<seq<string>>)

  /** The two errors `updateCharge` throws. */
  datatype UpdateError = ChargeNotFound | ChargeIsBilled

  datatype UpdateOutcome = Updated(charge: StoredCharge) | UpdateFailed(error: UpdateError)

  // ==================================================================== single charges

  /** `canEditCharge`: everything but a billed charge can be edited. */
  predicate CanEditCharge(c: StoredCharge)
  {
    c.status != Billed
  }

  /** The charge `saveCharge` stores: the caller's fields, the fresh id and time, and status pending. */
  function NewStoredCharge(input: NewCharge, id: string, now: int): (c: StoredCharge)
    ensures c.id == id && c.createdAt == now && c.status == Pending
    ensures c.inpatientId == input.inpatientId && c.chargeDate == input.chargeDate && c.cptCode == input.cptCode
    ensures CanEditCharge(c)
  {
    StoredCharge(id, input.inpatientId, input.chargeDate, input.cptCode, input.cptDescription,
      input.timeMinutes, input.rvu, input.diagnoses, now, input.updatedAt, Pending,
      input.submittedByUserId, input.submittedByUserName, input.enteredAt, input.enteredBy,
      input.billedAt, input.billedBy)
  }

  /** `updateChargeStatus` on one charge: the new status and update time, plus the matching admin timestamp. */
  function WithStatus(c: StoredCharge, status: ChargeStatus, now: int): (r: StoredCharge)
    ensures r.status == status && r.updatedAt == Some(now)
    ensures r.enteredAt == (if status == Entered then Some(now) else c.enteredAt)
    ensures r.billedAt == (if status == Billed then Some(now) else c.billedAt)
    ensures r.(status := c.status, updatedAt := c.updatedAt, enteredAt := c.enteredAt, billedAt := c.billedAt) == c
  {
    var r := c.(status := status, updatedAt := Some(now));
    if status == Entered then r.(enteredAt := Some(now))
    else if status == Billed then r.(billedAt := Some(now))
    else r
  }

  /** `markChargeEntered` on one charge. */
  function MarkedEntered(c: StoredCharge, admin: Option<string>, now: int): (r: StoredCharge)
    ensures r.status == Entered && r.enteredBy == admin && r.enteredAt == Some(now) && r.updatedAt == Some(now)
    ensures CanEditCharge(r)
  {
    c.(status := Entered, enteredAt := Some(now), enteredBy := admin, updatedAt := Some(now))
  }

  /** `markChargeBilled` on one charge: it is locked afterwards. */
  function MarkedBilled(c: StoredCharge, admin: Option<string>, now: int): (r: StoredCharge)
    ensures r.status == Billed && r.billedBy == admin && r.billedAt == Some(now) && r.updatedAt == Some(now)
    ensures !CanEditCharge(r)
  {
    c.(status := Billed, billedAt := Some(now), billedBy := admin, updatedAt := Some(now))
  }

  /**
   * The fields `updateCharge` changes on an editable charge: each supplied
   * field, the update time, and an entered charge falls back to pending.
   */
  function Edited(c: StoredCharge, u: ChargeUpdates, now: int): (r: StoredCharge)
    requires CanEditCharge(c)
    ensures r.status == Pending || r.status == c.status
    ensures r.status != Entered && CanEditCharge(r)
    ensures r.id == c.id && r.inpatientId == c.inpatientId && r.chargeDate == c.chargeDate && r.createdAt == c.createdAt
    ensures r.cptCode == (if u.cptCode.Some? then u.cptCode.value else c.cptCode)
    ensures r.diagnoses == (if u.diagnoses.Some? then u.diagnoses.value else c.diagnoses)
    ensures r.updatedAt == Some(now)
  {
    var r := c.(
      cptCode := if u.cptCode.Some? then u.cptCode.value else c.cptCode,
      cptDescription := if u.cptDescription.Some? then u.cptDescription else c.cptDescription,
      timeMinutes := if u.timeMinutes.Some? then u.timeMinutes else c.timeMinutes,
      diagnoses := if u.diagnoses.Some? then u.diagnoses.value else c.diagnoses,
      updatedAt := Some(now));
    if r.status == Entered then r.(status := Pending) else r
  }

  // ==================================================================== the charge list

  /** No two charges share an id (generated ids are unique). */
  predicate DistinctIds(charges: seq<StoredCharge>)
  {
    forall i, j :: 0 <= i < j < |charges| ==> charges[i].id != charges[j].id
  }

  /** `findIndex` by id: the first charge with that id. */
  function FindCharge(charges: seq<StoredCharge>, id: string): (r: Option<nat>)
    ensures r.None? <==> forall i :: 0 <= i < |charges| ==> charges[i].id != id
    ensures r.Some? ==> (r.value < |charges| && charges[r.value].id == id
      && forall j :: 0 <= j < r.value ==> charges[j].id != id)
  {
    if |charges| == 0 then None
    else if charges[0].id == id then Some(0)
    else match FindCharge(charges[1..], id)
      case None => None
      case Some(k) => Some(k + 1)
  }

  /** The list after an operation that rewrites the charge with a given id by `f`, if there is one. */
  function RewriteCharge(charges: seq<StoredCharge>, id: string, f: StoredCharge -> StoredCharge): seq<StoredCharge>
  {
    match FindCharge(charges, id)
    case None => charges
    case Some(i) => charges[i := f(charges[i])]
  }

  /** `updateCharge` on the list: the outcome, and the list afterwards. */
  function UpdateChargeOutcome(charges: seq<StoredCharge>, id: string, u: ChargeUpdates, now: int): (r: (UpdateOutcome, seq<StoredCharge>))
    ensures FindCharge(charges, id).None? ==> r == (UpdateFailed(ChargeNotFound), charges)
  {
    match FindCharge(charges, id)
    case None => (UpdateFailed(ChargeNotFound), charges)
    case Some(i) =>
      if charges[i].status == Billed then (UpdateFailed(ChargeIsBilled), charges)
      else var c := Edited(charges[i], u, now); (Updated(c), charges[i := c])
  }

  /** `deleteCharge` on the list: every charge with that id is dropped. */
  function WithoutCharge(charges: seq<StoredCharge>, id: string): (r: seq<StoredCharge>)
    ensures forall c :: c in r <==> c in charges && c.id != id
    ensures |r| <= |charges|
    ensures IsSubsequence(r, charges)
  {
    FilterMembers(charges, (c: StoredCharge) => c.id != id);
    FilterIsSubsequence(charges, (c: StoredCharge) => c.id != id);
    Filter(charges, (c: StoredCharge) => c.id != id)
  }

  lemma FilterMembers(charges: seq<StoredCharge>, p: StoredCharge -> bool)
    ensures forall c :: c in Filter(charges, p) <==> c in charges && p(c)
    ensures |Filter(charges, p)| <= |charges|
  {
  }

  // ==================================================================== lifecycle

  /** An operation that only rewrites one charge keeps every id in place, so distinct ids stay distinct. */
  lemma RewriteKeepsIds(charges: seq<StoredCharge>, id: string, f: StoredCharge -> StoredCharge)
    requires forall c :: f(c).id == c.id
    ensures var r := RewriteCharge(charges, id, f); |r| == |charges| && forall i :: 0 <= i < |r| ==> r[i].id == charges[i].id
    ensures DistinctIds(charges) ==> DistinctIds(RewriteCharge(charges, id, f))
  {
  }

  /** After `markChargeBilled`, `updateCharge` on that charge is refused and changes nothing. */
  lemma {:induction false} BilledChargeIsLocked(charges: seq<StoredCharge>, id: string, admin: Option<string>, now: int, u: ChargeUpdates, later: int)
    requires FindCharge(charges, id).Some?
    ensures var billed := RewriteCharge(charges, id, c => MarkedBilled(c, admin, now));
      UpdateChargeOutcome(billed, id, u, later) == (UpdateFailed(ChargeIsBilled), billed)
  {
    var i := FindCharge(charges, id).value;
    var billed := RewriteCharge(charges, id, c => MarkedBilled(c, admin, now));
    assert billed == charges[i := MarkedBilled(charges[i], admin, now)];
    SameFind(charges, i, MarkedBilled(charges[i], admin, now));
  }

  /** Editing an entered charge sends it back to pending, so an admin must enter it again. */
  lemma {:induction false} EditResetsEntered(charges: seq<StoredCharge>, id: string, admin: Option<string>, now: int, u: ChargeUpdates, later: int)
    requires FindCharge(charges, id).Some?
    ensures var entered := RewriteCharge(charges, id, c => MarkedEntered(c, admin, now));
      var (outcome, after) := UpdateChargeOutcome(entered, id, u, later);
      outcome.Updated? && outcome.charge.status == Pending && after[FindCharge(charges, id).value] == outcome.charge
  {
    var i := FindCharge(charges, id).value;
    var entered := RewriteCharge(charges, id, c => MarkedEntered(c, admin, now));
    assert entered == charges[i := MarkedEntered(charges[i], admin, now)];
    SameFind(charges, i, MarkedEntered(charges[i], admin, now));
  }

  /** Replacing the first charge with an id by one with the same id leaves it the first. */
  lemma SameFind(charges: seq<StoredCharge>, i: nat, c: StoredCharge)
    requires i < |charges| && c.id == charges[i].id
    requires FindCharge(charges, c.id) == Some(i)
    ensures FindCharge(charges[i := c], c.id) == Some(i)
  {
    var s := charges[i := c];
    assert s[i].id == c.id;
    assert forall j :: 0 <= j < i ==> s[j].id == charges[j].id;
    var v := FindCharge(s, c.id).value;
    assert v <= i;
  }

  /** A successful edit leaves every other charge as it was; a failed one leaves the list unchanged. */
  lemma UpdateTouchesOneCharge(charges: seq<StoredCharge>, id: string, u: ChargeUpdates, now: int)
    ensures var (outcome, after) := UpdateChargeOutcome(charges, id, u, now);
      |after| == |charges|
      && (outcome.UpdateFailed? ==> after == charges)
      && (outcome.Updated? ==> exists i :: 0 <= i < |charges| && charges[i].id == id && after == charges[i := outcome.charge])
      && (outcome.UpdateFailed? && outcome.error == ChargeIsBilled <==>
            exists i :: 0 <= i < |charges| && FindCharge(charges, id) == Some(i) && charges[i].status == Billed)
  {
  }

  // ==================================================================== the store

  /** The persisted charges and per-patient diagnoses. */
  class ChargeStore {
    var charges: seq<StoredCharge>
    var diagnoses: map<string, seq<string>>

    /** Generated ids are unique. */
    predicate Valid()
      reads this
    {
      DistinctIds(charges)
    }

    constructor()
      ensures charges == [] && diagnoses == map[] && Valid()
    {
      charges := [];
      diagnoses := map[];
    }

    /** `saveCharge`: append a new pending charge under a fresh id. */
    method SaveCharge(input: NewCharge, id: string, now: int) returns (c: StoredCharge)
      requires Valid() && forall c :: c in charges ==> c.id != id
      modifies this
      ensures c == NewStoredCharge(input, id, now)
      ensures charges == old(charges) + [c] && diagnoses == old(diagnoses) && Valid()
    {
      c := NewStoredCharge(input, id, now);
      charges := charges + [c];
    }

    /** `updateChargeStatus`: any status may be set, billed included and out of billed. */
    method UpdateChargeStatus(id: string, status: ChargeStatus, now: int)
      requires Valid()
      modifies this
      ensures charges == RewriteCharge(old(charges), id, c => WithStatus(c, status, now))
      ensures diagnoses == old(diagnoses) && Valid()
    {
      RewriteKeepsIds(charges, id, c => WithStatus(c, status, now));
      var i := FindCharge(charges, id);
      if i.Some? {
        charges := charges[i.value := WithStatus(charges[i.value], status, now)];
      }
    }

    /** `updateCharge`: refuse a missing or billed charge, otherwise apply the edits. */
    method UpdateCharge(id: string, u: ChargeUpdates, now: int) returns (r: UpdateOutcome)
      requires Valid()
      modifies this
      ensures (r, charges) == UpdateChargeOutcome(old(charges), id, u, now)
      ensures diagnoses == old(diagnoses) && Valid()
    {
      var i := FindCharge(charges, id);
      if i.None? {
        return UpdateFailed(ChargeNotFound);
      }
      var k := i.value;
      if charges[k].status == Billed {
        return UpdateFailed(ChargeIsBilled);
      }
      var c := Edited(charges[k], u, now);
      charges := charges[k := c];
      r := Updated(c);
    }

    /** `markChargeEntered`. */
    method MarkChargeEntered(id: string, admin: Option<string>, now: int)
      requires Valid()
      modifies this
      ensures charges == RewriteCharge(old(charges), id, c => MarkedEntered(c, admin, now))
      ensures diagnoses == old(diagnoses) && Valid()
    {
      RewriteKeepsIds(charges, id, c => MarkedEntered(c, admin, now));
      var i := FindCharge(charges, id);
      if i.Some? {
        charges := charges[i.value := MarkedEntered(charges[i.value], admin, now)];
      }
    }

    /** `markChargeBilled`: locks the charge. */
    method MarkChargeBilled(id: string, admin: Option<string>, now: int)
      requires Valid()
      modifies this
      ensures charges == RewriteCharge(old(charges), id, c => MarkedBilled(c, admin, now))
      ensures diagnoses == old(diagnoses) && Valid()
    {
      RewriteKeepsIds(charges, id, c => MarkedBilled(c, admin, now));
      var i := FindCharge(charges, id);
      if i.Some? {
        charges := charges[i.value := MarkedBilled(charges[i.value], admin, now)];
      }
    }

    /** `deleteCharge`. */
    method DeleteCharge(id: string)
      requires Valid()
      modifies this
      ensures charges == WithoutCharge(old(charges), id)
      ensures diagnoses == old(diagnoses) && Valid()
    {
      FilterKeepsDistinctIds(charges, (c: StoredCharge) => c.id != id);
      charges := WithoutCharge(charges, id);
    }

    /** `saveDiagnoses`: replace one patient's diagnosis list. */
    method SaveDiagnoses(inpatientId: string, dx: seq<string>)
      modifies this
      ensures diagnoses == old(diagnoses)[inpatientId := dx] && charges == old(charges)
    {
      diagnoses := diagnoses[inpatientId := dx];
    }

    /** `getDiagnosesForPatient`: the stored list, or none. */
    function DiagnosesForPatient(inpatientId: string): (dx: seq<string>)
      reads this
      ensures inpatientId !in diagnoses ==> dx == []
    {
      if inpatientId in diagnoses then diagnoses[inpatientId] else []
    }
  }

  /** Dropping charges keeps the remaining ids distinct. */
  lemma {:induction false} FilterKeepsDistinctIds(charges: seq<StoredCharge>, p: StoredCharge -> bool)
    requires DistinctIds(charges)
    ensures DistinctIds(Filter(charges, p))
  {
    if |charges| > 0 {
      var rest := charges[1..];
      FilterKeepsDistinctIds(rest, p);
      if p(charges[0]) {
        assert Filter(charges, p) == [charges[0]] + Filter(rest, p);
        HeadIdUnique(charges);
        ConsDistinct(charges[0], Filter(rest, p));
      }
    }
  }

  lemma HeadIdUnique(charges: seq<StoredCharge>)
    requires |charges| > 0 && DistinctIds(charges)
    ensures forall y :: y in charges[1..] ==> y.id != charges[0].id
  {
    forall y | y in charges[1..] ensures y.id != charges[0].id {
      var j :| 0 <= j < |charges| - 1 && charges[1..][j] == y;
      assert charges[j + 1] == y;
    }
  }

  lemma ConsDistinct(x: StoredCharge, r: seq<StoredCharge>)
    requires DistinctIds(r) && forall y :: y in r ==> y.id != x.id
    ensures DistinctIds([x] + r)
  {
    var s := [x] + r;
    forall i, j | 0 <= i < j < |s| ensures s[i].id != s[j].id {
      assert s[j] == r[j - 1];
      if i > 0 {
        assert s[i] == r[i - 1];
      } else {
        assert r[j - 1] in r;
      }
    }
  }

  // ==================================================================== grouping

  predicate SameVisit(a: StoredCharge, b: StoredCharge)
  {
    a.inpatientId == b.inpatientId && a.chargeDate == b.chargeDate
  }

  /**
   * Among the first `n` charges, charge `i` is the one the grouping keeps
   * for its patient and date: no later creation time among them, and the
   * first with its creation time (a later tie does not replace it).
   */
  ghost predicate LatestAmong(charges: seq<StoredCharge>, n: nat, i: nat)
    requires n <= |charges| && i < n
  {
    forall j :: 0 <= j < n && SameVisit(charges[j], charges[i]) ==>
      charges[j].createdAt <= charges[i].createdAt && (j < i ==> charges[j].createdAt < charges[i].createdAt)
  }

  /** What the grouping loop has built from the first `n` charges. */
  ghost predicate GroupedUpTo(charges: seq<StoredCharge>, n: nat, m: map<string, map<int, StoredCharge>>)
    requires n <= |charges|
  {
    && (forall p :: p in m ==> exists i :: 0 <= i < n && charges[i].inpatientId == p)
    && (forall i :: 0 <= i < n ==> charges[i].inpatientId in m && charges[i].chargeDate in m[charges[i].inpatientId])
    && (forall p, d :: p in m && d in m[p] ==>
          exists i :: 0 <= i < n && m[p][d] == charges[i] && charges[i].inpatientId == p && charges[i].chargeDate == d
            && LatestAmong(charges, n, i))
  }

  /**
   * `getChargesByPatientAndDate`: patient -> date -> the most recently
   * created charge of that patient on that date, the first on a tie.
   */
  method ChargesByPatientAndDate(charges: seq<StoredCharge>) returns (m: map<string, map<int, StoredCharge>>)
    ensures forall p :: p in m <==> exists i :: 0 <= i < |charges| && charges[i].inpatientId == p
    ensures forall i :: 0 <= i < |charges| ==> charges[i].inpatientId in m && charges[i].chargeDate in m[charges[i].inpatientId]
    ensures forall p, d :: p in m && d in m[p] ==>
      exists i :: 0 <= i < |charges| && m[p][d] == charges[i] && charges[i].inpatientId == p && charges[i].chargeDate == d
        && LatestAmong(charges, |charges|, i)
  {
    m := map[];
    for n := 0 to |charges|
      invariant GroupedUpTo(charges, n, m)
    {
      var c := charges[n];
      if c.inpatientId !in m {
        m := m[c.inpatientId := map[]];
      }
      var inner := m[c.inpatientId];
      if c.chargeDate !in inner || c.createdAt > inner[c.chargeDate].createdAt {
        GroupStepReplace(charges, n, m, c);
        m := m[c.inpatientId := inner[c.chargeDate := c]];
      } else {
        GroupStepKeep(charges, n, m);
      }
    }
  }

  /** The loop step that stores charge `n`. */
  lemma GroupStepReplace(charges: seq<StoredCharge>, n: nat, m: map<string, map<int, StoredCharge>>, c: StoredCharge)
    requires n < |charges| && c == charges[n]
    requires c.inpatientId in m
    requires (forall p :: p in m && p != c.inpatientId ==> exists i :: 0 <= i < n && charges[i].inpatientId == p)
    requires (forall i :: 0 <= i < n ==> charges[i].inpatientId in m && charges[i].chargeDate in m[charges[i].inpatientId])
    requires (forall p, d :: p in m && d in m[p] ==>
          exists i :: 0 <= i < n && m[p][d] == charges[i] && charges[i].inpatientId == p && charges[i].chargeDate == d
            && LatestAmong(charges, n, i))
    requires var inner := m[c.inpatientId]; c.chargeDate !in inner || c.createdAt > inner[c.chargeDate].createdAt
    ensures GroupedUpTo(charges, n + 1, m[c.inpatientId := m[c.inpatientId][c.chargeDate := c]])
  {
    var inner := m[c.inpatientId];
    var m' := m[c.inpatientId := inner[c.chargeDate := c]];
    if c.chargeDate in inner {
      var i :| 0 <= i < n && inner[c.chargeDate] == charges[i] && charges[i].inpatientId == c.inpatientId
        && charges[i].chargeDate == c.chargeDate && LatestAmong(charges, n, i);
      NewestSoFar(charges, n, i);
    } else {
      NoEarlierVisit(charges, n);
    }
    forall p, d | p in m' && d in m'[p]
      ensures exists i :: (0 <= i < n + 1 && m'[p][d] == charges[i] && charges[i].inpatientId == p && charges[i].chargeDate == d
            && LatestAmong(charges, n + 1, i))
    {
      if p == c.inpatientId && d == c.chargeDate {
        assert m'[p][d] == charges[n];
      } else {
        var i :| 0 <= i < n && m[p][d] == charges[i] && charges[i].inpatientId == p && charges[i].chargeDate == d
            && LatestAmong(charges, n, i);
        OtherVisitStays(charges, n, i);
      }
    }
    forall p | p in m' ensures exists i :: 0 <= i < n + 1 && charges[i].inpatientId == p {
      if p == c.inpatientId {
        assert charges[n].inpatientId == p;
      }
    }
  }

  lemma NewestSoFar(charges: seq<StoredCharge>, n: nat, i: nat)
    requires i < n < |charges| && LatestAmong(charges, n, i)
    requires SameVisit(charges[n], charges[i]) && charges[n].createdAt > charges[i].createdAt
    ensures LatestAmong(charges, n + 1, n)
  {
    forall j | 0 <= j < n && SameVisit(charges[j], charges[n]) ensures charges[j].createdAt < charges[n].createdAt {
      assert SameVisit(charges[j], charges[i]);
    }
  }

  lemma NoEarlierVisit(charges: seq<StoredCharge>, n: nat)
    requires n < |charges| && forall j :: 0 <= j < n ==> !SameVisit(charges[j], charges[n])
    ensures LatestAmong(charges, n + 1, n)
  {
  }

  lemma OtherVisitStays(charges: seq<StoredCharge>, n: nat, i: nat)
    requires i < n < |charges| && LatestAmong(charges, n, i)
    requires !SameVisit(charges[n], charges[i])
    ensures LatestAmong(charges, n + 1, i)
  {
  }

  lemma OlderStays(charges: seq<StoredCharge>, n: nat, i: nat)
    requires i < n < |charges| && LatestAmong(charges, n, i)
    requires charges[n].createdAt <= charges[i].createdAt
    ensures LatestAmong(charges, n + 1, i)
  {
  }

  /** The loop step that keeps the stored charge: charge `n` is no later than it. */
  lemma GroupStepKeep(charges: seq<StoredCharge>, n: nat, m: map<string, map<int, StoredCharge>>)
    requires n < |charges|
    requires charges[n].inpatientId in m
    requires var c := charges[n]; c.chargeDate in m[c.inpatientId] && c.createdAt <= m[c.inpatientId][c.chargeDate].createdAt
    requires (forall p :: p in m && p != charges[n].inpatientId ==> exists i :: 0 <= i < n && charges[i].inpatientId == p)
    requires (forall i :: 0 <= i < n ==> charges[i].inpatientId in m && charges[i].chargeDate in m[charges[i].inpatientId])
    requires (forall p, d :: p in m && d in m[p] ==>
          exists i :: 0 <= i < n && m[p][d] == charges[i] && charges[i].inpatientId == p && charges[i].chargeDate == d
            && LatestAmong(charges, n, i))
    ensures GroupedUpTo(charges, n + 1, m)
  {
    forall p, d | p in m && d in m[p]
      ensures exists i :: (0 <= i < n + 1 && m[p][d] == charges[i] && charges[i].inpatientId == p && charges[i].chargeDate == d
            && LatestAmong(charges, n + 1, i))
    {
      var i :| 0 <= i < n && m[p][d] == charges[i] && charges[i].inpatientId == p && charges[i].chargeDate == d
            && LatestAmong(charges, n, i);
      if SameVisit(charges[n], charges[i]) {
        OlderStays(charges, n, i);
      } else {
        OtherVisitStays(charges, n, i);
      }
    }
    forall p | p in m ensures exists i :: 0 <= i < n + 1 && charges[i].inpatientId == p {
      if p == charges[n].inpatientId {
        assert charges[n].inpatientId == p;
      }
    }
  }

  /** `hasChargeForDate` over the grouped charges. */
  predicate HasChargeForDate(m: map<string, map<int, StoredCharge>>, patientId: string, date: int)
  {
    patientId in m && date in m[patientId]
  }

  /**
   * Where `getMostRecentCharge`'s `reduce` ends: it keeps the running charge
   * unless a strictly later one comes, so it is the first of the latest.
   */
  function MostRecentIndex(charges: seq<StoredCharge>): (i: nat)
    requires |charges| > 0
    ensures i < |charges|
    ensures forall j :: 0 <= j < |charges| ==> charges[j].createdAt <= charges[i].createdAt
    ensures forall j :: 0 <= j < i ==> charges[j].createdAt < charges[i].createdAt
  {
    if |charges| == 1 then 0
    else
      var prev := MostRecentIndex(charges[..|charges| - 1]);
      if charges[|charges| - 1].createdAt > charges[prev].createdAt then |charges| - 1 else prev
  }

  /** `getMostRecentCharge` over one patient's charges: none when there are none. */
  function MostRecent(charges: seq<StoredCharge>): (r: Option<StoredCharge>)
    ensures r.None? <==> |charges| == 0
    ensures r.Some? ==> r.value in charges
  {
    if |charges| == 0 then None else Some(charges[MostRecentIndex(charges)])
  }
}
