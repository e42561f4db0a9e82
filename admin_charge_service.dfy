/**
 * The admin portal's charge queries (src/services/adminChargeService.ts):
 * the merged charge list, the filtered and sorted charge queue, a patient's
 * charge history, the batch status changes and the dashboard counts. The
 * stored charges, the dev-mode mock charges, the patient list and the clock
 * are parameters; a storage call that throws is an input flag per id.
 */
module AdminChargeService {
  import opened Text
  import opened Sorting
  import opened ChargesService
  import opened Inpatients

  // ==================================================================== getAllCharges

  function StoredIds(stored: seq<StoredCharge>): set<string>
  {
    set c | c in stored :: c.id
  }

  /** A mock charge whose id is not stored already. */
  function NotStored(stored: seq<StoredCharge>): StoredCharge -> bool
  {
    (c: StoredCharge) => c.id !in StoredIds(stored)
  }

  /** What `getAllCharges` returns: in dev mode the stored charges, then the mock charges not stored. */
  function AllCharges(stored: seq<StoredCharge>, mock: seq<StoredCharge>, devEnabled: bool): seq<StoredCharge>
  {
    if devEnabled then stored + Filter(mock, NotStored(stored)) else stored
  }

  /** `getAllCharges`: copy the stored charges and push each mock charge with a new id. */
  method GetAllCharges(stored: seq<StoredCharge>, mock: seq<StoredCharge>, devEnabled: bool) returns (merged: seq<StoredCharge>)
    ensures merged == AllCharges(stored, mock, devEnabled)
  {
    if !devEnabled {
      return stored;
    }
    merged := PushEach(stored, mock, NotStored(stored));
  }

  /** The merged list holds every stored charge, and a mock charge only when its id is not stored. */
  lemma AllChargesMembers(stored: seq<StoredCharge>, mock: seq<StoredCharge>, devEnabled: bool, c: StoredCharge)
    ensures c in AllCharges(stored, mock, devEnabled) <==>
      c in stored || (devEnabled && c in mock && forall s :: s in stored ==> s.id != c.id)
  {
    if c in mock && c !in stored && forall s :: s in stored ==> s.id != c.id {
      assert c.id !in StoredIds(stored);
    }
  }

  /** Merging never gives two charges one id, when neither list does. */
  lemma AllChargesDistinctIds(stored: seq<StoredCharge>, mock: seq<StoredCharge>, devEnabled: bool)
    requires DistinctIds(stored) && DistinctIds(mock)
    ensures DistinctIds(AllCharges(stored, mock, devEnabled))
  {
    if devEnabled {
      var extra := Filter(mock, NotStored(stored));
      FilterKeepsDistinctIds(mock, NotStored(stored));
      var all := stored + extra;
      forall i, j | 0 <= i < j < |all| ensures all[i].id != all[j].id {
        if j >= |stored| {
          assert all[j] == extra[j - |stored|] && all[j] in extra;
          if i < |stored| {
            assert all[i] in stored;
          } else {
            assert all[i] == extra[i - |stored|];
          }
        }
      }
    }
  }

  // ==================================================================== getChargeQueue

  datatype QueueStatus = AllActive | OnlyPending | OnlyEntered

  datatype DateRange = DateRange(start: int, end: int)

  /** `ChargeQueueFilters`; an absent or empty id, and an empty query, turn that filter off. */
  datatype ChargeQueueFilters = ChargeQueueFilters(
    status: QueueStatus,
    physicianId: Option<string>,
    hospitalId: Option<string>,
    dateRange: Option<DateRange>,
    searchQuery: string)

  datatype ChargeQueueItem = ChargeQueueItem(charge: StoredCharge, patient: Inpatient, physicianName: string, hospitalName: string)

  /** The queue row of a charge and its patient, with 'Unknown' for a missing name. */
  function ItemOf(c: StoredCharge, p: Inpatient): (it: ChargeQueueItem)
    ensures it.charge == c && it.patient == p
    ensures Truthy(c.submittedByUserName) ==> it.physicianName == c.submittedByUserName.value
    ensures !Truthy(c.submittedByUserName) && !Truthy(p.primaryPhysicianName) ==> it.physicianName == "Unknown"
    ensures it.hospitalName == (if Truthy(p.hospitalName) then p.hospitalName.value else "Unknown")
  {
    ChargeQueueItem(c, p, OrElse(c.submittedByUserName, OrElse(p.primaryPhysicianName, "Unknown")), OrElse(p.hospitalName, "Unknown"))
  }

  /** What one charge contributes to the queue before filtering: a row when its patient is known. */
  function QueuePiece(patients: seq<Inpatient>): StoredCharge -> seq<ChargeQueueItem>
  {
    (c: StoredCharge) => match PatientById(patients, c.inpatientId)
         case None => []
         case Some(p) => [ItemOf(c, p)]
  }

  function BaseItems(charges: seq<StoredCharge>, patients: seq<Inpatient>): seq<ChargeQueueItem>
  {
    FlatMap(charges, QueuePiece(patients))
  }

  predicate StatusPasses(f: ChargeQueueFilters, it: ChargeQueueItem)
  {
    match f.status
    case AllActive => it.charge.status != Billed
    case OnlyPending => it.charge.status == Pending
    case OnlyEntered => it.charge.status == Entered
  }

  predicate PhysicianPasses(f: ChargeQueueFilters, it: ChargeQueueItem)
  {
    !Truthy(f.physicianId) || it.charge.submittedByUserId == f.physicianId || it.patient.primaryPhysicianId == f.physicianId.value
  }

  predicate HospitalPasses(f: ChargeQueueFilters, it: ChargeQueueItem)
  {
    !Truthy(f.hospitalId) || it.patient.hospitalId == f.hospitalId.value
  }

  predicate DatePasses(f: ChargeQueueFilters, it: ChargeQueueItem)
  {
    f.dateRange.None? || f.dateRange.value.start <= it.charge.chargeDate <= f.dateRange.value.end
  }

  /** The case-insensitive search on patient name, MRN and CPT string. */
  predicate SearchPasses(f: ChargeQueueFilters, it: ChargeQueueItem)
  {
    var q := Lower(f.searchQuery);
    f.searchQuery == ""
    || Contains(Lower(it.patient.patientName), q)
    || (Truthy(it.patient.mrn) && Contains(Lower(it.patient.mrn.value), q))
    || Contains(Lower(it.charge.cptCode), q)
  }

  /** Every filter of the queue at once. */
  predicate Passes(f: ChargeQueueFilters, it: ChargeQueueItem)
  {
    StatusPasses(f, it) && PhysicianPasses(f, it) && HospitalPasses(f, it) && DatePasses(f, it) && SearchPasses(f, it)
  }

  function DateKey(it: ChargeQueueItem): real
  {
    it.charge.chargeDate as real
  }

  /**
   * `getChargeQueue`: a row per charge with a known patient, the filters in
   * the source's order, then a stable sort by charge date, newest first.
   */
  method GetChargeQueue(charges: seq<StoredCharge>, patients: seq<Inpatient>, f: ChargeQueueFilters) returns (items: seq<ChargeQueueItem>)
    ensures multiset(items) == multiset(Filter(BaseItems(charges, patients), it => Passes(f, it)))
    ensures SortedDesc(items, DateKey)
  {
    items := [];
    for i := 0 to |charges|
      invariant items == FlatMap(charges[..i], QueuePiece(patients))
    {
      FlatMapStep(charges, i, QueuePiece(patients));
      var p := PatientById(patients, charges[i].inpatientId);
      if p.Some? {
        items := items + [ItemOf(charges[i], p.value)];
      }
    }
    assert charges[..|charges|] == charges;
    ghost var base := items;
    items := Filter(items, it => StatusPasses(f, it));
    ghost var p1: ChargeQueueItem -> bool := it => StatusPasses(f, it);
    if Truthy(f.physicianId) {
      items := Filter(items, it => PhysicianPasses(f, it));
    } else {
      FilterAll(items, it => PhysicianPasses(f, it));
    }
    ghost var p2: ChargeQueueItem -> bool := it => p1(it) && PhysicianPasses(f, it);
    FilterFilter(base, p1, it => PhysicianPasses(f, it), p2);
    if Truthy(f.hospitalId) {
      items := Filter(items, it => HospitalPasses(f, it));
    } else {
      FilterAll(items, it => HospitalPasses(f, it));
    }
    ghost var p3: ChargeQueueItem -> bool := it => p2(it) && HospitalPasses(f, it);
    FilterFilter(base, p2, it => HospitalPasses(f, it), p3);
    if f.dateRange.Some? {
      items := Filter(items, it => DatePasses(f, it));
    } else {
      FilterAll(items, it => DatePasses(f, it));
    }
    ghost var p4: ChargeQueueItem -> bool := it => p3(it) && DatePasses(f, it);
    FilterFilter(base, p3, it => DatePasses(f, it), p4);
    if f.searchQuery != "" {
      items := Filter(items, it => SearchPasses(f, it));
    } else {
      FilterAll(items, it => SearchPasses(f, it));
    }
    FilterFilter(base, p4, it => SearchPasses(f, it), it => Passes(f, it));
    items := SortDesc(items, DateKey);
  }

  /** A queue row is a charge of the list, with the patient its id looks up, passing every filter. */
  lemma QueueMembers(charges: seq<StoredCharge>, patients: seq<Inpatient>, f: ChargeQueueFilters, it: ChargeQueueItem)
    ensures it in Filter(BaseItems(charges, patients), it => Passes(f, it)) <==>
      it.charge in charges && PatientById(patients, it.charge.inpatientId) == Some(it.patient)
      && it == ItemOf(it.charge, it.patient) && Passes(f, it)
  {
    FlatMapMember(charges, QueuePiece(patients), it);
    if it.charge in charges && PatientById(patients, it.charge.inpatientId) == Some(it.patient) && it == ItemOf(it.charge, it.patient) {
      var i :| 0 <= i < |charges| && charges[i] == it.charge;
      assert it in QueuePiece(patients)(charges[i]);
    }
  }

  /** With the default status filter, no billed charge is in the queue. */
  lemma DefaultQueueHidesBilled(charges: seq<StoredCharge>, patients: seq<Inpatient>, f: ChargeQueueFilters, it: ChargeQueueItem)
    requires f.status == AllActive
    requires it in Filter(BaseItems(charges, patients), it => Passes(f, it))
    ensures it.charge.status != Billed
  {
  }

  // ==================================================================== getPatientChargeHistory

  function ChargeDateKey(c: StoredCharge): real
  {
    c.chargeDate as real
  }

  /** `getPatientChargeHistory`: the patient's charges, oldest date first (stable). */
  function PatientChargeHistory(charges: seq<StoredCharge>, patientId: string): (r: seq<StoredCharge>)
    ensures multiset(r) == multiset(Filter(charges, (c: StoredCharge) => c.inpatientId == patientId))
    ensures SortedAsc(r, ChargeDateKey)
  {
    SortAsc(Filter(charges, (c: StoredCharge) => c.inpatientId == patientId), ChargeDateKey)
  }

  /** The history holds exactly the patient's charges. */
  lemma HistoryMembers(charges: seq<StoredCharge>, patientId: string)
    ensures forall c :: c in PatientChargeHistory(charges, patientId) <==> c in charges && c.inpatientId == patientId
  {
    PermutationMembers(PatientChargeHistory(charges, patientId), Filter(charges, (c: StoredCharge) => c.inpatientId == patientId));
  }

  // ==================================================================== batch status changes

  /** The number of `false` entries: the calls that did not throw. */
  function Successes(fails: seq<bool>): (n: nat)
    ensures n <= |fails|
  {
    if |fails| == 0 then 0 else Successes(fails[..|fails| - 1]) + (if fails[|fails| - 1] then 0 else 1)
  }

  /**
   * The charge list after the first `n` calls of a batch, each rewriting the
   * charge with its id by `f` unless its storage call throws.
   */
  function BatchMarked(charges: seq<StoredCharge>, ids: seq<string>, fails: seq<bool>, f: StoredCharge -> StoredCharge, n: nat): seq<StoredCharge>
    requires n <= |ids| == |fails|
  {
    if n == 0 then charges
    else
      var prev := BatchMarked(charges, ids, fails, f, n - 1);
      if fails[n - 1] then prev else RewriteCharge(prev, ids[n - 1], f)
  }

  datatype AuditEvent = ChargeBatchBilled(userId: string, userName: string, batchSize: nat)

  /** `batchMarkChargesEntered`: mark each id entered, counting the calls that succeed and those that throw. */
  method BatchMarkChargesEntered(store: ChargeStore, ids: seq<string>, fails: seq<bool>, adminName: Option<string>, now: int)
    returns (success: nat, failed: nat)
    requires |fails| == |ids| && store.Valid()
    modifies store
    ensures store.charges == BatchMarked(old(store.charges), ids, fails, c => MarkedEntered(c, adminName, now), |ids|)
    ensures store.Valid() && store.diagnoses == old(store.diagnoses)
    ensures success == Successes(fails) && success + failed == |ids|
  {
    success, failed := 0, 0;
    for i := 0 to |ids|
      invariant store.charges == BatchMarked(old(store.charges), ids, fails, c => MarkedEntered(c, adminName, now), i)
      invariant store.Valid() && store.diagnoses == old(store.diagnoses)
      invariant success == Successes(fails[..i]) && success + failed == i
    {
      assert fails[..i + 1][..i] == fails[..i];
      if fails[i] {
        failed := failed + 1;
      } else {
        store.MarkChargeEntered(ids[i], adminName, now);
        success := success + 1;
      }
    }
    assert fails[..|ids|] == fails;
  }

  /**
   * `batchMarkChargesBilled`: mark each id billed, counting successes and
   * failures, and log one batch audit event when anything succeeded.
   */
  method BatchMarkChargesBilled(store: ChargeStore, ids: seq<string>, fails: seq<bool>, adminId: string, adminName: string, now: int)
    returns (success: nat, failed: nat, audit: Option<AuditEvent>)
    requires |fails| == |ids| && store.Valid()
    modifies store
    ensures store.charges == BatchMarked(old(store.charges), ids, fails, c => MarkedBilled(c, Some(adminName), now), |ids|)
    ensures store.Valid() && store.diagnoses == old(store.diagnoses)
    ensures success == Successes(fails) && success + failed == |ids|
    ensures audit.Some? <==> success > 0
    ensures audit.Some? ==> audit.value == ChargeBatchBilled(adminId, adminName, success)
  {
    success, failed := 0, 0;
    for i := 0 to |ids|
      invariant store.charges == BatchMarked(old(store.charges), ids, fails, c => MarkedBilled(c, Some(adminName), now), i)
      invariant store.Valid() && store.diagnoses == old(store.diagnoses)
      invariant success == Successes(fails[..i]) && success + failed == i
    {
      assert fails[..i + 1][..i] == fails[..i];
      if fails[i] {
        failed := failed + 1;
      } else {
        store.MarkChargeBilled(ids[i], Some(adminName), now);
        success := success + 1;
      }
    }
    assert fails[..|ids|] == fails;
    audit := if success > 0 then Some(ChargeBatchBilled(adminId, adminName, success)) else None;
  }

  /** The first charge with `id` exists and is billed. */
  predicate IsBilled(charges: seq<StoredCharge>, id: string)
  {
    FindCharge(charges, id).Some? && charges[FindCharge(charges, id).value].status == Billed
  }

  /** Lists with the same ids position by position find an id at the same place. */
  lemma {:induction false} SameIdsSameFind(a: seq<StoredCharge>, b: seq<StoredCharge>, id: string)
    requires |a| == |b| && forall i :: 0 <= i < |a| ==> a[i].id == b[i].id
    ensures FindCharge(a, id) == FindCharge(b, id)
  {
    if |a| > 0 && a[0].id != id {
      SameIdsSameFind(a[1..], b[1..], id);
    }
  }

  /** A rewrite that keeps ids keeps an id findable, at the same place. */
  lemma RewriteKeepsFind(charges: seq<StoredCharge>, other: string, f: StoredCharge -> StoredCharge, id: string)
    requires forall c :: f(c).id == c.id
    ensures FindCharge(RewriteCharge(charges, other, f), id) == FindCharge(charges, id)
  {
    RewriteKeepsIds(charges, other, f);
    SameIdsSameFind(RewriteCharge(charges, other, f), charges, id);
  }

  /** Rewriting by a step that bills keeps billed charges billed and bills the rewritten one. */
  lemma RewriteBills(charges: seq<StoredCharge>, other: string, f: StoredCharge -> StoredCharge, id: string)
    requires forall c :: f(c).id == c.id && f(c).status == Billed
    ensures IsBilled(charges, id) ==> IsBilled(RewriteCharge(charges, other, f), id)
    ensures FindCharge(charges, other).Some? ==> IsBilled(RewriteCharge(charges, other, f), other)
  {
    RewriteKeepsFind(charges, other, f, id);
    RewriteKeepsFind(charges, other, f, other);
  }

  /**
   * After a batch of billing steps, each listed charge whose call did not
   * throw, and that was stored, is billed.
   */
  lemma {:induction false} BatchBills(charges: seq<StoredCharge>, ids: seq<string>, fails: seq<bool>, f: StoredCharge -> StoredCharge, n: nat, k: nat)
    requires forall c :: f(c).id == c.id && f(c).status == Billed
    requires n <= |ids| == |fails| && k < n
    requires !fails[k] && FindCharge(charges, ids[k]).Some?
    ensures IsBilled(BatchMarked(charges, ids, fails, f, n), ids[k])
  {
    var prev := BatchMarked(charges, ids, fails, f, n - 1);
    if k < n - 1 {
      BatchBills(charges, ids, fails, f, n - 1, k);
    } else {
      BatchKeepsFind(charges, ids, fails, f, n - 1, ids[k]);
    }
    if !fails[n - 1] {
      RewriteBills(prev, ids[n - 1], f, ids[k]);
    }
  }

  /** After `batchMarkChargesBilled`, every stored charge whose call did not throw is billed, and so locked against edits. */
  lemma BatchBilledLocks(charges: seq<StoredCharge>, ids: seq<string>, fails: seq<bool>, admin: string, now: int, k: nat)
    requires |ids| == |fails| && k < |ids|
    requires !fails[k] && FindCharge(charges, ids[k]).Some?
    ensures var after := BatchMarked(charges, ids, fails, c => MarkedBilled(c, Some(admin), now), |ids|);
      IsBilled(after, ids[k]) && !CanEditCharge(after[FindCharge(after, ids[k]).value])
  {
    BatchBills(charges, ids, fails, c => MarkedBilled(c, Some(admin), now), |ids|, k);
  }

  /** A batch of id-keeping rewrites keeps every id in its place. */
  lemma {:induction false} BatchKeepsIds(charges: seq<StoredCharge>, ids: seq<string>, fails: seq<bool>, f: StoredCharge -> StoredCharge, n: nat)
    requires n <= |ids| == |fails|
    requires forall c :: f(c).id == c.id
    ensures var after := BatchMarked(charges, ids, fails, f, n);
      |after| == |charges| && forall i :: 0 <= i < |charges| ==> after[i].id == charges[i].id
  {
    if n > 0 {
      var prev := BatchMarked(charges, ids, fails, f, n - 1);
      BatchKeepsIds(charges, ids, fails, f, n - 1);
      if !fails[n - 1] {
        RewriteKeepsIds(prev, ids[n - 1], f);
      }
    }
  }

  /** A batch of id-keeping rewrites finds every id where it was. */
  lemma BatchKeepsFind(charges: seq<StoredCharge>, ids: seq<string>, fails: seq<bool>, f: StoredCharge -> StoredCharge, n: nat, id: string)
    requires n <= |ids| == |fails|
    requires forall c :: f(c).id == c.id
    ensures FindCharge(BatchMarked(charges, ids, fails, f, n), id) == FindCharge(charges, id)
  {
    BatchKeepsIds(charges, ids, fails, f, n);
    SameIdsSameFind(BatchMarked(charges, ids, fails, f, n), charges, id);
  }

  // ==================================================================== getChargeStats

  const MsPerDay := 86400000

  /** The UTC calendar day of a millisecond timestamp (`toISOString().split('T')[0]`). */
  function UtcDay(ms: int): int
  {
    ms / MsPerDay
  }

  predicate BilledOn(c: StoredCharge, day: int)
  {
    c.status == Billed && c.billedAt.Some? && UtcDay(c.billedAt.value) == day
  }

  predicate BilledSince(c: StoredCharge, day: int)
  {
    c.status == Billed && c.billedAt.Some? && UtcDay(c.billedAt.value) >= day
  }

  datatype ChargeStats = ChargeStats(totalPending: nat, totalEntered: nat, billedToday: nat, billedThisWeek: nat)

  /** `getChargeStats` at time `nowMs`: counts by status, and billings today and in the last seven days. */
  function ChargeStatsOf(charges: seq<StoredCharge>, nowMs: int): ChargeStats
  {
    var today := UtcDay(nowMs);
    var weekAgo := UtcDay(nowMs - 7 * MsPerDay);
    ChargeStats(
      |Filter(charges, (c: StoredCharge) => c.status == Pending)|,
      |Filter(charges, (c: StoredCharge) => c.status == Entered)|,
      |Filter(charges, (c: StoredCharge) => BilledOn(c, today))|,
      |Filter(charges, (c: StoredCharge) => BilledSince(c, weekAgo))|)
  }

  /** Seven days back is seven calendar days back. */
  lemma WeekAgoDay(nowMs: int)
    ensures UtcDay(nowMs - 7 * MsPerDay) == UtcDay(nowMs) - 7
  {
    var q, r := nowMs / MsPerDay, nowMs % MsPerDay;
    assert nowMs - 7 * MsPerDay == (q - 7) * MsPerDay + r;
  }

  /** What was billed today was billed this week, and the pending and entered counts fit in the list. */
  lemma StatsBounds(charges: seq<StoredCharge>, nowMs: int)
    ensures var s := ChargeStatsOf(charges, nowMs);
      s.billedToday <= s.billedThisWeek && s.totalPending + s.totalEntered <= |charges|
  {
    var today := UtcDay(nowMs);
    var weekAgo := UtcDay(nowMs - 7 * MsPerDay);
    WeekAgoDay(nowMs);
    FilterLengthMonotone(charges, (c: StoredCharge) => BilledOn(c, today), (c: StoredCharge) => BilledSince(c, weekAgo));
    StatusCountsFit(charges);
  }

  lemma {:induction false} StatusCountsFit(charges: seq<StoredCharge>)
    ensures |Filter(charges, (c: StoredCharge) => c.status == Pending)| + |Filter(charges, (c: StoredCharge) => c.status == Entered)| <= |charges|
  {
    if |charges| > 0 {
      StatusCountsFit(charges[1..]);
    }
  }
}
