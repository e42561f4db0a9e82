/**
 * Concurrent-visit detection (src/services/concurrentVisitService.ts): has
 * another physician already charged this patient on this date?
 */
module ConcurrentVisit {
  import opened Text
  import opened ChargesService

  datatype ConcurrentVisitWarning = ConcurrentVisitWarning(existingCharge: StoredCharge, physicianName: string)

  /** A stored charge for the same patient and date, submitted by someone other than the current user. */
  predicate OtherPhysicianVisit(c: StoredCharge, patientId: string, chargeDate: int, currentUserId: string)
  {
    c.inpatientId == patientId && c.chargeDate == chargeDate
    && Truthy(c.submittedByUserId) && c.submittedByUserId.value != currentUserId
  }

  /** Charge `i` is the first such charge. */
  predicate FirstOtherVisit(charges: seq<StoredCharge>, i: int, patientId: string, chargeDate: int, currentUserId: string)
  {
    0 <= i < |charges| && OtherPhysicianVisit(charges[i], patientId, chargeDate, currentUserId)
    && forall j :: 0 <= j < i ==> !OtherPhysicianVisit(charges[j], patientId, chargeDate, currentUserId)
  }

  /** Where `find` stops: the first such charge. */
  function FirstOtherVisitIndex(charges: seq<StoredCharge>, patientId: string, chargeDate: int, currentUserId: string)
    : (r: Option<nat>)
    ensures r.None? <==> forall i :: 0 <= i < |charges| ==> !OtherPhysicianVisit(charges[i], patientId, chargeDate, currentUserId)
    ensures r.Some? ==> FirstOtherVisit(charges, r.value, patientId, chargeDate, currentUserId)
  {
    if |charges| == 0 then None
    else if OtherPhysicianVisit(charges[0], patientId, chargeDate, currentUserId) then Some(0)
    else match FirstOtherVisitIndex(charges[1..], patientId, chargeDate, currentUserId)
      case None => None
      case Some(k) => Some(k + 1)
  }

  /**
   * `checkConcurrentVisit`: the first such charge in stored order, with its
   * submitter's name or 'Another physician'; none when there is none.
   */
  function CheckConcurrentVisit(charges: seq<StoredCharge>, patientId: string, chargeDate: int, currentUserId: string)
    : (r: Option<ConcurrentVisitWarning>)
    ensures r.None? <==> forall c :: c in charges ==> !OtherPhysicianVisit(c, patientId, chargeDate, currentUserId)
    ensures r.Some? ==> exists i :: FirstOtherVisit(charges, i, patientId, chargeDate, currentUserId) && charges[i] == r.value.existingCharge
    ensures r.Some? ==> r.value.physicianName == OrElse(r.value.existingCharge.submittedByUserName, "Another physician")
  {
    match FirstOtherVisitIndex(charges, patientId, chargeDate, currentUserId)
    case None => None
    case Some(i) => Some(ConcurrentVisitWarning(charges[i], OrElse(charges[i].submittedByUserName, "Another physician")))
  }

  /** A charge without a submitter is never reported, and neither is the current user's own. */
  lemma OwnOrAnonymousChargesIgnored(charges: seq<StoredCharge>, patientId: string, chargeDate: int, currentUserId: string)
    requires forall c :: c in charges ==> !Truthy(c.submittedByUserId) || c.submittedByUserId == Some(currentUserId)
    ensures CheckConcurrentVisit(charges, patientId, chargeDate, currentUserId).None?
  {
  }

  /** A warning names its submitter when the charge carries a non-empty name. */
  lemma WarningNamesSubmitter(charges: seq<StoredCharge>, patientId: string, chargeDate: int, currentUserId: string)
    requires CheckConcurrentVisit(charges, patientId, chargeDate, currentUserId).Some?
    ensures var w := CheckConcurrentVisit(charges, patientId, chargeDate, currentUserId).value;
      w.existingCharge.inpatientId == patientId && w.existingCharge.chargeDate == chargeDate
      && w.existingCharge.submittedByUserId != Some(currentUserId)
      && (Truthy(w.existingCharge.submittedByUserName) ==> w.physicianName == w.existingCharge.submittedByUserName.value)
  {
  }
}
