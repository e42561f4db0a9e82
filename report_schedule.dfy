/**
 * The report reminder (src/services/reportScheduleService.ts): whether a
 * periodic report is due, when it is next due, and recording that it was
 * generated. Instants are milliseconds since the epoch; the clock is a
 * parameter, and so is the local calendar (the month an instant falls in,
 * and adding local days or months to an instant), which depends on the
 * device's time zone.
 */
module ReportSchedule {
  import opened Text
  import ACS = AdminChargeService

  datatype Frequency = Daily | Weekly | Monthly

  datatype Schedule = Schedule(
    frequency: Frequency,
    dayOfWeek: int,
    dayOfMonth: int,
    lastGeneratedAt: Option<int>,
    isActive: bool)

  /** `defaultSchedule`: weekly on Mondays, never generated, switched off. */
  const DefaultSchedule := Schedule(Weekly, 1, 1, None, false)

  /**
   * The local calendar: `monthIndex` is 12 * getFullYear() + getMonth() of
   * an instant, `addDays` and `addMonths` are `setDate(getDate() + n)` and
   * `setMonth(getMonth() + n)`.
   */
  datatype Calendar = Calendar(monthIndex: int -> int, addDays: (int, int) -> int, addMonths: (int, int) -> int)

  /** `isReportDue`. */
  function IsReportDue(s: Schedule, now: int, cal: Calendar): (due: bool)
    ensures !s.isActive ==> !due
    ensures s.isActive && s.lastGeneratedAt.None? ==> due
    ensures s.isActive && s.lastGeneratedAt.Some? ==>
      var last := s.lastGeneratedAt.value;
      match s.frequency
      case Daily => (due <==> ACS.UtcDay(now) > ACS.UtcDay(last))
      case Weekly => (due <==> now - last >= 7 * ACS.MsPerDay)
      case Monthly => (due <==> cal.monthIndex(now) - cal.monthIndex(last) >= 1)
  {
    if !s.isActive then false
    else match s.lastGeneratedAt
      case None => true
      case Some(last) =>
        match s.frequency
        case Daily => ACS.UtcDay(now) > ACS.UtcDay(last)
        case Weekly =>
          var diffDays := (now - last) / ACS.MsPerDay;
          WholeDays(now - last);
          diffDays >= 7
        case Monthly => cal.monthIndex(now) - cal.monthIndex(last) >= 1
  }

  /** `Math.floor(d / msPerDay) >= 7` holds exactly when at least seven whole days have passed. */
  lemma WholeDays(d: int)
    ensures d / ACS.MsPerDay >= 7 <==> d >= 7 * ACS.MsPerDay
  {
    var q, r := d / ACS.MsPerDay, d % ACS.MsPerDay;
    assert d == q * ACS.MsPerDay + r && 0 <= r < ACS.MsPerDay;
    if q >= 7 {
      assert q * ACS.MsPerDay >= 7 * ACS.MsPerDay;
    } else {
      assert q * ACS.MsPerDay <= 6 * ACS.MsPerDay;
    }
  }

  /** `getNextDueDate`: none when switched off; else the last generation (or now) plus a day, a week or a month. */
  function GetNextDueDate(s: Schedule, now: int, cal: Calendar): (next: Option<int>)
    ensures next.None? <==> !s.isActive
    ensures next.Some? ==>
      var from := if s.lastGeneratedAt.Some? then s.lastGeneratedAt.value else now;
      next.value == match s.frequency
        case Daily => cal.addDays(from, 1)
        case Weekly => cal.addDays(from, 7)
        case Monthly => cal.addMonths(from, 1)
  {
    if !s.isActive then None
    else
      var last := if s.lastGeneratedAt.Some? then s.lastGeneratedAt.value else now;
      match s.frequency
      case Daily => Some(cal.addDays(last, 1))
      case Weekly => Some(cal.addDays(last, 7))
      case Monthly => Some(cal.addMonths(last, 1))
  }

  /** A calendar whose days are all 24 hours long: no clock change in the period. */
  ghost predicate EvenDays(cal: Calendar)
  {
    forall t: int, n: int :: cal.addDays(t, n) == t + n * ACS.MsPerDay
  }

  /**
   * A weekly report falls due exactly at its next due date, when no clock
   * change intervenes: the reminder and the shown date agree.
   */
  lemma WeeklyDueAtNextDueDate(s: Schedule, now: int, later: int, cal: Calendar)
    requires s.isActive && s.frequency == Weekly && s.lastGeneratedAt.Some? && EvenDays(cal)
    ensures IsReportDue(s, later, cal) <==> later >= GetNextDueDate(s, now, cal).value
  {
  }

  /** A daily report is due at its next due date, when no clock change intervenes. */
  lemma DailyDueAtNextDueDate(s: Schedule, now: int, cal: Calendar)
    requires s.isActive && s.frequency == Daily && s.lastGeneratedAt.Some? && EvenDays(cal)
    ensures IsReportDue(s, GetNextDueDate(s, now, cal).value, cal)
  {
    var last := s.lastGeneratedAt.value;
    var q, r := last / ACS.MsPerDay, last % ACS.MsPerDay;
    assert last == q * ACS.MsPerDay + r;
    assert last + ACS.MsPerDay == (q + 1) * ACS.MsPerDay + r;
  }

  /** A monthly report is due at its next due date when adding a month reaches a later month. */
  lemma MonthlyDueAtNextDueDate(s: Schedule, now: int, cal: Calendar)
    requires s.isActive && s.frequency == Monthly && s.lastGeneratedAt.Some?
    requires cal.monthIndex(cal.addMonths(s.lastGeneratedAt.value, 1)) > cal.monthIndex(s.lastGeneratedAt.value)
    ensures IsReportDue(s, GetNextDueDate(s, now, cal).value, cal)
  {
  }

  /** Right after it is generated, a report is not due, whatever the frequency. */
  lemma NotDueRightAfterGenerating(s: Schedule, now: int, cal: Calendar)
    ensures !IsReportDue(s.(lastGeneratedAt := Some(now)), now, cal)
  {
  }

  /** The saved schedule of an organisation. */
  class ScheduleStore {
    var schedule: Schedule

    constructor(saved: Schedule)
      ensures schedule == saved
    {
      schedule := saved;
    }

    /** `markReportGenerated`: the generation time becomes now; nothing else changes. */
    method MarkReportGenerated(now: int)
      modifies this
      ensures schedule == old(schedule).(lastGeneratedAt := Some(now))
      ensures schedule.frequency == old(schedule.frequency) && schedule.isActive == old(schedule.isActive)
      ensures schedule.dayOfWeek == old(schedule.dayOfWeek) && schedule.dayOfMonth == old(schedule.dayOfMonth)
    {
      schedule := schedule.(lastGeneratedAt := Some(now));
    }
  }
}
