/**
 * `makeFirstRepaymentDate` and `makeFixedDateFirstRepayment` of the demo loan
 * service: the first repayment date a demo loan account is given, from the
 * product's schedule-due-dates method.
 *
 * The system clock and the default time zone are parameters (a Clock): the
 * instant `new Date()` reads, the civil date `Calendar.getInstance()` shows in
 * the default zone, and the zone's UTC offset at any instant.
 */
module RepaymentDates {
  import opened Wrappers
  import opened JavaInts
  import opened Calendar
  import opened LoanModel

  datatype Clock = Clock(now: int, today: ValidDate, localOffset: int -> int)

  /** `4 * aDay`: the default distance from the disbursement date. */
  const DEFAULT_DELAY: int := 4 * MS_PER_DAY

  /** The instant the defaults count from: the expected disbursement date, or now when it is null. */
  function DisbursementBase(account: LoanAccount, clock: Clock): (t: int)
    ensures account.disbursementDetails.Some? && account.disbursementDetails.value.expectedDisbursementDate.Some?
            ==> t == account.disbursementDetails.value.expectedDisbursementDate.value
    ensures account.disbursementDetails.None? || account.disbursementDetails.value.expectedDisbursementDate.None?
            ==> t == clock.now
  {
    ExpectedDisbursementDate(account).GetOr(clock.now)
  }

  /**
   * UTC midnight of day `fixedDay` of the month after today's month, set
   * leniently: month 13 is January of the next year and a day outside the
   * month runs into the neighbouring months.
   */
  function FixedDayInstant(today: ValidDate, fixedDay: int): (t: int)
    ensures t % MS_PER_DAY == 0
  {
    WholeDays(LenientDayNumber(today.year, today.month + 1, fixedDay));
    LenientDayNumber(today.year, today.month + 1, fixedDay) * MS_PER_DAY
  }

  /** `makeFixedDateFirstRepayment(fixedDays, isLocalMidnight)`. */
  function MakeFixedDateFirstRepayment(fixedDays: Option<seq<int>>, isLocalMidnight: bool, clock: Clock)
    : (r: Result<Option<int>, DemoError>)
    ensures r.Failure? <==> isLocalMidnight && (fixedDays.None? || |fixedDays.value| == 0)
    ensures r.Success? && r.value.Some? ==> fixedDays.Some? && |fixedDays.value| > 0
  {
    var utc: Option<int> :=
      if fixedDays.Some? && |fixedDays.value| > 0
      then Some(FixedDayInstant(clock.today, fixedDays.value[|fixedDays.value| - 1]))
      else None;
    if isLocalMidnight then
      if utc.None? then Failure(NullDereference("firstRepaymentDate.getTime()"))
      else Success(Some(utc.value - clock.localOffset(utc.value)))
    else
      Success(utc)
  }

  /** Day number of the due date `count` periods of `unit` after `start`, as `Calendar.add` computes it in UTC. */
  function IntervalDueDay(start: ValidDate, count: Int32, unit: RepaymentPeriodUnit): (day: int)
    ensures unit == DAYS ==> day - DayNumber(start) == count
    ensures unit == WEEKS && INT32_MIN <= 7 * count <= INT32_MAX ==> day - DayNumber(start) == 7 * count
    ensures unit == WEEKS ==> (day - DayNumber(start) - 7 * count) % 0x1_0000_0000 == 0
    ensures unit == WEEKS ==> INT32_MIN <= day - DayNumber(start) <= INT32_MAX
    ensures unit == MONTHS ==> day == DayNumber(AddMonths(start, count))
    ensures unit == YEARS ==> day == DayNumber(AddMonths(start, 12 * count))
  {
    AddYearsIsTwelveMonths(start, count);
    match unit
    case DAYS => DayNumber(start) + count
    case WEEKS => DayNumber(start) + Wrap32(count * 7)
    case MONTHS => DayNumber(AddMonths(start, count))
    case YEARS => DayNumber(AddYears(start, count))
  }

  /**
   * The INTERVAL branch once a count, a unit and an offset are known: UTC
   * midnight of today's date, moved by the interval and then by 1 + offset days.
   */
  function IntervalFirstRepayment(today: ValidDate, count: Int32, unit: RepaymentPeriodUnit, offset: Int32): (t: int)
    ensures t % MS_PER_DAY == 0
  {
    WholeDays(IntervalDueDay(today, count, unit) + Wrap32(1 + offset));
    (IntervalDueDay(today, count, unit) + Wrap32(1 + offset)) * MS_PER_DAY
  }

  /** `makeFirstRepaymentDate(account, product, isLocalMidnight)`; a null account or product is None. */
  function MakeFirstRepaymentDate(account: Option<LoanAccount>, product: Option<LoanProduct>,
                                  isLocalMidnight: bool, clock: Clock): (r: Result<Option<int>, DemoError>)
    ensures r.Failure? <==>
              && isLocalMidnight && account.Some? && product.Some?
              && product.value.scheduleDueDatesMethod == Some(FIXED_DAYS_OF_MONTH)
              && (account.value.fixedDaysOfMonth.None? || |account.value.fixedDaysOfMonth.value| == 0)
  {
    if account.None? || product.None? then Success(None)
    else
      var a := account.value;
      var p := product.value;
      var fallback := DisbursementBase(a, clock) + DEFAULT_DELAY;
      match p.scheduleDueDatesMethod
      case None => Success(Some(fallback))
      case Some(FIXED_DAYS_OF_MONTH) => MakeFixedDateFirstRepayment(a.fixedDaysOfMonth, isLocalMidnight, clock)
      case Some(INTERVAL) =>
        if a.repaymentPeriodUnit.None? || a.repaymentPeriodCount.None? then Success(None)
        else if p.minFirstRepaymentDueDateOffset.None? && p.maxFirstRepaymentDueDateOffset.None? then
          Success(Some(fallback))
        else
          var offset := if p.minFirstRepaymentDueDateOffset.Some? then p.minFirstRepaymentDueDateOffset.value
                        else p.maxFirstRepaymentDueDateOffset.value;
          Success(Some(IntervalFirstRepayment(clock.today, a.repaymentPeriodCount.value,
                                              a.repaymentPeriodUnit.value, offset)))
      case Some(NONE) => Success(Some(fallback))
  }

  // ----- Properties -----

  /** A null account or a null product gives a null date. */
  lemma NullInputsGiveNoDate(account: Option<LoanAccount>, product: Option<LoanProduct>,
                             isLocalMidnight: bool, clock: Clock)
    requires account.None? || product.None?
    ensures MakeFirstRepaymentDate(account, product, isLocalMidnight, clock) == Success(None)
  {
  }

  /** Without a schedule-due-dates method, or with NONE, the date is four days after disbursement (or after now). */
  lemma NoScheduleMethodGivesFourDays(a: LoanAccount, p: LoanProduct, isLocalMidnight: bool, clock: Clock)
    requires p.scheduleDueDatesMethod.None? || p.scheduleDueDatesMethod == Some(NONE)
    ensures MakeFirstRepaymentDate(Some(a), Some(p), isLocalMidnight, clock)
            == Success(Some(ExpectedDisbursementDate(a).GetOr(clock.now) + 4 * 86_400_000))
  {
  }

  /** INTERVAL with no repayment period count or no unit gives a null date. */
  lemma IntervalWithoutPeriodGivesNoDate(a: LoanAccount, p: LoanProduct, isLocalMidnight: bool, clock: Clock)
    requires p.scheduleDueDatesMethod == Some(INTERVAL)
    requires a.repaymentPeriodCount.None? || a.repaymentPeriodUnit.None?
    ensures MakeFirstRepaymentDate(Some(a), Some(p), isLocalMidnight, clock) == Success(None)
  {
  }

  /** INTERVAL with neither offset configured falls back to four days after disbursement, not the interval. */
  lemma IntervalWithoutOffsetsGivesFourDays(a: LoanAccount, p: LoanProduct, isLocalMidnight: bool, clock: Clock)
    requires p.scheduleDueDatesMethod == Some(INTERVAL)
    requires a.repaymentPeriodCount.Some? && a.repaymentPeriodUnit.Some?
    requires p.minFirstRepaymentDueDateOffset.None? && p.maxFirstRepaymentDueDateOffset.None?
    ensures MakeFirstRepaymentDate(Some(a), Some(p), isLocalMidnight, clock)
            == Success(Some(DisbursementBase(a, clock) + DEFAULT_DELAY))
  {
  }

  /**
   * INTERVAL with an offset: the date is UTC midnight of TODAY's civil date
   * (not of the disbursement date) moved by the interval and by 1 + offset
   * days, where the offset is the minimum if set and the maximum otherwise;
   * isLocalMidnight and the expected disbursement date play no part.
   */
  lemma IntervalAnchorsOnToday(a: LoanAccount, p: LoanProduct, isLocalMidnight: bool, clock: Clock,
                               otherDisbursement: Option<DisbursementDetails>)
    requires p.scheduleDueDatesMethod == Some(INTERVAL)
    requires a.repaymentPeriodCount.Some? && a.repaymentPeriodUnit.Some?
    requires p.minFirstRepaymentDueDateOffset.Some? || p.maxFirstRepaymentDueDateOffset.Some?
    ensures var offset := if p.minFirstRepaymentDueDateOffset.Some? then p.minFirstRepaymentDueDateOffset.value
                          else p.maxFirstRepaymentDueDateOffset.value;
            MakeFirstRepaymentDate(Some(a), Some(p), isLocalMidnight, clock)
            == Success(Some(IntervalFirstRepayment(clock.today, a.repaymentPeriodCount.value,
                                                   a.repaymentPeriodUnit.value, offset)))
    ensures MakeFirstRepaymentDate(Some(a), Some(p), isLocalMidnight, clock)
            == MakeFirstRepaymentDate(Some(a), Some(p), !isLocalMidnight, clock)
    ensures MakeFirstRepaymentDate(Some(a), Some(p), isLocalMidnight, clock)
            == MakeFirstRepaymentDate(Some(a.(disbursementDetails := otherDisbursement)), Some(p), isLocalMidnight, clock)
  {
  }

  /** For periods that do not overflow a Java int, WEEKS is seven times as many DAYS. */
  lemma WeeksAreSevenDays(today: ValidDate, count: Int32, offset: Int32)
    requires INT32_MIN <= 7 * count <= INT32_MAX
    ensures IntervalFirstRepayment(today, count, WEEKS, offset)
            == IntervalFirstRepayment(today, 7 * count, DAYS, offset)
  {
  }

  /** For periods that do not overflow a Java int, YEARS is twelve times as many MONTHS. */
  lemma YearsAreTwelveMonths(today: ValidDate, count: Int32, offset: Int32)
    requires INT32_MIN <= 12 * count <= INT32_MAX
    ensures IntervalFirstRepayment(today, count, YEARS, offset)
            == IntervalFirstRepayment(today, 12 * count, MONTHS, offset)
  {
    AddYearsIsTwelveMonths(today, count);
  }

  /** For an offset below the int maximum, the date is offset + 1 whole days after the end of the interval. */
  lemma IntervalAddsOffsetPlusOneDays(today: ValidDate, count: Int32, unit: RepaymentPeriodUnit, offset: Int32)
    requires offset < INT32_MAX
    ensures IntervalFirstRepayment(today, count, unit, offset)
            == (IntervalDueDay(today, count, unit) + 1 + offset) * MS_PER_DAY
  {
  }

  /**
   * At the int maximum, `1 + offset` wraps to Integer.MIN_VALUE, so the date
   * lands 2^31 days before the end of the interval instead of after it.
   */
  lemma IntervalMaxOffsetWraps(today: ValidDate, count: Int32, unit: RepaymentPeriodUnit)
    ensures IntervalFirstRepayment(today, count, unit, INT32_MAX)
            == (IntervalDueDay(today, count, unit) + INT32_MIN) * MS_PER_DAY
    ensures IntervalFirstRepayment(today, count, unit, INT32_MAX) < IntervalDueDay(today, count, unit) * MS_PER_DAY
  {
  }

  /** A larger offset gives a strictly later date (within the int range). */
  lemma {:induction false} LaterOffsetLaterDate(today: ValidDate, count: Int32, unit: RepaymentPeriodUnit,
                                                o1: Int32, o2: Int32)
    requires o1 < o2 < INT32_MAX
    ensures IntervalFirstRepayment(today, count, unit, o1) < IntervalFirstRepayment(today, count, unit, o2)
  {
    var base := IntervalDueDay(today, count, unit);
    IntervalAddsOffsetPlusOneDays(today, count, unit, o1);
    IntervalAddsOffsetPlusOneDays(today, count, unit, o2);
    assert (base + 1 + o2) * MS_PER_DAY == (base + 1 + o1) * MS_PER_DAY + (o2 - o1) * MS_PER_DAY;
  }

  /** FIXED_DAYS_OF_MONTH hands the account's fixed days and the local-midnight flag to `makeFixedDateFirstRepayment`. */
  lemma FixedDaysDelegates(a: LoanAccount, p: LoanProduct, isLocalMidnight: bool, clock: Clock)
    requires p.scheduleDueDatesMethod == Some(FIXED_DAYS_OF_MONTH)
    ensures MakeFirstRepaymentDate(Some(a), Some(p), isLocalMidnight, clock)
            == MakeFixedDateFirstRepayment(a.fixedDaysOfMonth, isLocalMidnight, clock)
  {
  }

  /**
   * FIXED_DAYS_OF_MONTH without local-midnight shift: UTC midnight of the LAST
   * listed day (not the largest) in the month after today's month; the
   * disbursement date plays no part.
   */
  lemma FixedDaysUsesLastElement(a: LoanAccount, p: LoanProduct, clock: Clock)
    requires p.scheduleDueDatesMethod == Some(FIXED_DAYS_OF_MONTH)
    requires a.fixedDaysOfMonth.Some? && |a.fixedDaysOfMonth.value| > 0
    ensures var days := a.fixedDaysOfMonth.value;
            MakeFirstRepaymentDate(Some(a), Some(p), false, clock)
            == Success(Some(LenientDayNumber(clock.today.year, clock.today.month + 1, days[|days| - 1]) * MS_PER_DAY))
  {
  }

  /** A fixed day that exists in the next month gives UTC midnight of that calendar date. */
  lemma FixedDayInNextMonth(today: ValidDate, fixedDay: int)
    requires var ym := NormalizeMonth(today.year, today.month + 1);
             1 <= fixedDay <= DaysInMonth(ym.0, ym.1)
    ensures var ym := NormalizeMonth(today.year, today.month + 1);
            FixedDayInstant(today, fixedDay) == MidnightUtc(CivilDate(ym.0, ym.1, fixedDay))
  {
  }

  /** In December the next month is January of the next year. */
  lemma FixedDayInDecember(today: ValidDate, fixedDay: int)
    requires today.month == 12
    ensures FixedDayInstant(today, fixedDay) == EpochDay(today.year + 1, 1, fixedDay) * MS_PER_DAY
  {
    LenientThirteenthMonth(today.year, fixedDay);
  }

  /** With the local-midnight shift the fixed-day date moves back by the zone's offset at that instant. */
  lemma FixedDaysLocalMidnightShift(fixedDays: seq<int>, clock: Clock)
    requires |fixedDays| > 0
    ensures var utc := FixedDayInstant(clock.today, fixedDays[|fixedDays| - 1]);
            MakeFixedDateFirstRepayment(Some(fixedDays), true, clock) == Success(Some(utc - clock.localOffset(utc)))
  {
  }

  /** A null or empty fixed-day list gives null without the shift and a null dereference with it. */
  lemma FixedDaysMissing(fixedDays: Option<seq<int>>, clock: Clock)
    requires fixedDays.None? || |fixedDays.value| == 0
    ensures MakeFixedDateFirstRepayment(fixedDays, false, clock) == Success(None)
    ensures MakeFixedDateFirstRepayment(fixedDays, true, clock).Failure?
  {
  }

  /** Example: today 2024-01-01, one MONTHS period, minimum offset 5: 2024-02-01 plus 6 days is 2024-02-07. */
  lemma IntervalExample(clock: Clock, a: LoanAccount, p: LoanProduct)
    requires clock.today == CivilDate(2024, 1, 1)
    requires a.repaymentPeriodCount == Some(1) && a.repaymentPeriodUnit == Some(MONTHS)
    requires p.scheduleDueDatesMethod == Some(INTERVAL) && p.minFirstRepaymentDueDateOffset == Some(5)
    ensures MakeFirstRepaymentDate(Some(a), Some(p), false, clock) == Success(Some(MidnightUtc(CivilDate(2024, 2, 7))))
    ensures MidnightUtc(CivilDate(2024, 2, 7)) == 19760 * MS_PER_DAY
  {
    assert AddMonths(CivilDate(2024, 1, 1), 1) == CivilDate(2024, 2, 1);
  }

  /** Example: in March 2024 with fixed days [2, 18] the date is April 18th; with [18, 2] it is April 2nd. */
  lemma FixedDaysExample(clock: Clock)
    requires clock.today.year == 2024 && clock.today.month == 3
    ensures MakeFixedDateFirstRepayment(Some([2, 18]), false, clock) == Success(Some(MidnightUtc(CivilDate(2024, 4, 18))))
    ensures MakeFixedDateFirstRepayment(Some([18, 2]), false, clock) == Success(Some(MidnightUtc(CivilDate(2024, 4, 2))))
  {
  }

  /** Example: on January 31st a one-month interval is pinned to the end of February. */
  lemma MonthEndIsPinned(clock: Clock)
    requires clock.today == CivilDate(2023, 1, 31)
    ensures IntervalFirstRepayment(clock.today, 1, MONTHS, 0) == MidnightUtc(CivilDate(2023, 3, 1))
  {
    assert AddMonths(CivilDate(2023, 1, 31), 1) == CivilDate(2023, 2, 28);
  }
}
