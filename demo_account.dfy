/**
 * `makeLoanAccountForDemoProduct` of the demo loan service: a loan account whose
 * settings are consistent with a loan product, so that the server accepts it.
 * Most settings are taken from the product by a fallback chain (the product's
 * default, else its minimum, else its maximum, else sometimes a constant).
 */
module DemoAccount {
  import opened Wrappers
  import opened JavaInts
  import opened Calendar
  import opened LoanModel
  import opened RepaymentDates

  /** `apiTestIdPrefix`: the prefix of the ids of demo-created accounts. */
  const API_TEST_ID_PREFIX: string := "API-"

  /** `new Money(3000.00f)`. */
  const DEMO_LOAN_AMOUNT: Decimal := Decimal(3000, 0)
  /** `new BigDecimal(6.5f)`; 6.5 is exact in binary floating point. */
  const DEMO_INTEREST_RATE: Decimal := Decimal(65, 1)
  /** `new Money(100)`. */
  const DEMO_PRINCIPAL_AMOUNT: Decimal := Decimal(100, 0)
  /** `new BigDecimal(2)`. */
  const DEMO_PRINCIPAL_PERCENTAGE: Decimal := Decimal(2, 0)
  const DEMO_REPAYMENT_PERIOD_COUNT: Int32 := 30
  const DEMO_INSTALLMENTS: Int32 := 10
  const DEMO_PRINCIPAL_REPAYMENT_INTERVAL: Int32 := 1
  /** `Arrays.asList(2, 18)`. */
  const DEMO_FIXED_DAYS: seq<int> := [2, 18]
  const COLLATERAL_ASSET_NAME: string := "Asset Name as a collateral"

  // ----- Fallback chains -----

  /** The first non-null option of a list, or null when all are null: the meaning of every fallback chain. */
  function Coalesce<T>(options: seq<Option<T>>): (r: Option<T>)
    ensures r.Some? <==> exists i :: 0 <= i < |options| && options[i].Some?
    ensures r.Some? ==> exists i :: 0 <= i < |options| && options[i] == r
                                    && forall j :: 0 <= j < i ==> options[j].None?
  {
    if |options| == 0 then None
    else if options[0].Some? then options[0]
    else
      var rest := Coalesce(options[1..]);
      assert forall i :: 1 <= i < |options| ==> options[i] == options[1..][i - 1];
      rest
  }

  /**
   * The three-step chain as the builder writes it:
   * `x = def; x = x == null && min != null ? min : x; x = x == null && max != null ? max : x`.
   */
  function Fallback3<T>(def: Option<T>, min: Option<T>, max: Option<T>): (r: Option<T>)
    ensures def.Some? ==> r == def
    ensures def.None? && min.Some? ==> r == min
    ensures def.None? && min.None? ==> r == max
    ensures r.None? <==> def.None? && min.None? && max.None?
  {
    var x := def;
    var x := if x.None? && min.Some? then min else x;
    if x.None? && max.Some? then max else x
  }

  /** The chain picks the first non-null of default, minimum and maximum. */
  lemma Fallback3IsCoalesce<T>(def: Option<T>, min: Option<T>, max: Option<T>)
    ensures Fallback3(def, min, max) == Coalesce([def, min, max])
  {
    assert [def, min, max][1..] == [min, max];
    assert [min, max][1..] == [max];
    assert [max][1..] == [];
    assert Coalesce([max]) == max;
    assert Coalesce([min, max]) == if min.Some? then min else max;
  }

  // ----- Text of the id -----

  function DigitChar(d: int): (c: char)
    requires 0 <= d < 10
    ensures '0' <= c <= '9'
  {
    "0123456789"[d]
  }

  /** The numeric value of a string of decimal digits. */
  function DigitsValue(s: string): int
    requires forall k :: 0 <= k < |s| ==> '0' <= s[k] <= '9'
  {
    if |s| == 0 then 0 else DigitsValue(s[..|s| - 1]) * 10 + (s[|s| - 1] - '0') as int
  }

  /** `Long.toString` of a non-negative number: its decimal digits, which read back as the number. */
  function NaturalString(n: nat): (s: string)
    ensures |s| > 0
    ensures forall k :: 0 <= k < |s| ==> '0' <= s[k] <= '9'
    ensures DigitsValue(s) == n
  {
    if n < 10 then [DigitChar(n)]
    else
      var init := NaturalString(n / 10);
      var s := init + [DigitChar(n % 10)];
      assert s[..|s| - 1] == init;
      s
  }

  /** The decimal text Java writes for a `long` in a string concatenation. */
  function LongString(n: int): (s: string)
    ensures |s| > 0 && (s[0] == '-' <==> n < 0)
    ensures var digits := if n < 0 then s[1..] else s;
            && |digits| > 0
            && (forall k :: 0 <= k < |digits| ==> '0' <= digits[k] <= '9')
            && DigitsValue(digits) == if n < 0 then -n else n
  {
    if n < 0 then "-" + NaturalString(-n) else NaturalString(n)
  }

  // ----- The builder -----

  /** The switches of the builder that dereference a product field the product may leave null. */
  predicate ThrowsOnNull(p: LoanProduct) {
    || (p.loanProductType == REVOLVING_CREDIT
        && (p.principalPaymentSettings.None? || p.principalPaymentSettings.value.principalPaymentMethod.None?))
    || p.scheduleDueDatesMethod.None?
  }

  /** The interest rate the builder picks: the product's first non-null rate, else 6.5. */
  function DemoInterestRate(p: LoanProduct): Decimal {
    var s := p.interestRateSettings;
    if s.None? then DEMO_INTEREST_RATE
    else Fallback3(s.value.defaultInterestRate, s.value.minInterestRate, s.value.maxInterestRate)
           .GetOr(DEMO_INTEREST_RATE)
  }

  /** The interest rate source of the product, null when it has no interest settings. */
  function RateSource(p: LoanProduct): Option<InterestRateSource> {
    if p.interestRateSettings.Some? then p.interestRateSettings.value.interestRateSource else None
  }

  /** Principal payment settings of a revolving-credit account, copied from the product's. */
  function DemoPrincipalSettings(s: PrincipalPaymentProductSettings): (r: PrincipalPaymentAccountSettings)
    requires s.principalPaymentMethod.Some?
    ensures r.principalPaymentMethod == s.principalPaymentMethod
    ensures r.principalFloorValue == s.principalFloorValue && r.principalCeilingValue == s.principalCeilingValue
    ensures r.amount.Some? <==> s.principalPaymentMethod == Some(FLAT)
    ensures r.amount.Some? ==>
              r.amount.value == Coalesce([s.defaultAmount, s.minAmount, s.maxAmount]).GetOr(DEMO_PRINCIPAL_AMOUNT)
    ensures r.percentage.Some? <==> s.principalPaymentMethod == Some(OUTSTANDING_PRINCIPAL_PERCENTAGE)
    ensures r.percentage.Some? ==>
              r.percentage.value
              == Coalesce([s.defaultPercentage, s.minPercentage, s.maxPercentage]).GetOr(DEMO_PRINCIPAL_PERCENTAGE)
  {
    Fallback3IsCoalesce(s.defaultAmount, s.minAmount, s.maxAmount);
    Fallback3IsCoalesce(s.defaultPercentage, s.minPercentage, s.maxPercentage);
    var amount :=
      if s.principalPaymentMethod.value == FLAT
      then Some(Fallback3(s.defaultAmount, s.minAmount, s.maxAmount).GetOr(DEMO_PRINCIPAL_AMOUNT))
      else None;
    var percentage :=
      if s.principalPaymentMethod.value == OUTSTANDING_PRINCIPAL_PERCENTAGE
      then Some(Fallback3(s.defaultPercentage, s.minPercentage, s.maxPercentage).GetOr(DEMO_PRINCIPAL_PERCENTAGE))
      else None;
    PrincipalPaymentAccountSettings(s.principalPaymentMethod, s.principalFloorValue, s.principalCeilingValue,
                                    amount, percentage)
  }

  /** The guarantees the builder attaches: a guarantor when the product allows them, then an asset when collateral is enabled. */
  function DemoGuarantees(p: LoanProduct, loanAmount: Option<Decimal>, demoClientKey: Option<string>,
                          demoClientHolderType: Option<AccountHolderType>): (gs: seq<Guaranty>)
    ensures |gs| == (if p.guarantorsEnabled then 1 else 0) + (if p.collateralEnabled then 1 else 0)
    ensures forall g :: g in gs ==> g.amount == loanAmount && g.encodedKey.None?
    ensures p.guarantorsEnabled ==>
              && gs[0].guarantyType == Some(GUARANTOR) && gs[0].guarantorKey == demoClientKey
              && gs[0].guarantorType == demoClientHolderType
    ensures p.collateralEnabled ==>
              gs[|gs| - 1].guarantyType == Some(ASSET) && gs[|gs| - 1].assetName == Some(COLLATERAL_ASSET_NAME)
  {
    var guarantor := EMPTY_GUARANTY.(guarantyType := Some(GUARANTOR), amount := loanAmount,
                                     guarantorKey := demoClientKey, guarantorType := demoClientHolderType);
    var asset := EMPTY_GUARANTY.(guarantyType := Some(ASSET), assetName := Some(COLLATERAL_ASSET_NAME),
                                 amount := loanAmount);
    (if p.guarantorsEnabled then [guarantor] else []) + (if p.collateralEnabled then [asset] else [])
  }

  /**
   * The account before its first repayment date is set and before the
   * disbursement details of a revolving-credit account are dropped.
   * Requires what the builder's switches dereference.
   */
  function DemoAccountDraft(p: LoanProduct, todayMidnightUtc: int, clock: Clock, demoClientKey: Option<string>,
                            demoClientHolderType: Option<AccountHolderType>): (a: LoanAccount)
    requires !ThrowsOnNull(p)
    ensures a.id == Some(API_TEST_ID_PREFIX + LongString(clock.now)) && a.accountState.None?
    ensures a.loanAmount.Some? && !(a.interestRate.Some? && a.interestSpread.Some?)
    ensures a.disbursementDetails.Some? && a.disbursementDetails.value.firstRepaymentDate.None?
    ensures a.disbursementDetails.value.expectedDisbursementDate.None? <==> p.loanProductType == TRANCHED_LOAN
    ensures a.tranches.Some? <==> p.loanProductType == TRANCHED_LOAN
    ensures a.tranches.Some? ==> a.tranches.value == [LoanTranche(None, a.loanAmount, Some(todayMidnightUtc), None, false)]
    ensures a.principalPaymentSettings.Some? <==> p.loanProductType == REVOLVING_CREDIT
    ensures a.repaymentPeriodCount.Some? <==> p.scheduleDueDatesMethod == Some(INTERVAL)
    ensures a.repaymentPeriodUnit.Some? <==> p.scheduleDueDatesMethod == Some(INTERVAL)
    ensures a.fixedDaysOfMonth.Some? <==> p.scheduleDueDatesMethod == Some(FIXED_DAYS_OF_MONTH)
  {
    var loanAmount := Some(Fallback3(p.defaultLoanAmount, p.minLoanAmount, p.maxLoanAmount).GetOr(DEMO_LOAN_AMOUNT));
    var withInterest := p.repaymentScheduleMethod != Some(NO_SCHEDULE);
    var isIndex := RateSource(p) == Some(INDEX_INTEREST_RATE);
    var principal :=
      if p.loanProductType == REVOLVING_CREDIT then Some(DemoPrincipalSettings(p.principalPaymentSettings.value))
      else None;
    var isTranched := p.loanProductType == TRANCHED_LOAN;
    var expected := if isTranched then None else Some(todayMidnightUtc + 3 * MS_PER_DAY);
    var tranches :=
      if isTranched
      then Some([LoanTranche(None, loanAmount, Some(todayMidnightUtc), None, false)])
      else None;
    var dueDates := p.scheduleDueDatesMethod.value;
    var installments := Fallback3(p.defaultNumInstallments, p.minNumInstallments, p.maxNumInstallments);
    LoanAccount(
      id := Some(API_TEST_ID_PREFIX + LongString(clock.now)),
      accountState := None,
      loanAmount := loanAmount,
      interestRate := if withInterest && !isIndex then Some(DemoInterestRate(p)) else None,
      interestSpread := if withInterest && isIndex then Some(DemoInterestRate(p)) else None,
      principalPaymentSettings := principal,
      disbursementDetails := Some(DisbursementDetails(expected, None)),
      tranches := tranches,
      repaymentPeriodCount :=
        if dueDates == INTERVAL then Some(p.defaultRepaymentPeriodCount.GetOr(DEMO_REPAYMENT_PERIOD_COUNT)) else None,
      repaymentPeriodUnit := if dueDates == INTERVAL then Some(p.repaymentPeriodUnit.GetOr(DAYS)) else None,
      fixedDaysOfMonth := if dueDates == FIXED_DAYS_OF_MONTH then Some(DEMO_FIXED_DAYS) else None,
      repaymentInstallments :=
        if installments.None? && p.loanProductType != REVOLVING_CREDIT then Some(DEMO_INSTALLMENTS)
        else installments,
      principalRepaymentInterval := Some(p.defaultPrincipalRepaymentInterval.GetOr(DEMO_PRINCIPAL_REPAYMENT_INTERVAL)),
      penaltyRate :=
        if p.loanPenaltyCalculationMethod != Some(NO_PENALTY)
        then Fallback3(p.defaultPenaltyRate, p.minPenaltyRate, p.maxPenaltyRate) else None,
      gracePeriod :=
        if p.gracePeriodType != Some(NO_GRACE)
        then Fallback3(p.defaultGracePeriod, p.minGracePeriod, p.maxGracePeriod) else None,
      guarantees := Some(DemoGuarantees(p, loanAmount, demoClientKey, demoClientHolderType)))
  }

  /**
   * `makeLoanAccountForDemoProduct(demoProduct)`.  The demo client's key and
   * holder type, today's UTC midnight and the clock are parameters.  It throws
   * exactly when a switch meets a null product field.
   */
  function MakeLoanAccountForDemoProduct(p: LoanProduct, todayMidnightUtc: int, clock: Clock,
                                         demoClientKey: Option<string>,
                                         demoClientHolderType: Option<AccountHolderType>)
    : (r: Result<LoanAccount, DemoError>)
    ensures r.Failure? <==> ThrowsOnNull(p)
  {
    if p.loanProductType == REVOLVING_CREDIT && p.principalPaymentSettings.None? then
      Failure(NullDereference("productPaymentSettings.getPrincipalPaymentMethod()"))
    else if p.loanProductType == REVOLVING_CREDIT && p.principalPaymentSettings.value.principalPaymentMethod.None? then
      Failure(NullDereference("switch (method)"))
    else if p.scheduleDueDatesMethod.None? then
      Failure(NullDereference("switch (scheduleDueDatesMethod)"))
    else
      var draft := DemoAccountDraft(p, todayMidnightUtc, clock, demoClientKey, demoClientHolderType);
      // Without the local-midnight shift the date computation cannot throw.
      var firstRepaymentDate := MakeFirstRepaymentDate(Some(draft), Some(p), false, clock).value;
      var details := draft.disbursementDetails.value.(firstRepaymentDate := firstRepaymentDate);
      Success(draft.(disbursementDetails := if p.loanProductType == REVOLVING_CREDIT then None else Some(details)))
  }

  // ----- Properties -----

  /** The loan amount is always set: the product's first non-null amount, else 3000. */
  lemma LoanAmountFallback(p: LoanProduct, todayMidnightUtc: int, clock: Clock, key: Option<string>,
                           holder: Option<AccountHolderType>)
    requires !ThrowsOnNull(p)
    ensures var r := MakeLoanAccountForDemoProduct(p, todayMidnightUtc, clock, key, holder);
            && r.Success?
            && r.value.loanAmount == Some(Coalesce([p.defaultLoanAmount, p.minLoanAmount, p.maxLoanAmount])
                                            .GetOr(DEMO_LOAN_AMOUNT))
  {
    Fallback3IsCoalesce(p.defaultLoanAmount, p.minLoanAmount, p.maxLoanAmount);
  }

  /**
   * Interest is set unless the schedule method is NONE; it goes to the spread
   * for an index-rate product and to the rate otherwise, never to both, and
   * its value is the product's first non-null rate, else 6.5.
   */
  lemma InterestFallback(p: LoanProduct, todayMidnightUtc: int, clock: Clock, key: Option<string>,
                         holder: Option<AccountHolderType>)
    requires !ThrowsOnNull(p)
    ensures var a := MakeLoanAccountForDemoProduct(p, todayMidnightUtc, clock, key, holder).value;
            && (a.interestRate.None? || a.interestSpread.None?)
            && (p.repaymentScheduleMethod == Some(NO_SCHEDULE) <==> a.interestRate.None? && a.interestSpread.None?)
            && (a.interestSpread.Some? <==>
                  p.repaymentScheduleMethod != Some(NO_SCHEDULE) && RateSource(p) == Some(INDEX_INTEREST_RATE))
            && (p.repaymentScheduleMethod != Some(NO_SCHEDULE) && p.interestRateSettings.Some? ==>
                  var s := p.interestRateSettings.value;
                  var rate := Coalesce([s.defaultInterestRate, s.minInterestRate, s.maxInterestRate])
                                .GetOr(DEMO_INTEREST_RATE);
                  a.interestRate == Some(rate) || a.interestSpread == Some(rate))
            && (p.repaymentScheduleMethod != Some(NO_SCHEDULE) && p.interestRateSettings.None? ==>
                  a.interestRate == Some(DEMO_INTEREST_RATE))
  {
    if p.interestRateSettings.Some? {
      var s := p.interestRateSettings.value;
      Fallback3IsCoalesce(s.defaultInterestRate, s.minInterestRate, s.maxInterestRate);
    }
  }

  /** Installments fall back to 10 only for products that are not revolving credit; otherwise they may stay null. */
  lemma InstallmentsFallback(p: LoanProduct, todayMidnightUtc: int, clock: Clock, key: Option<string>,
                             holder: Option<AccountHolderType>)
    requires !ThrowsOnNull(p)
    ensures var a := MakeLoanAccountForDemoProduct(p, todayMidnightUtc, clock, key, holder).value;
            var chain := Coalesce([p.defaultNumInstallments, p.minNumInstallments, p.maxNumInstallments]);
            && (p.loanProductType == REVOLVING_CREDIT ==> a.repaymentInstallments == chain)
            && (p.loanProductType != REVOLVING_CREDIT ==> a.repaymentInstallments == Some(chain.GetOr(DEMO_INSTALLMENTS)))
  {
    Fallback3IsCoalesce(p.defaultNumInstallments, p.minNumInstallments, p.maxNumInstallments);
  }

  /**
   * Penalty rate and grace period have no constant to fall back on: each is
   * the first non-null of the product's default, minimum and maximum, null
   * when all three are, and null when the product's method or type is NONE.
   */
  lemma PenaltyAndGraceHaveNoConstant(p: LoanProduct, todayMidnightUtc: int, clock: Clock, key: Option<string>,
                                      holder: Option<AccountHolderType>)
    requires !ThrowsOnNull(p)
    ensures var a := MakeLoanAccountForDemoProduct(p, todayMidnightUtc, clock, key, holder).value;
            && a.penaltyRate == (if p.loanPenaltyCalculationMethod == Some(NO_PENALTY) then None
                                 else Coalesce([p.defaultPenaltyRate, p.minPenaltyRate, p.maxPenaltyRate]))
            && a.gracePeriod == (if p.gracePeriodType == Some(NO_GRACE) then None
                                 else Coalesce([p.defaultGracePeriod, p.minGracePeriod, p.maxGracePeriod]))
            && (p.defaultPenaltyRate.None? && p.minPenaltyRate.None? && p.maxPenaltyRate.None? ==> a.penaltyRate.None?)
            && (p.defaultGracePeriod.None? && p.minGracePeriod.None? && p.maxGracePeriod.None? ==> a.gracePeriod.None?)
  {
    Fallback3IsCoalesce(p.defaultPenaltyRate, p.minPenaltyRate, p.maxPenaltyRate);
    Fallback3IsCoalesce(p.defaultGracePeriod, p.minGracePeriod, p.maxGracePeriod);
  }

  /**
   * The schedule settings follow the product's due-dates method: fixed days 2
   * and 18 for FIXED_DAYS_OF_MONTH, a period count (default 30) and unit
   * (default DAYS) for INTERVAL, none of them for NONE.
   */
  lemma ScheduleSettings(p: LoanProduct, todayMidnightUtc: int, clock: Clock, key: Option<string>,
                         holder: Option<AccountHolderType>)
    requires !ThrowsOnNull(p)
    ensures var a := MakeLoanAccountForDemoProduct(p, todayMidnightUtc, clock, key, holder).value;
            && (a.fixedDaysOfMonth.Some? <==> p.scheduleDueDatesMethod == Some(FIXED_DAYS_OF_MONTH))
            && (a.fixedDaysOfMonth.Some? ==> a.fixedDaysOfMonth.value == [2, 18])
            && (a.repaymentPeriodCount.Some? <==> p.scheduleDueDatesMethod == Some(INTERVAL))
            && (a.repaymentPeriodUnit.Some? <==> p.scheduleDueDatesMethod == Some(INTERVAL))
            && (p.scheduleDueDatesMethod == Some(INTERVAL) ==>
                  a.repaymentPeriodCount == Some(p.defaultRepaymentPeriodCount.GetOr(30))
                  && a.repaymentPeriodUnit == Some(p.repaymentPeriodUnit.GetOr(DAYS)))
            && a.principalRepaymentInterval == Some(p.defaultPrincipalRepaymentInterval.GetOr(1))
  {
  }

  /**
   * Product types: a revolving-credit account has principal payment settings
   * and no disbursement details; a tranched account has one tranche of the
   * whole loan amount, due today with a null index, and no expected
   * disbursement date; every other account is expected to be disbursed in three days.
   */
  lemma ProductTypeShapes(p: LoanProduct, todayMidnightUtc: int, clock: Clock, key: Option<string>,
                          holder: Option<AccountHolderType>)
    requires !ThrowsOnNull(p)
    ensures var a := MakeLoanAccountForDemoProduct(p, todayMidnightUtc, clock, key, holder).value;
            && (a.disbursementDetails.None? <==> p.loanProductType == REVOLVING_CREDIT)
            && (a.principalPaymentSettings.Some? <==> p.loanProductType == REVOLVING_CREDIT)
            && (a.principalPaymentSettings.Some? ==>
                  a.principalPaymentSettings.value.principalPaymentMethod
                    == p.principalPaymentSettings.value.principalPaymentMethod
                  && (a.principalPaymentSettings.value.amount.Some? <==>
                        p.principalPaymentSettings.value.principalPaymentMethod == Some(FLAT))
                  && (a.principalPaymentSettings.value.percentage.Some? <==>
                        p.principalPaymentSettings.value.principalPaymentMethod == Some(OUTSTANDING_PRINCIPAL_PERCENTAGE)))
            && (a.tranches.Some? <==> p.loanProductType == TRANCHED_LOAN)
            && (p.loanProductType == TRANCHED_LOAN ==>
                  && a.tranches.value == [LoanTranche(None, a.loanAmount, Some(todayMidnightUtc), None, false)]
                  && ExpectedDisbursementDate(a).None?
                  && NonDisbursedTranches(a) == a.tranches.value)
            && (p.loanProductType != TRANCHED_LOAN && p.loanProductType != REVOLVING_CREDIT ==>
                  ExpectedDisbursementDate(a) == Some(todayMidnightUtc + 3 * MS_PER_DAY))
  {
    var a := MakeLoanAccountForDemoProduct(p, todayMidnightUtc, clock, key, holder).value;
    if p.loanProductType == TRANCHED_LOAN {
      var ts := a.tranches.value;
      assert ts[1..] == [];
    }
  }

  /** Guarantees: one guarantor and one asset at most, each for the whole loan amount. */
  lemma GuaranteesFollowProduct(p: LoanProduct, todayMidnightUtc: int, clock: Clock, key: Option<string>,
                                holder: Option<AccountHolderType>)
    requires !ThrowsOnNull(p)
    ensures var a := MakeLoanAccountForDemoProduct(p, todayMidnightUtc, clock, key, holder).value;
            var gs := a.guarantees.value;
            && |gs| == (if p.guarantorsEnabled then 1 else 0) + (if p.collateralEnabled then 1 else 0)
            && (forall g :: g in gs ==> g.amount == a.loanAmount && g.encodedKey.None?)
            && (p.guarantorsEnabled ==> gs[0].guarantyType == Some(GUARANTOR) && gs[0].guarantorKey == key)
            && (p.collateralEnabled ==> gs[|gs| - 1].guarantyType == Some(ASSET)
                                        && gs[|gs| - 1].assetName == Some(COLLATERAL_ASSET_NAME))
  {
  }

  /** The account id is "API-" followed by the decimal digits of the creation instant. */
  lemma IdHasTestPrefix(p: LoanProduct, todayMidnightUtc: int, clock: Clock, key: Option<string>,
                        holder: Option<AccountHolderType>)
    requires !ThrowsOnNull(p)
    requires clock.now >= 0
    ensures var a := MakeLoanAccountForDemoProduct(p, todayMidnightUtc, clock, key, holder).value;
            && a.id.Some?
            && |a.id.value| > |API_TEST_ID_PREFIX|
            && a.id.value[..|API_TEST_ID_PREFIX|] == API_TEST_ID_PREFIX
            && var digits := a.id.value[|API_TEST_ID_PREFIX|..];
               (forall k :: 0 <= k < |digits| ==> '0' <= digits[k] <= '9') && DigitsValue(digits) == clock.now
  {
    var a := MakeLoanAccountForDemoProduct(p, todayMidnightUtc, clock, key, holder).value;
    assert a.id.value[|API_TEST_ID_PREFIX|..] == NaturalString(clock.now);
  }

  /**
   * A product with fixed days of the month gives, outside revolving credit,
   * UTC midnight of the 18th (the last of the days 2 and 18) of next month.
   */
  lemma FixedDaysProductRepaysOnThe18th(p: LoanProduct, todayMidnightUtc: int, clock: Clock, key: Option<string>,
                                        holder: Option<AccountHolderType>)
    requires p.scheduleDueDatesMethod == Some(FIXED_DAYS_OF_MONTH)
    requires p.loanProductType != REVOLVING_CREDIT
    ensures var r := MakeLoanAccountForDemoProduct(p, todayMidnightUtc, clock, key, holder);
            r.Success? && FirstRepaymentDate(r.value) == Some(FixedDayInstant(clock.today, 18))
  {
  }
}
