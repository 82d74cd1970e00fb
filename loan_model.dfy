/**
 * The loan domain records that the demo loan code reads and writes: loan
 * products, loan accounts and their tranches, investor funds and guarantees.
 * Only the fields that code touches are modelled; every Java field is
 * nullable, so each one is an Option.
 */
module LoanModel {
  import opened Wrappers
  import opened JavaInts

  /** A `Money` or `BigDecimal` value, unscaled / 10^scale; the model does no arithmetic on it. */
  datatype Decimal = Decimal(unscaled: int, scale: nat)

  datatype LoanProductType =
    | DYNAMIC_TERM_LOAN
    | FIXED_TERM_LOAN
    | PAYMENT_PLAN
    | TRANCHED_LOAN
    | REVOLVING_CREDIT

  /** The states the demo code names; the enum's other states are OtherAccountState. */
  datatype AccountState =
    | PARTIAL_APPLICATION
    | PENDING_APPROVAL
    | APPROVED
    | ACTIVE
    | ACTIVE_IN_ARREARS
    | OtherAccountState(name: string)

  datatype ScheduleDueDatesMethod = NONE | INTERVAL | FIXED_DAYS_OF_MONTH

  datatype RepaymentPeriodUnit = DAYS | WEEKS | MONTHS | YEARS

  /** `RepaymentScheduleMethod`: the code only distinguishes NONE from the rest. */
  datatype RepaymentScheduleMethod = NO_SCHEDULE | OtherScheduleMethod(name: string)

  /** `LoanPenaltyCalculationMethod`: the code only distinguishes NONE from the rest. */
  datatype PenaltyCalculationMethod = NO_PENALTY | OtherPenaltyMethod(name: string)

  /** `GracePeriodType`: the code only distinguishes NONE from the rest. */
  datatype GracePeriodType = NO_GRACE | OtherGracePeriodType(name: string)

  datatype InterestRateSource = FIXED_INTEREST_RATE | INDEX_INTEREST_RATE

  datatype PrincipalPaymentMethod = FLAT | OUTSTANDING_PRINCIPAL_PERCENTAGE

  datatype AccountHolderType = CLIENT_HOLDER | GROUP_HOLDER

  datatype GuarantyType = GUARANTOR | ASSET

  /** A custom field value attached to a fund or a guarantee, carried along unread. */
  datatype CustomFieldValue = CustomFieldValue(fieldId: string, value: string)

  datatype InterestProductSettings = InterestProductSettings(
    interestRateSource: Option<InterestRateSource>,
    defaultInterestRate: Option<Decimal>,
    minInterestRate: Option<Decimal>,
    maxInterestRate: Option<Decimal>)

  datatype PrincipalPaymentProductSettings = PrincipalPaymentProductSettings(
    principalPaymentMethod: Option<PrincipalPaymentMethod>,
    principalFloorValue: Option<Decimal>,
    principalCeilingValue: Option<Decimal>,
    defaultAmount: Option<Decimal>,
    minAmount: Option<Decimal>,
    maxAmount: Option<Decimal>,
    defaultPercentage: Option<Decimal>,
    minPercentage: Option<Decimal>,
    maxPercentage: Option<Decimal>)

  datatype LoanProduct = LoanProduct(
    loanProductType: LoanProductType,
    defaultLoanAmount: Option<Decimal>,
    minLoanAmount: Option<Decimal>,
    maxLoanAmount: Option<Decimal>,
    repaymentScheduleMethod: Option<RepaymentScheduleMethod>,
    interestRateSettings: Option<InterestProductSettings>,
    principalPaymentSettings: Option<PrincipalPaymentProductSettings>,
    scheduleDueDatesMethod: Option<ScheduleDueDatesMethod>,
    defaultRepaymentPeriodCount: Option<Int32>,
    repaymentPeriodUnit: Option<RepaymentPeriodUnit>,
    defaultNumInstallments: Option<Int32>,
    minNumInstallments: Option<Int32>,
    maxNumInstallments: Option<Int32>,
    defaultPrincipalRepaymentInterval: Option<Int32>,
    loanPenaltyCalculationMethod: Option<PenaltyCalculationMethod>,
    defaultPenaltyRate: Option<Decimal>,
    minPenaltyRate: Option<Decimal>,
    maxPenaltyRate: Option<Decimal>,
    gracePeriodType: Option<GracePeriodType>,
    defaultGracePeriod: Option<Int32>,
    minGracePeriod: Option<Int32>,
    maxGracePeriod: Option<Int32>,
    minFirstRepaymentDueDateOffset: Option<Int32>,
    maxFirstRepaymentDueDateOffset: Option<Int32>,
    guarantorsEnabled: bool,
    collateralEnabled: bool)

  /** A tranche of a tranched loan; `disbursed` is what puts it in the disbursed or the non-disbursed list. */
  datatype LoanTranche = LoanTranche(
    encodedKey: Option<string>,
    amount: Option<Decimal>,
    expectedDisbursementDate: Option<int>,
    index: Option<Int32>,
    disbursed: bool)

  datatype InvestorFund = InvestorFund(
    encodedKey: Option<string>,
    amount: Option<Decimal>,
    guarantorKey: Option<string>,
    guarantorType: Option<AccountHolderType>,
    savingsAccountKey: Option<string>,
    customFieldValues: Option<seq<CustomFieldValue>>)

  datatype Guaranty = Guaranty(
    encodedKey: Option<string>,
    guarantyType: Option<GuarantyType>,
    guarantorType: Option<AccountHolderType>,
    assetName: Option<string>,
    amount: Option<Decimal>,
    guarantorKey: Option<string>,
    savingsAccountKey: Option<string>,
    customFieldValues: Option<seq<CustomFieldValue>>)

  /** `new InvestorFund()`: every field null. */
  const EMPTY_FUND: InvestorFund := InvestorFund(None, None, None, None, None, None)

  /** `new Guaranty()`: every field null. */
  const EMPTY_GUARANTY: Guaranty := Guaranty(None, None, None, None, None, None, None, None)

  datatype PrincipalPaymentAccountSettings = PrincipalPaymentAccountSettings(
    principalPaymentMethod: Option<PrincipalPaymentMethod>,
    principalFloorValue: Option<Decimal>,
    principalCeilingValue: Option<Decimal>,
    amount: Option<Decimal>,
    percentage: Option<Decimal>)

  /** Instants in milliseconds since the Java epoch. */
  datatype DisbursementDetails = DisbursementDetails(
    expectedDisbursementDate: Option<int>,
    firstRepaymentDate: Option<int>)

  datatype LoanAccount = LoanAccount(
    id: Option<string>,
    accountState: Option<AccountState>,
    loanAmount: Option<Decimal>,
    interestRate: Option<Decimal>,
    interestSpread: Option<Decimal>,
    principalPaymentSettings: Option<PrincipalPaymentAccountSettings>,
    disbursementDetails: Option<DisbursementDetails>,
    tranches: Option<seq<LoanTranche>>,
    repaymentPeriodCount: Option<Int32>,
    repaymentPeriodUnit: Option<RepaymentPeriodUnit>,
    fixedDaysOfMonth: Option<seq<int>>,
    repaymentInstallments: Option<Int32>,
    principalRepaymentInterval: Option<Int32>,
    penaltyRate: Option<Decimal>,
    gracePeriod: Option<Int32>,
    guarantees: Option<seq<Guaranty>>)

  /** `new LoanAccount()`: every field null. */
  const EMPTY_ACCOUNT: LoanAccount :=
    LoanAccount(None, None, None, None, None, None, None, None, None, None, None, None, None, None, None, None)

  /** `getExpectedDisbursementDateFromDisbursementDetails()`: null when there are no disbursement details. */
  function ExpectedDisbursementDate(a: LoanAccount): Option<int> {
    if a.disbursementDetails.Some? then a.disbursementDetails.value.expectedDisbursementDate else None
  }

  /** `getFirstRepaymentDateFromDisbursementDetails()`: null when there are no disbursement details. */
  function FirstRepaymentDate(a: LoanAccount): Option<int> {
    if a.disbursementDetails.Some? then a.disbursementDetails.value.firstRepaymentDate else None
  }

  /** The tranches whose `disbursed` flag is `want`, in their order. */
  function TranchesWhere(ts: seq<LoanTranche>, want: bool): (r: seq<LoanTranche>)
    ensures |r| <= |ts|
    ensures forall t :: t in r <==> t in ts && t.disbursed == want
  {
    if ts == [] then []
    else (if ts[0].disbursed == want then [ts[0]] else []) + TranchesWhere(ts[1..], want)
  }

  /** The filter keeps the order of the list: it distributes over concatenation. */
  lemma {:induction false} TranchesWhereAppend(x: seq<LoanTranche>, y: seq<LoanTranche>, want: bool)
    ensures TranchesWhere(x + y, want) == TranchesWhere(x, want) + TranchesWhere(y, want)
  {
    if x == [] {
      assert x + y == y;
    } else {
      var head := if x[0].disbursed == want then [x[0]] else [];
      assert (x + y)[0] == x[0];
      assert (x + y)[1..] == x[1..] + y;
      calc {
        TranchesWhere(x + y, want);
        head + TranchesWhere(x[1..] + y, want);
        { TranchesWhereAppend(x[1..], y, want); }
        head + (TranchesWhere(x[1..], want) + TranchesWhere(y, want));
        (head + TranchesWhere(x[1..], want)) + TranchesWhere(y, want);
        TranchesWhere(x, want) + TranchesWhere(y, want);
      }
    }
  }

  /** The first tranche of the filtered list (`get(0)`) is the first tranche of the list with that flag. */
  lemma {:induction false} TranchesWhereFirst(ts: seq<LoanTranche>, want: bool, i: nat)
    requires i < |ts| && ts[i].disbursed == want
    requires forall j :: 0 <= j < i ==> ts[j].disbursed != want
    ensures |TranchesWhere(ts, want)| > 0 && TranchesWhere(ts, want)[0] == ts[i]
  {
    if i > 0 {
      TranchesWhereFirst(ts[1..], want, i - 1);
    }
  }

  /** `getNonDisbursedTranches()`, with no tranches read as an empty list. */
  function NonDisbursedTranches(a: LoanAccount): (r: seq<LoanTranche>)
    ensures a.tranches.None? ==> r == []
    ensures a.tranches.Some? ==> |r| <= |a.tranches.value|
    ensures forall t :: t in r <==> a.tranches.Some? && t in a.tranches.value && !t.disbursed
  {
    if a.tranches.Some? then TranchesWhere(a.tranches.value, false) else []
  }

  /** `getDisbursedTranches()`, with no tranches read as an empty list. */
  function DisbursedTranches(a: LoanAccount): (r: seq<LoanTranche>)
    ensures a.tranches.None? ==> r == []
    ensures a.tranches.Some? ==> |r| <= |a.tranches.value|
    ensures forall t :: t in r <==> a.tranches.Some? && t in a.tranches.value && t.disbursed
  {
    if a.tranches.Some? then TranchesWhere(a.tranches.value, true) else []
  }

  /**
   * Errors the demo code can raise while computing a value: a `NullPointerException`
   * from dereferencing a null field (the place is named).
   */
  datatype DemoError = NullDereference(place: string)
}
