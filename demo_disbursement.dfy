/**
 * The product-type switch of `testDisburseLoanAccount`: which amount, which
 * disbursement date and which first repayment date the demo passes when it
 * disburses its new loan account, or whether it gives up without disbursing.
 */
module DemoDisbursement {
  import opened Wrappers
  import opened Calendar
  import opened LoanModel
  import opened RepaymentDates

  /** `fiveDays`: how far a too-early first repayment date of a first tranche is pushed out. */
  const TRANCHE_REPAYMENT_DELAY: int := 5 * MS_PER_DAY

  /** What the disbursement test goes on with: nothing (it returns early), or the three disbursement arguments. */
  datatype Disbursement =
    | Skipped
    | Disburse(amount: Option<Decimal>, disbursementDate: Option<int>, firstRepaymentDate: Option<int>)

  /** The first repayment date for the first disbursement of a tranche due at `trancheDate`. */
  function FirstTrancheRepaymentDate(firstRepaymentDate: Option<int>, trancheDate: int): (r: Option<int>)
    ensures r.None? <==> firstRepaymentDate.None?
    ensures r.Some? && firstRepaymentDate.value < trancheDate ==> r.value == firstRepaymentDate.value + 5 * MS_PER_DAY
    ensures r.Some? && firstRepaymentDate.value >= trancheDate ==> r == firstRepaymentDate
  {
    if firstRepaymentDate.Some? && firstRepaymentDate.value < trancheDate
    then Some(firstRepaymentDate.value + TRANCHE_REPAYMENT_DELAY)
    else firstRepaymentDate
  }

  /**
   * `testDisburseLoanAccount` up to the creation of its API parameters.  The
   * account is the demo's new account (null when it was not created), the
   * product the demo product; today's UTC midnight and the clock are parameters.
   */
  function DisbursementArguments(account: Option<LoanAccount>, product: LoanProduct, todayMidnightUtc: int,
                                 clock: Clock): (r: Result<Disbursement, DemoError>)
    ensures account.None? ==> r.Failure?
    ensures r.Success? && r.value.Disburse? ==>
              (r.value.amount.Some? ==> product.loanProductType == REVOLVING_CREDIT)
              && (r.value.disbursementDate.None? <==> product.loanProductType == TRANCHED_LOAN)
    ensures r.Success? && r.value.Skipped? ==> product.loanProductType == TRANCHED_LOAN
  {
    if account.None? then Failure(NullDereference("account.getId()"))
    else
      var a := account.value;
      var firstRepaymentDate :- MakeFirstRepaymentDate(Some(a), Some(product), true, clock);
      match product.loanProductType
      case DYNAMIC_TERM_LOAN => Success(Disburse(None, Some(todayMidnightUtc), firstRepaymentDate))
      case FIXED_TERM_LOAN => Success(Disburse(None, Some(todayMidnightUtc), firstRepaymentDate))
      case PAYMENT_PLAN => Success(Disburse(None, Some(todayMidnightUtc), firstRepaymentDate))
      case TRANCHED_LOAN =>
        var nonDisbursed := NonDisbursedTranches(a);
        if |nonDisbursed| == 0 then Success(Skipped)
        else if nonDisbursed[0].expectedDisbursementDate.None? then
          Failure(NullDereference("expectedTrancheDisbDate.after(now)"))
        else
          var trancheDate := nonDisbursed[0].expectedDisbursementDate.value;
          if trancheDate > clock.now then Success(Skipped)
          else if |DisbursedTranches(a)| > 0 then Success(Disburse(None, None, None))
          else Success(Disburse(None, None, FirstTrancheRepaymentDate(firstRepaymentDate, trancheDate)))
      case REVOLVING_CREDIT =>
        Success(Disburse(a.loanAmount, Some(todayMidnightUtc),
                         if a.accountState == Some(APPROVED) then firstRepaymentDate else None))
  }

  /**
   * The test as evidently intended: a missing account ends it without
   * disbursing, like its other early exits; with an account it is the test as written.
   */
  function DisbursementArgumentsGuarded(account: Option<LoanAccount>, product: LoanProduct, todayMidnightUtc: int,
                                        clock: Clock): (r: Result<Disbursement, DemoError>)
    ensures account.None? ==> r == Success(Skipped)
    ensures r.Failure? ==>
              && account.Some?
              && (|| MakeFirstRepaymentDate(account, Some(product), true, clock).Failure?
                  || (product.loanProductType == TRANCHED_LOAN
                      && |NonDisbursedTranches(account.value)| > 0
                      && NonDisbursedTranches(account.value)[0].expectedDisbursementDate.None?))
  {
    if account.None? then Success(Skipped)
    else DisbursementArguments(account, product, todayMidnightUtc, clock)
  }

  // ----- Properties -----

  /**
   * As written, the test only prints a warning when there is no account and
   * then dereferences it: a missing account throws instead of ending the test.
   */
  lemma MissingAccountThrows(product: LoanProduct, todayMidnightUtc: int, clock: Clock)
    ensures DisbursementArguments(None, product, todayMidnightUtc, clock) == Failure(NullDereference("account.getId()"))
    ensures DisbursementArgumentsGuarded(None, product, todayMidnightUtc, clock) == Success(Skipped)
  {
  }

  /** Term loans and payment plans are disbursed today, with no amount and the computed first repayment date. */
  lemma TermLoansNeedNoAmount(a: LoanAccount, product: LoanProduct, todayMidnightUtc: int, clock: Clock)
    requires product.loanProductType in {DYNAMIC_TERM_LOAN, FIXED_TERM_LOAN, PAYMENT_PLAN}
    requires MakeFirstRepaymentDate(Some(a), Some(product), true, clock).Success?
    ensures DisbursementArguments(Some(a), product, todayMidnightUtc, clock)
            == Success(Disburse(None, Some(todayMidnightUtc), MakeFirstRepaymentDate(Some(a), Some(product), true, clock).value))
  {
  }

  /**
   * Revolving credit is disbursed for the loan amount; its first repayment date
   * is kept only for an APPROVED account, that is, on the first disbursement.
   */
  lemma RevolvingCreditDisbursesLoanAmount(a: LoanAccount, product: LoanProduct, todayMidnightUtc: int, clock: Clock)
    requires product.loanProductType == REVOLVING_CREDIT
    requires MakeFirstRepaymentDate(Some(a), Some(product), true, clock).Success?
    ensures var r := DisbursementArguments(Some(a), product, todayMidnightUtc, clock);
            && r.Success? && r.value.Disburse?
            && r.value.amount == a.loanAmount
            && r.value.disbursementDate == Some(todayMidnightUtc)
            && (r.value.firstRepaymentDate.Some? ==> a.accountState == Some(APPROVED))
            && (a.accountState == Some(APPROVED) ==>
                  r.value.firstRepaymentDate == MakeFirstRepaymentDate(Some(a), Some(product), true, clock).value)
  {
  }

  /**
   * A tranched loan is disbursed with neither amount nor date, and only when a
   * non-disbursed tranche exists whose expected date is not after now; a later
   * tranche gets no first repayment date.
   */
  lemma TranchedLoanRules(a: LoanAccount, product: LoanProduct, todayMidnightUtc: int, clock: Clock)
    requires product.loanProductType == TRANCHED_LOAN
    requires MakeFirstRepaymentDate(Some(a), Some(product), true, clock).Success?
    ensures var r := DisbursementArguments(Some(a), product, todayMidnightUtc, clock);
            var next := NonDisbursedTranches(a);
            && (|next| == 0 ==> r == Success(Skipped))
            && (|next| > 0 && next[0].expectedDisbursementDate.None? ==> r.Failure?)
            && (|next| > 0 && next[0].expectedDisbursementDate.Some? ==>
                  && (r == Success(Skipped) <==> next[0].expectedDisbursementDate.value > clock.now)
                  && (r.value.Disburse? ==> r.value.amount.None? && r.value.disbursementDate.None?)
                  && (r.value.Disburse? && |DisbursedTranches(a)| > 0 ==> r.value.firstRepaymentDate.None?))
  {
  }

  /**
   * On the first tranche's disbursement a computed first repayment date
   * before the tranche date is pushed out by five days; one on or after it is kept.
   */
  lemma FirstTrancheKeepsOrPushesDate(a: LoanAccount, product: LoanProduct, todayMidnightUtc: int, clock: Clock)
    requires product.loanProductType == TRANCHED_LOAN
    requires MakeFirstRepaymentDate(Some(a), Some(product), true, clock).Success?
    requires |NonDisbursedTranches(a)| > 0 && |DisbursedTranches(a)| == 0
    requires NonDisbursedTranches(a)[0].expectedDisbursementDate.Some?
    requires NonDisbursedTranches(a)[0].expectedDisbursementDate.value <= clock.now
    ensures var computed := MakeFirstRepaymentDate(Some(a), Some(product), true, clock).value;
            var trancheDate := NonDisbursedTranches(a)[0].expectedDisbursementDate.value;
            DisbursementArguments(Some(a), product, todayMidnightUtc, clock)
            == Success(Disburse(None, None, FirstTrancheRepaymentDate(computed, trancheDate)))
  {
  }

  /** A failing first-repayment-date computation makes the whole test fail, whatever the product type. */
  lemma RepaymentDateFailurePropagates(a: LoanAccount, product: LoanProduct, todayMidnightUtc: int, clock: Clock)
    requires MakeFirstRepaymentDate(Some(a), Some(product), true, clock).Failure?
    ensures DisbursementArguments(Some(a), product, todayMidnightUtc, clock)
            == Failure(MakeFirstRepaymentDate(Some(a), Some(product), true, clock).error)
  {
  }
}
