/**
 * The sub-collection preparation of the demo loan service: spacing the expected
 * dates of the non-disbursed tranches and nulling their encoded keys
 * (`testUpdatingAccountTranches`), and rebuilding investor funds and
 * guarantees as key-less copies (`testUpdatingAccountFunds`,
 * `testUpdateLoanAccountGuarantees`).  A null encoded key asks the server to
 * create the item; the server-side replacement itself is not modelled.
 */
module DemoCollections {
  import opened Wrappers
  import opened Calendar
  import opened LoanModel

  /** `fiveDays`: five days in milliseconds. */
  const FIVE_DAYS: int := 5 * MS_PER_DAY

  /** 0 + 1 + ... + k. */
  function Triangle(k: nat): nat {
    k * (k + 1) / 2
  }

  lemma TriangleStep(k: nat)
    ensures Triangle(k + 1) == Triangle(k) + (k + 1)
  {
    var p := k * (k + 1);
    assert (k + 1) * (k + 2) == p + 2 * (k + 1);
  }

  /**
   * The date the first tranche starts from: today, or the first repayment date
   * when that is earlier, no tranche is disbursed yet and a first repayment
   * date is known.
   */
  function SpacingStart(today: int, firstRepaymentDate: Option<int>, hasDisbursedTranches: bool): (start: int)
    ensures start <= today
    ensures !hasDisbursedTranches && firstRepaymentDate.Some? ==> start <= firstRepaymentDate.value
    ensures start == today || (!hasDisbursedTranches && firstRepaymentDate == Some(start))
  {
    if !hasDisbursedTranches && firstRepaymentDate.Some? && today > firstRepaymentDate.value
    then firstRepaymentDate.value else today
  }

  /** Expected disbursement date of the k-th respaced tranche: 5 * (0 + 1 + ... + k) days after the start. */
  function SpacedDate(start: int, k: nat): int {
    start + FIVE_DAYS * Triangle(k)
  }

  /** The tranches with their expected dates respaced from `start`; nothing else changes. */
  function Respaced(ts: seq<LoanTranche>, start: int): (r: seq<LoanTranche>)
    ensures |r| == |ts|
    ensures forall k :: 0 <= k < |ts| ==> r[k] == ts[k].(expectedDisbursementDate := Some(SpacedDate(start, k)))
  {
    seq(|ts|, k requires 0 <= k < |ts| => ts[k].(expectedDisbursementDate := Some(SpacedDate(start, k))))
  }

  /** The tranches with every encoded key null; nothing else changes. */
  function WithoutKeys(ts: seq<LoanTranche>): (r: seq<LoanTranche>)
    ensures |r| == |ts|
    ensures forall k :: 0 <= k < |ts| ==> r[k] == ts[k].(encodedKey := None)
  {
    seq(|ts|, k requires 0 <= k < |ts| => ts[k].(encodedKey := None))
  }

  /**
   * The first loop of `testUpdatingAccountTranches`: each tranche's date is the
   * previous one plus i * 5 days, the first clamped to the first repayment date.
   */
  method SpaceTrancheDates(tranches: array<LoanTranche>, today: int, firstRepaymentDate: Option<int>,
                           hasDisbursedTranches: bool)
    modifies tranches
    ensures tranches[..] == Respaced(old(tranches[..]), SpacingStart(today, firstRepaymentDate, hasDisbursedTranches))
  {
    ghost var start := SpacingStart(today, firstRepaymentDate, hasDisbursedTranches);
    var trancheDate := today;
    var i := 0;
    while i < tranches.Length
      invariant 0 <= i <= tranches.Length
      invariant i == 0 ==> trancheDate == today
      invariant i > 0 ==> trancheDate == SpacedDate(start, i - 1)
      invariant forall k :: 0 <= k < i ==>
        tranches[k] == old(tranches[k]).(expectedDisbursementDate := Some(SpacedDate(start, k)))
      invariant forall k :: i <= k < tranches.Length ==> tranches[k] == old(tranches[k])
    {
      trancheDate := trancheDate + i * FIVE_DAYS;
      if !hasDisbursedTranches && firstRepaymentDate.Some? && i == 0 {
        if trancheDate > firstRepaymentDate.value {
          trancheDate := firstRepaymentDate.value;
        }
      }
      if i > 0 {
        TriangleStep(i - 1);
      }
      tranches[i] := tranches[i].(expectedDisbursementDate := Some(trancheDate));
      i := i + 1;
    }
  }

  /** The second loop of `testUpdatingAccountTranches`: every encoded key is set to null. */
  method ClearTrancheKeys(tranches: array<LoanTranche>)
    modifies tranches
    ensures tranches[..] == WithoutKeys(old(tranches[..]))
  {
    for i := 0 to tranches.Length
      invariant forall k :: 0 <= k < i ==> tranches[k] == old(tranches[k]).(encodedKey := None)
      invariant forall k :: i <= k < tranches.Length ==> tranches[k] == old(tranches[k])
    {
      tranches[i] := tranches[i].(encodedKey := None);
    }
  }

  /**
   * `testUpdatingAccountTranches` without its service calls: the tranche lists
   * it sends to `updateLoanAccountTranches`, in order.  The account is the
   * demo's new account, null when it was not created: the test then throws at
   * `theAccount.getId()` before anything is sent.  Nothing is sent when the
   * account has no tranches or no non-disbursed tranche.
   */
  method UpdatingAccountTranches(theAccount: Option<LoanAccount>, today: int)
    returns (r: Result<seq<seq<LoanTranche>>, DemoError>)
    ensures theAccount.None? ==> r == Failure(NullDereference("theAccount.getId()"))
    ensures theAccount.Some? ==> r.Success?
    ensures theAccount.Some? ==>
            var account := theAccount.value;
            account.tranches.None? || |account.tranches.value| == 0 || |NonDisbursedTranches(account)| == 0
            ==> r.value == []
    ensures theAccount.Some? ==>
            var account := theAccount.value;
            account.tranches.Some? && |account.tranches.value| > 0 && |NonDisbursedTranches(account)| > 0 ==>
            var start := SpacingStart(today, FirstRepaymentDate(account), |DisbursedTranches(account)| > 0);
            r.value == [Respaced(NonDisbursedTranches(account), start),
                        WithoutKeys(Respaced(NonDisbursedTranches(account), start))]
  {
    if theAccount.None? {
      return Failure(NullDereference("theAccount.getId()"));
    }
    var account := theAccount.value;
    if account.tranches.None? || |account.tranches.value| == 0 {
      return Success([]);
    }
    var nonDisbursed := NonDisbursedTranches(account);
    if |nonDisbursed| == 0 {
      return Success([]);
    }
    var hasDisbursedTranches := |DisbursedTranches(account)| > 0;
    var firstRepaymentDate := FirstRepaymentDate(account);
    var tranches := new LoanTranche[|nonDisbursed|](k requires 0 <= k < |nonDisbursed| => nonDisbursed[k]);
    assert tranches[..] == nonDisbursed;
    SpaceTrancheDates(tranches, today, firstRepaymentDate, hasDisbursedTranches);
    var sent := [tranches[..]];
    ClearTrancheKeys(tranches);
    sent := sent + [tranches[..]];
    return Success(sent);
  }

  // ----- Properties of the respaced dates -----

  /** Consecutive tranches are k * 5 days apart. */
  lemma SpacedDatesStep(start: int, k: nat)
    ensures SpacedDate(start, k + 1) == SpacedDate(start, k) + (k + 1) * FIVE_DAYS
  {
    TriangleStep(k);
  }

  /** The respaced dates strictly increase along the list. */
  lemma {:induction false} SpacedDatesIncrease(start: int, j: nat, k: nat)
    requires j < k
    ensures SpacedDate(start, j) < SpacedDate(start, k)
    decreases k - j
  {
    SpacedDatesStep(start, k - 1);
    if j < k - 1 {
      SpacedDatesIncrease(start, j, k - 1);
    }
  }

  /**
   * Respacing keeps the number of tranches, keys, amounts and disbursed flags;
   * the dates strictly increase; and when the clamp applies the first tranche
   * is not after the first repayment date.
   */
  lemma RespacedProperties(ts: seq<LoanTranche>, today: int, firstRepaymentDate: Option<int>, hasDisbursed: bool)
    ensures var r := Respaced(ts, SpacingStart(today, firstRepaymentDate, hasDisbursed));
            && |r| == |ts|
            && (forall k :: 0 <= k < |ts| ==>
                  r[k].encodedKey == ts[k].encodedKey && r[k].amount == ts[k].amount
                  && r[k].index == ts[k].index && r[k].disbursed == ts[k].disbursed
                  && r[k].expectedDisbursementDate.Some?)
            && (forall j, k :: 0 <= j < k < |ts| ==>
                  r[j].expectedDisbursementDate.value < r[k].expectedDisbursementDate.value)
            && (|ts| > 0 && !hasDisbursed && firstRepaymentDate.Some? ==>
                  r[0].expectedDisbursementDate.value <= firstRepaymentDate.value)
            && (|ts| > 0 ==> r[0].expectedDisbursementDate.value <= today)
  {
    var start := SpacingStart(today, firstRepaymentDate, hasDisbursed);
    forall j, k | 0 <= j < k < |ts|
      ensures SpacedDate(start, j) < SpacedDate(start, k)
    {
      SpacedDatesIncrease(start, j, k);
    }
  }

  /** After the second loop no tranche has an encoded key, so the server treats each as new. */
  lemma WithoutKeysHasNoKeys(ts: seq<LoanTranche>)
    ensures forall t :: t in WithoutKeys(ts) ==> t.encodedKey.None?
    ensures WithoutKeys(WithoutKeys(ts)) == WithoutKeys(ts)
  {
  }

  // ----- Funds and guarantees -----

  /** The copy `testUpdatingAccountFunds` builds: amount, guarantor key, savings account key and custom fields only. */
  function FundCopy(f: InvestorFund): (c: InvestorFund)
    ensures c == f.(encodedKey := None, guarantorType := None)
  {
    EMPTY_FUND.(amount := f.amount, guarantorKey := f.guarantorKey,
                savingsAccountKey := f.savingsAccountKey, customFieldValues := f.customFieldValues)
  }

  /** The copy `testUpdateLoanAccountGuarantees` builds: everything but the encoded key. */
  function GuarantyCopy(g: Guaranty): (c: Guaranty)
    ensures c == g.(encodedKey := None)
  {
    EMPTY_GUARANTY.(guarantyType := g.guarantyType, guarantorType := g.guarantorType, assetName := g.assetName,
                    amount := g.amount, guarantorKey := g.guarantorKey, savingsAccountKey := g.savingsAccountKey,
                    customFieldValues := g.customFieldValues)
  }

  /** The fund copy loop: one key-less copy per returned fund, in order. */
  method CopyFundsWithoutKeys(resultFunds: seq<InvestorFund>) returns (updatedFunds: seq<InvestorFund>)
    ensures |updatedFunds| == |resultFunds|
    ensures forall k :: 0 <= k < |resultFunds| ==> updatedFunds[k] == FundCopy(resultFunds[k])
  {
    updatedFunds := [];
    for i := 0 to |resultFunds|
      invariant |updatedFunds| == i
      invariant forall k :: 0 <= k < i ==> updatedFunds[k] == FundCopy(resultFunds[k])
    {
      var newFund := EMPTY_FUND;
      newFund := newFund.(amount := resultFunds[i].amount);
      newFund := newFund.(guarantorKey := resultFunds[i].guarantorKey);
      newFund := newFund.(savingsAccountKey := resultFunds[i].savingsAccountKey);
      newFund := newFund.(customFieldValues := resultFunds[i].customFieldValues);
      updatedFunds := updatedFunds + [newFund];
    }
  }

  /** The guarantee copy loop: one key-less copy per returned guarantee, in order. */
  method CopyGuaranteesWithoutKeys(resultGuarantees: seq<Guaranty>) returns (updatedGuarantees: seq<Guaranty>)
    ensures |updatedGuarantees| == |resultGuarantees|
    ensures forall k :: 0 <= k < |resultGuarantees| ==> updatedGuarantees[k] == GuarantyCopy(resultGuarantees[k])
  {
    updatedGuarantees := [];
    for i := 0 to |resultGuarantees|
      invariant |updatedGuarantees| == i
      invariant forall k :: 0 <= k < i ==> updatedGuarantees[k] == GuarantyCopy(resultGuarantees[k])
    {
      var newGuaranty := EMPTY_GUARANTY;
      newGuaranty := newGuaranty.(guarantyType := resultGuarantees[i].guarantyType);
      newGuaranty := newGuaranty.(guarantorType := resultGuarantees[i].guarantorType);
      newGuaranty := newGuaranty.(assetName := resultGuarantees[i].assetName);
      newGuaranty := newGuaranty.(amount := resultGuarantees[i].amount);
      newGuaranty := newGuaranty.(guarantorKey := resultGuarantees[i].guarantorKey);
      newGuaranty := newGuaranty.(savingsAccountKey := resultGuarantees[i].savingsAccountKey);
      newGuaranty := newGuaranty.(customFieldValues := resultGuarantees[i].customFieldValues);
      updatedGuarantees := updatedGuarantees + [newGuaranty];
    }
  }

  /**
   * A fund copy has neither an encoded key nor a guarantor type, whatever the
   * server returned for them: the copy loop does not carry the guarantor type
   * over.  Copying a copy changes nothing.
   */
  lemma FundCopyDropsKeyAndGuarantorType(f: InvestorFund, key: Option<string>, guarantorType: Option<AccountHolderType>)
    ensures FundCopy(f).encodedKey.None? && FundCopy(f).guarantorType.None?
    ensures FundCopy(f.(encodedKey := key, guarantorType := guarantorType)) == FundCopy(f)
    ensures FundCopy(FundCopy(f)) == FundCopy(f)
  {
  }

  /** A guarantee copy has no encoded key, whatever the server returned for it; copying a copy changes nothing. */
  lemma GuarantyCopyDropsOnlyKey(g: Guaranty, key: Option<string>)
    ensures GuarantyCopy(g).encodedKey.None?
    ensures GuarantyCopy(g.(encodedKey := key)) == GuarantyCopy(g)
    ensures GuarantyCopy(GuarantyCopy(g)) == GuarantyCopy(g)
  {
  }
}
