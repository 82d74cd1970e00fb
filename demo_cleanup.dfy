/**
 * `deleteTestAPILoanAccounts` of the demo loan service: which of the loan
 * accounts of the demo client and the demo group it deletes.  The undo and
 * delete calls themselves are service calls and are not modelled; the model
 * yields the ids they are made for, in order.
 */
module DemoCleanup {
  import opened Wrappers
  import opened LoanModel
  import opened DemoAccount

  /** The states in which the demo deletes one of its accounts. */
  predicate DeletableState(state: Option<AccountState>) {
    state in {Some(PARTIAL_APPLICATION), Some(PENDING_APPROVAL), Some(APPROVED), Some(ACTIVE), Some(ACTIVE_IN_ARREARS)}
  }

  predicate StartsWith(s: string, prefix: string) {
    |prefix| <= |s| && s[..|prefix|] == prefix
  }

  /**
   * The selection of the clean-up loop, for an account with an id: a demo id
   * in one of the five named states; closed, withdrawn and the other states are kept.
   */
  function ShouldDelete(a: LoanAccount): (b: bool)
    requires a.id.Some?
    ensures b ==> |API_TEST_ID_PREFIX| <= |a.id.value|
                  && a.id.value == API_TEST_ID_PREFIX + a.id.value[|API_TEST_ID_PREFIX|..]
    ensures b ==> a.accountState.Some? && !a.accountState.value.OtherAccountState?
    ensures && |API_TEST_ID_PREFIX| <= |a.id.value| && a.id.value[..|API_TEST_ID_PREFIX|] == API_TEST_ID_PREFIX
            && a.accountState.Some? && !a.accountState.value.OtherAccountState?
            ==> b
  {
    StartsWith(a.id.value, API_TEST_ID_PREFIX) && DeletableState(a.accountState)
  }

  /**
   * The ids the loop deletes, in order, up to the first account without an id:
   * at most one per account, each with the demo prefix.
   */
  function DeletedIds(accounts: seq<LoanAccount>): (ids: seq<string>)
    ensures |ids| <= |accounts|
    ensures forall id :: id in ids ==> StartsWith(id, API_TEST_ID_PREFIX)
  {
    if |accounts| == 0 || accounts[0].id.None? then []
    else (if ShouldDelete(accounts[0]) then [accounts[0].id.value] else []) + DeletedIds(accounts[1..])
  }

  /**
   * The clean-up loop over the client's accounts followed by the group's.
   * `completed` is false when an account without an id stopped it with a
   * NullPointerException (from `id.startsWith`).
   */
  method DeleteTestApiLoanAccounts(clientAccounts: seq<LoanAccount>, groupAccounts: seq<LoanAccount>)
    returns (deleted: seq<string>, completed: bool)
    ensures deleted == DeletedIds(clientAccounts + groupAccounts)
    ensures completed <==> forall a :: a in clientAccounts + groupAccounts ==> a.id.Some?
  {
    var accounts := clientAccounts + groupAccounts;
    deleted := [];
    var i := 0;
    while i < |accounts|
      invariant 0 <= i <= |accounts|
      invariant forall k :: 0 <= k < i ==> accounts[k].id.Some?
      invariant deleted + DeletedIds(accounts[i..]) == DeletedIds(accounts)
    {
      var account := accounts[i];
      if account.id.None? {
        assert accounts[i..][0] == account;
        return deleted, false;
      }
      if ShouldDelete(account) {
        deleted := deleted + [account.id.value];
      }
      assert accounts[i..][1..] == accounts[i + 1..];
      i := i + 1;
    }
    return deleted, true;
  }

  // ----- Properties -----

  /**
   * When every account has an id, an id is deleted exactly when it belongs to
   * an account with the demo prefix in a deletable state.
   */
  lemma {:induction false} DeletedIdsSelection(accounts: seq<LoanAccount>, id: string)
    requires forall a :: a in accounts ==> a.id.Some?
    ensures id in DeletedIds(accounts) <==>
              exists a :: a in accounts && a.id == Some(id) && ShouldDelete(a)
  {
    if |accounts| > 0 {
      assert forall a :: a in accounts[1..] ==> a in accounts;
      DeletedIdsSelection(accounts[1..], id);
      assert forall a :: a in accounts ==> a == accounts[0] || a in accounts[1..];
    }
  }

  /** Nothing after an account without an id is deleted. */
  lemma {:induction false} DeletionStopsAtMissingId(before: seq<LoanAccount>, missing: LoanAccount,
                                                    after: seq<LoanAccount>)
    requires missing.id.None?
    ensures DeletedIds(before + [missing] + after) == DeletedIds(before)
  {
    if |before| == 0 {
      assert (before + [missing] + after)[0] == missing;
    } else {
      assert (before + [missing] + after)[1..] == before[1..] + [missing] + after;
      DeletionStopsAtMissingId(before[1..], missing, after);
    }
  }

  /**
   * An account the demo builds, once the server has put it in a deletable
   * state, is always one the clean-up deletes.
   */
  lemma BuiltAccountsAreCleanedUp(a: LoanAccount)
    requires a.id.Some? && |a.id.value| > |API_TEST_ID_PREFIX|
    requires a.id.value[..|API_TEST_ID_PREFIX|] == API_TEST_ID_PREFIX
    requires a.accountState == Some(PENDING_APPROVAL)
    ensures DeletedIds([a]) == [a.id.value]
  {
    assert [a][1..] == [];
  }
}
