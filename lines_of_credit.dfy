/**
 * `LinesOfCreditService`: each public method checks its arguments locally and
 * then makes exactly one call to the service executor, or throws an
 * `IllegalArgumentException` without calling it.  The executor (what URL it
 * builds, how it sends and decodes) is not part of this model: a call to it is
 * a value describing which executor method is called with which arguments.
 */
module LinesOfCredit {
  import opened Wrappers
  import opened JavaInts

  /** `MambuEntityType`: the kinds this service names; the enum's other kinds are OtherEntityType. */
  datatype MambuEntityType =
    | CLIENT
    | GROUP
    | LOAN_ACCOUNT
    | SAVINGS_ACCOUNT
    | LINE_OF_CREDIT
    | OtherEntityType(name: string)

  /** `Account.Type`. */
  datatype AccountType = LOAN | SAVINGS

  /** `ApiDefinition.ApiType`: the API shapes this service uses. */
  datatype ApiType = GET_ENTITY | GET_OWNED_ENTITY | POST_OWNED_ENTITY

  /** The model classes an API definition names. */
  datatype ModelClass =
    | LineOfCreditClass
    | LineOfCreditExpandedClass
    | AccountsFromLineOfCreditClass
    | LoanAccountClass
    | SavingsAccountClass

  /** `new ApiDefinition(apiType, entityClass)` or `new ApiDefinition(apiType, entityClass, resultClass)`. */
  datatype ApiDefinition = ApiDefinition(apiType: ApiType, entityClass: ModelClass, resultClass: Option<ModelClass>)

  /**
   * One call to the service executor, with its arguments as passed; `params`
   * is the ParamsMap argument of `execute(definition, id, relatedId, params)`,
   * which this service always passes as null.
   */
  datatype ExecutorCall =
    | GetPaginatedList(entity: MambuEntityType, offset: Option<Int32>, limit: Option<Int32>)
    | GetOwnedEntities(parent: MambuEntityType, parentId: Option<string>, owned: MambuEntityType,
                       offset: Option<Int32>, limit: Option<Int32>)
    | Execute(definition: ApiDefinition, id: Option<string>)
    | ExecuteRelated(definition: ApiDefinition, id: Option<string>, relatedId: Option<string>, params: Option<()>)
    | DeleteOwnedEntity(parent: MambuEntityType, parentId: Option<string>, owned: MambuEntityType,
                        ownedId: Option<string>)

  /** What a method returns: the executor's result, or the `lineOfCredit` inside a `LineOfCreditExpanded`. */
  datatype Unwrap = AsReturned | InnerLineOfCredit

  datatype Dispatch = Dispatch(call: ExecutorCall, unwrap: Unwrap)

  datatype LocError = IllegalArgument(message: string)

  /** The entity this service manages. */
  const SERVICE_ENTITY: MambuEntityType := LINE_OF_CREDIT

  /** How Java writes a possibly-null string into a message. */
  function JavaString(s: Option<string>): string {
    if s.Some? then s.value else "null"
  }

  /** How Java writes a possibly-null `Account.Type` into a message: the constant's name. */
  function AccountTypeString(t: Option<AccountType>): string {
    match t
    case None => "null"
    case Some(LOAN) => "LOAN"
    case Some(SAVINGS) => "SAVINGS"
  }

  /** `getAllLinesOfCredit(offset, limit)`. */
  function GetAllLinesOfCredit(offset: Option<Int32>, limit: Option<Int32>): (r: Result<Dispatch, LocError>)
    ensures r.Success? && r.value.unwrap == AsReturned
  {
    Success(Dispatch(GetPaginatedList(SERVICE_ENTITY, offset, limit), AsReturned))
  }

  /** `getLineOfCredit(lineofcreditId)`: decodes a `LineOfCreditExpanded` and returns the line of credit inside it. */
  function GetLineOfCredit(lineOfCreditId: Option<string>): (r: Result<Dispatch, LocError>)
    ensures r.Success? && r.value.unwrap == InnerLineOfCredit
  {
    Success(Dispatch(Execute(ApiDefinition(GET_ENTITY, LineOfCreditExpandedClass, None), lineOfCreditId),
                     InnerLineOfCredit))
  }

  /** `getLinesOfCredit(customerType, customerId, offset, limit)`: only clients and groups own lines of credit. */
  function GetLinesOfCredit(customerType: Option<MambuEntityType>, customerId: Option<string>,
                            offset: Option<Int32>, limit: Option<Int32>): (r: Result<Dispatch, LocError>)
    ensures r.Failure? <==> customerType != Some(CLIENT) && customerType != Some(GROUP)
  {
    match customerType
    case None => Failure(IllegalArgument("Customer type cannot be null"))
    case Some(CLIENT) =>
      Success(Dispatch(GetOwnedEntities(CLIENT, customerId, SERVICE_ENTITY, offset, limit), AsReturned))
    case Some(GROUP) =>
      Success(Dispatch(GetOwnedEntities(GROUP, customerId, SERVICE_ENTITY, offset, limit), AsReturned))
    case Some(_) => Failure(IllegalArgument("Lines Of Credit Supported only for Clients and Groups"))
  }

  /** `getClientLinesOfCredit(clientId, offset, limit)`. */
  function GetClientLinesOfCredit(clientId: Option<string>, offset: Option<Int32>, limit: Option<Int32>)
    : (r: Result<Dispatch, LocError>)
    ensures r.Success?
  {
    GetLinesOfCredit(Some(CLIENT), clientId, offset, limit)
  }

  /** `getGroupLinesOfCredit(groupId, offset, limit)`. */
  function GetGroupLinesOfCredit(groupId: Option<string>, offset: Option<Int32>, limit: Option<Int32>)
    : (r: Result<Dispatch, LocError>)
    ensures r.Success?
  {
    GetLinesOfCredit(Some(GROUP), groupId, offset, limit)
  }

  /** `getAccountsForLineOfCredit(lineofcreditId)`. */
  function GetAccountsForLineOfCredit(lineOfCreditId: Option<string>): (r: Result<Dispatch, LocError>)
    ensures r.Success? && r.value.unwrap == AsReturned
  {
    var definition := ApiDefinition(GET_OWNED_ENTITY, LineOfCreditClass, Some(AccountsFromLineOfCreditClass));
    Success(Dispatch(Execute(definition, lineOfCreditId), AsReturned))
  }

  /** The shared shape of `addLoanAccount` and `addSavingsAccount`: only the account id is checked. */
  function AddAccount(lineOfCreditId: Option<string>, accountId: Option<string>, accountClass: ModelClass)
    : (r: Result<Dispatch, LocError>)
    ensures r.Failure? <==> accountId.None?
  {
    if accountId.None? then Failure(IllegalArgument("Account ID must not be null"))
    else
      var definition := ApiDefinition(POST_OWNED_ENTITY, LineOfCreditClass, Some(accountClass));
      Success(Dispatch(ExecuteRelated(definition, lineOfCreditId, accountId, None), AsReturned))
  }

  /** `addLoanAccount(lineofcreditId, loanAccountId)`. */
  function AddLoanAccount(lineOfCreditId: Option<string>, loanAccountId: Option<string>)
    : (r: Result<Dispatch, LocError>)
    ensures r.Failure? <==> loanAccountId.None?
  {
    AddAccount(lineOfCreditId, loanAccountId, LoanAccountClass)
  }

  /** `addSavingsAccount(lineofcreditId, savingsAccountId)`. */
  function AddSavingsAccount(lineOfCreditId: Option<string>, savingsAccountId: Option<string>)
    : (r: Result<Dispatch, LocError>)
    ensures r.Failure? <==> savingsAccountId.None?
  {
    AddAccount(lineOfCreditId, savingsAccountId, SavingsAccountClass)
  }

  /** The owned-entity kind an account type is deleted as: loans as loan accounts, everything else as savings accounts. */
  function OwnedEntityType(accountType: AccountType): (t: MambuEntityType)
    ensures t == LOAN_ACCOUNT <==> accountType == LOAN
    ensures t == SAVINGS_ACCOUNT <==> accountType != LOAN
  {
    if accountType == LOAN then LOAN_ACCOUNT else SAVINGS_ACCOUNT
  }

  /** `deleteAccount(lineofcreditId, accountType, accountId)`. */
  function DeleteAccount(lineOfCreditId: Option<string>, accountType: Option<AccountType>, accountId: Option<string>)
    : (r: Result<Dispatch, LocError>)
    ensures r.Failure? <==> accountType.None? || accountId.None?
  {
    if accountType.None? || accountId.None? then
      Failure(IllegalArgument("Account Type and Account ID must not be null. Type=" + AccountTypeString(accountType)
                              + " Id=" + JavaString(accountId)))
    else
      Success(Dispatch(DeleteOwnedEntity(LINE_OF_CREDIT, lineOfCreditId, OwnedEntityType(accountType.value), accountId),
                       AsReturned))
  }

  /** `deleteLoanAccount(lineofcreditId, loanAccountId)`. */
  function DeleteLoanAccount(lineOfCreditId: Option<string>, loanAccountId: Option<string>)
    : (r: Result<Dispatch, LocError>)
    ensures r.Failure? <==> loanAccountId.None?
  {
    DeleteAccount(lineOfCreditId, Some(LOAN), loanAccountId)
  }

  /** `deleteSavingsAccount(lineofcreditId, savingsAccountId)`. */
  function DeleteSavingsAccount(lineOfCreditId: Option<string>, savingsAccountId: Option<string>)
    : (r: Result<Dispatch, LocError>)
    ensures r.Failure? <==> savingsAccountId.None?
  {
    DeleteAccount(lineOfCreditId, Some(SAVINGS), savingsAccountId)
  }

  // ----- The public methods as one operation type -----

  datatype Operation =
    | GetAllLinesOfCreditOp(offset: Option<Int32>, limit: Option<Int32>)
    | GetLineOfCreditOp(lineOfCreditId: Option<string>)
    | GetLinesOfCreditOp(customerType: Option<MambuEntityType>, customerId: Option<string>,
                         offset: Option<Int32>, limit: Option<Int32>)
    | GetClientLinesOfCreditOp(clientId: Option<string>, offset: Option<Int32>, limit: Option<Int32>)
    | GetGroupLinesOfCreditOp(groupId: Option<string>, offset: Option<Int32>, limit: Option<Int32>)
    | GetAccountsForLineOfCreditOp(lineOfCreditId: Option<string>)
    | AddLoanAccountOp(lineOfCreditId: Option<string>, accountId: Option<string>)
    | AddSavingsAccountOp(lineOfCreditId: Option<string>, accountId: Option<string>)
    | DeleteAccountOp(lineOfCreditId: Option<string>, accountType: Option<AccountType>, accountId: Option<string>)
    | DeleteLoanAccountOp(lineOfCreditId: Option<string>, accountId: Option<string>)
    | DeleteSavingsAccountOp(lineOfCreditId: Option<string>, accountId: Option<string>)

  /** Calling a public method of the service. */
  function Perform(op: Operation): Result<Dispatch, LocError> {
    match op
    case GetAllLinesOfCreditOp(offset, limit) => GetAllLinesOfCredit(offset, limit)
    case GetLineOfCreditOp(id) => GetLineOfCredit(id)
    case GetLinesOfCreditOp(t, id, offset, limit) => GetLinesOfCredit(t, id, offset, limit)
    case GetClientLinesOfCreditOp(id, offset, limit) => GetClientLinesOfCredit(id, offset, limit)
    case GetGroupLinesOfCreditOp(id, offset, limit) => GetGroupLinesOfCredit(id, offset, limit)
    case GetAccountsForLineOfCreditOp(id) => GetAccountsForLineOfCredit(id)
    case AddLoanAccountOp(loc, id) => AddLoanAccount(loc, id)
    case AddSavingsAccountOp(loc, id) => AddSavingsAccount(loc, id)
    case DeleteAccountOp(loc, t, id) => DeleteAccount(loc, t, id)
    case DeleteLoanAccountOp(loc, id) => DeleteLoanAccount(loc, id)
    case DeleteSavingsAccountOp(loc, id) => DeleteSavingsAccount(loc, id)
  }

  /**
   * The operations whose calls can be told apart: the client and group
   * conveniences are `getLinesOfCredit` and the loan and savings deletions
   * are `deleteAccount`, so those are written in that form.
   */
  function Canonical(op: Operation): Operation {
    match op
    case GetClientLinesOfCreditOp(id, offset, limit) => GetLinesOfCreditOp(Some(CLIENT), id, offset, limit)
    case GetGroupLinesOfCreditOp(id, offset, limit) => GetLinesOfCreditOp(Some(GROUP), id, offset, limit)
    case DeleteLoanAccountOp(loc, id) => DeleteAccountOp(loc, Some(LOAN), id)
    case DeleteSavingsAccountOp(loc, id) => DeleteAccountOp(loc, Some(SAVINGS), id)
    case _ => op
  }

  /** The operation an executor call was made for, read back from the call alone. */
  function OperationOf(d: Dispatch): Option<Operation> {
    match d.call
    case GetPaginatedList(entity, offset, limit) =>
      if entity == LINE_OF_CREDIT && d.unwrap == AsReturned then Some(GetAllLinesOfCreditOp(offset, limit)) else None
    case GetOwnedEntities(parent, id, owned, offset, limit) =>
      if (parent == CLIENT || parent == GROUP) && owned == LINE_OF_CREDIT && d.unwrap == AsReturned
      then Some(GetLinesOfCreditOp(Some(parent), id, offset, limit)) else None
    case Execute(definition, id) =>
      if definition == ApiDefinition(GET_ENTITY, LineOfCreditExpandedClass, None) && d.unwrap == InnerLineOfCredit
      then Some(GetLineOfCreditOp(id))
      else if definition == ApiDefinition(GET_OWNED_ENTITY, LineOfCreditClass, Some(AccountsFromLineOfCreditClass))
              && d.unwrap == AsReturned
      then Some(GetAccountsForLineOfCreditOp(id))
      else None
    case ExecuteRelated(definition, loc, id, params) =>
      if id.None? || params.Some? || d.unwrap != AsReturned then None
      else if definition == ApiDefinition(POST_OWNED_ENTITY, LineOfCreditClass, Some(LoanAccountClass))
      then Some(AddLoanAccountOp(loc, id))
      else if definition == ApiDefinition(POST_OWNED_ENTITY, LineOfCreditClass, Some(SavingsAccountClass))
      then Some(AddSavingsAccountOp(loc, id))
      else None
    case DeleteOwnedEntity(parent, loc, owned, id) =>
      if parent != LINE_OF_CREDIT || id.None? || d.unwrap != AsReturned then None
      else if owned == LOAN_ACCOUNT then Some(DeleteAccountOp(loc, Some(LOAN), id))
      else if owned == SAVINGS_ACCOUNT then Some(DeleteAccountOp(loc, Some(SAVINGS), id))
      else None
  }

  // ----- Properties -----

  /**
   * Every successful method call is recognised from its executor call alone:
   * the call says which method made it and with which arguments.
   */
  lemma CallIdentifiesOperation(op: Operation)
    requires Perform(op).Success?
    ensures OperationOf(Perform(op).value) == Some(Canonical(op))
  {
  }

  /** Every executor call the service can make is the call of the operation read back from it. */
  lemma RecognisedCallsArePerformed(d: Dispatch, op: Operation)
    requires OperationOf(d) == Some(op)
    ensures Perform(op) == Success(d)
  {
  }

  /** `getAllLinesOfCredit` passes offset and limit through unchanged, nulls included. */
  lemma AllLinesPassesPagingThrough(offset: Option<Int32>, limit: Option<Int32>)
    ensures GetAllLinesOfCredit(offset, limit).value.call == GetPaginatedList(LINE_OF_CREDIT, offset, limit)
  {
  }

  /** `getLineOfCredit` decodes a `LineOfCreditExpanded` from GET_ENTITY and returns its inner line of credit. */
  lemma LineOfCreditIsUnwrapped(id: Option<string>)
    ensures var d := GetLineOfCredit(id).value;
            d.call.Execute? && d.call.definition.apiType == GET_ENTITY
            && d.call.definition.entityClass == LineOfCreditExpandedClass && d.call.id == id
            && d.unwrap == InnerLineOfCredit
  {
  }

  /**
   * `getLinesOfCredit` asks for the lines of credit owned by a client or a
   * group, passing all its arguments through; a null type fails with its own
   * message, any other type with another message.
   */
  lemma LinesOfCreditOnlyForClientsAndGroups(t: Option<MambuEntityType>, id: Option<string>,
                                             offset: Option<Int32>, limit: Option<Int32>)
    ensures t.None? ==> GetLinesOfCredit(t, id, offset, limit)
                        == Failure(IllegalArgument("Customer type cannot be null"))
    ensures t == Some(CLIENT) || t == Some(GROUP) ==>
              GetLinesOfCredit(t, id, offset, limit).value.call == GetOwnedEntities(t.value, id, LINE_OF_CREDIT, offset, limit)
    ensures t.Some? && t != Some(CLIENT) && t != Some(GROUP) ==>
              GetLinesOfCredit(t, id, offset, limit)
              == Failure(IllegalArgument("Lines Of Credit Supported only for Clients and Groups"))
  {
  }

  /** The client and group conveniences are `getLinesOfCredit` with CLIENT and GROUP. */
  lemma ConveniencesDelegate(id: Option<string>, offset: Option<Int32>, limit: Option<Int32>)
    ensures GetClientLinesOfCredit(id, offset, limit) == GetLinesOfCredit(Some(CLIENT), id, offset, limit)
    ensures GetGroupLinesOfCredit(id, offset, limit) == GetLinesOfCredit(Some(GROUP), id, offset, limit)
  {
  }

  /**
   * Adding an account posts (locId, accountId, null) as an owned entity of the
   * line of credit; the line-of-credit id is not checked, even when null.
   */
  lemma AddAccountPassesIdsThrough(loc: Option<string>, id: string)
    ensures AddLoanAccount(loc, Some(id)).value.call
            == ExecuteRelated(ApiDefinition(POST_OWNED_ENTITY, LineOfCreditClass, Some(LoanAccountClass)), loc, Some(id), None)
    ensures AddSavingsAccount(loc, Some(id)).value.call
            == ExecuteRelated(ApiDefinition(POST_OWNED_ENTITY, LineOfCreditClass, Some(SavingsAccountClass)), loc, Some(id), None)
    ensures AddLoanAccount(None, Some(id)).Success?
  {
  }

  /**
   * Deletion maps the account type to the owned-entity kind one to one and
   * deletes that entity of the line of credit; a null type or id fails with a
   * message that names both.
   */
  lemma DeleteAccountMapping(loc: Option<string>, t: Option<AccountType>, id: Option<string>)
    ensures t.Some? && id.Some? ==>
              DeleteAccount(loc, t, id).value.call == DeleteOwnedEntity(LINE_OF_CREDIT, loc, OwnedEntityType(t.value), id)
    ensures t.None? || id.None? ==>
              DeleteAccount(loc, t, id).error.message
              == "Account Type and Account ID must not be null. Type=" + AccountTypeString(t) + " Id=" + JavaString(id)
    ensures OwnedEntityType(LOAN) == LOAN_ACCOUNT && OwnedEntityType(SAVINGS) == SAVINGS_ACCOUNT
    ensures forall a, b :: OwnedEntityType(a) == OwnedEntityType(b) ==> a == b
  {
  }

  /** The loan and savings deletions are `deleteAccount` with LOAN and SAVINGS. */
  lemma DeletionsDelegate(loc: Option<string>, id: Option<string>)
    ensures DeleteLoanAccount(loc, id) == DeleteAccount(loc, Some(LOAN), id)
    ensures DeleteSavingsAccount(loc, id) == DeleteAccount(loc, Some(SAVINGS), id)
  {
  }

  /** A method that fails throws before any executor call: failure and a call never come together. */
  lemma FailuresMakeNoCall(op: Operation)
    ensures Perform(op).Failure? <==>
              match op
              case GetLinesOfCreditOp(t, _, _, _) => t != Some(CLIENT) && t != Some(GROUP)
              case AddLoanAccountOp(_, id) => id.None?
              case AddSavingsAccountOp(_, id) => id.None?
              case DeleteAccountOp(_, t, id) => t.None? || id.None?
              case DeleteLoanAccountOp(_, id) => id.None?
              case DeleteSavingsAccountOp(_, id) => id.None?
              case _ => false
  {
  }
}
