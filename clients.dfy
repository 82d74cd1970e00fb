/**
 * `ClientsService`: each public method shapes one HTTP request (a URL path,
 * an ordered parameter list, a method) and the shape its JSON answer is
 * decoded into.  Sending the request and decoding the answer are not modelled.
 * The `APIData` names are kept as opaque constants: the model does not know
 * their text, only that they are distinct.
 */
module Clients {
  import opened Wrappers

  /** The `APIData` constants this service uses. */
  datatype ApiDataName =
    | CLIENTS
    | GROUPS
    | FIRST_NAME
    | LAST_NAME
    | HOME_PHONE
    | MOBILE_PHONE
    | GENDER
    | BIRTH_DATE
    | EMAIL_ADDRESS
    | ID_DOCUMENT
    | NOTES
    | FULL_DETAILS
    | BRANCH_ID
    | CREDIT_OFFICER_USER_NAME

  /** The key of a request parameter: an `APIData` constant or a literal the service spells out. */
  datatype ParamKey = ApiData(name: ApiDataName) | Literal(text: string)

  /**
   * One step of filling a `ParamsMap`.  `put` and `addParam` are different
   * methods of a class this model does not see, so they are kept apart and
   * neither is assumed to drop null values.
   */
  datatype ParamOp = Put(key: ParamKey, value: Option<string>) | AddParam(key: ParamKey, value: Option<string>)

  datatype HttpMethod = GET | POST

  datatype ModelType = ClientModel | ClientExpandedModel | GroupModel | GroupExpandedModel

  /** How the answer is decoded: one object, or a list of them. */
  datatype Decode = Single(model: ModelType) | ListOf(element: ModelType)

  /**
   * A URL path: an `APIData` collection name, alone (`CLIENTS`) or followed by
   * "/" and a text (`CLIENTS + "/" + id`, `CLIENTS + "/"`, which is tail "").
   */
  datatype UrlPath = UrlPath(collection: ApiDataName, tail: Option<string>)

  /** The request a method makes; `params` is null for the overload of `executeRequest` without parameters. */
  datatype Request = Request(path: UrlPath, params: Option<seq<ParamOp>>, httpMethod: HttpMethod, decode: Decode)

  /** `CLIENT_STATE`: the one parameter key spelled out literally. */
  const CLIENT_STATE: ParamKey := Literal("clientState")

  /** `params.put(APIData.FULL_DETAILS, "true")`: the flag is the string "true". */
  const FULL_DETAILS_PARAM: ParamOp := Put(ApiData(FULL_DETAILS), Some("true"))

  /** The keys of the full `createClient`, in the order it puts them. */
  const CREATE_CLIENT_KEYS: seq<ParamKey> :=
    [ApiData(FIRST_NAME), ApiData(LAST_NAME), ApiData(HOME_PHONE), ApiData(MOBILE_PHONE), ApiData(GENDER),
     ApiData(BIRTH_DATE), ApiData(EMAIL_ADDRESS), ApiData(NOTES)]

  /** How Java writes a possibly-null string into a concatenation. */
  function JavaString(s: Option<string>): string {
    if s.Some? then s.value else "null"
  }

  // ----- Parameter lists -----

  /** A sequence of `put` calls, one per key and value, in order. */
  function PutAll(keys: seq<ParamKey>, values: seq<Option<string>>): (ps: seq<ParamOp>)
    requires |keys| == |values|
    ensures |ps| == |keys|
    ensures forall i :: 0 <= i < |ps| ==> ps[i] == Put(keys[i], values[i])
  {
    seq(|keys|, i requires 0 <= i < |keys| => Put(keys[i], values[i]))
  }

  /** A sequence of `addParam` calls, one per key and value, in order. */
  function AddAll(keys: seq<ParamKey>, values: seq<Option<string>>): (ps: seq<ParamOp>)
    requires |keys| == |values|
    ensures |ps| == |keys|
    ensures forall i :: 0 <= i < |ps| ==> ps[i] == AddParam(keys[i], values[i])
  {
    seq(|keys|, i requires 0 <= i < |keys| => AddParam(keys[i], values[i]))
  }

  function Keys(ps: seq<ParamOp>): (ks: seq<ParamKey>)
    ensures |ks| == |ps|
    ensures forall i :: 0 <= i < |ps| ==> ks[i] == ps[i].key
  {
    seq(|ps|, i requires 0 <= i < |ps| => ps[i].key)
  }

  function Values(ps: seq<ParamOp>): (vs: seq<Option<string>>)
    ensures |vs| == |ps|
    ensures forall i :: 0 <= i < |ps| ==> vs[i] == ps[i].value
  {
    seq(|ps|, i requires 0 <= i < |ps| => ps[i].value)
  }

  predicate AllPut(ps: seq<ParamOp>) {
    forall i :: 0 <= i < |ps| ==> ps[i].Put?
  }

  predicate AllAdd(ps: seq<ParamOp>) {
    forall i :: 0 <= i < |ps| ==> ps[i].AddParam?
  }

  /** A list of `put` calls is rebuilt from its keys and values, and keys and values are read back from it. */
  lemma PutAllInverse(keys: seq<ParamKey>, values: seq<Option<string>>, ps: seq<ParamOp>)
    requires |keys| == |values|
    ensures AllPut(PutAll(keys, values))
    ensures Keys(PutAll(keys, values)) == keys && Values(PutAll(keys, values)) == values
    ensures AllPut(ps) ==> PutAll(Keys(ps), Values(ps)) == ps
  {
  }

  /** The same for a list of `addParam` calls. */
  lemma AddAllInverse(keys: seq<ParamKey>, values: seq<Option<string>>, ps: seq<ParamOp>)
    requires |keys| == |values|
    ensures AllAdd(AddAll(keys, values))
    ensures Keys(AddAll(keys, values)) == keys && Values(AddAll(keys, values)) == values
    ensures AllAdd(ps) ==> AddAll(Keys(ps), Values(ps)) == ps
  {
  }

  // ----- The public methods -----

  /** `getClient(clientId)`: GET `CLIENTS/{id}` without parameters, one client. */
  function GetClient(clientId: Option<string>): (r: Request)
    ensures r.httpMethod == GET && r.params.None?
    ensures CallOf(r) == Some(GetClientCall(Some(JavaString(clientId))))
  {
    Request(UrlPath(CLIENTS, Some(JavaString(clientId))), None, GET, Single(ClientModel))
  }

  /** `getClientByFullName(lastName, firstName)`. */
  function GetClientByFullName(lastName: Option<string>, firstName: Option<string>): (r: Request)
    ensures r.httpMethod == GET && r.params.Some? && AllPut(r.params.value)
    ensures Keys(r.params.value) == [ApiData(LAST_NAME), ApiData(FIRST_NAME)] && Values(r.params.value) == [lastName, firstName]
    ensures CallOf(r) == Some(GetClientByFullNameCall(lastName, firstName))
  {
    Request(UrlPath(CLIENTS, None), Some(PutAll([ApiData(LAST_NAME), ApiData(FIRST_NAME)], [lastName, firstName])),
            GET, ListOf(ClientModel))
  }

  /** `getClientByLastNameBirthday(lastName, birthDay)`. */
  function GetClientByLastNameBirthday(lastName: Option<string>, birthDay: Option<string>): (r: Request)
    ensures r.httpMethod == GET && r.params.Some? && AllPut(r.params.value)
    ensures Keys(r.params.value) == [ApiData(LAST_NAME), ApiData(BIRTH_DATE)] && Values(r.params.value) == [lastName, birthDay]
    ensures CallOf(r) == Some(GetClientByLastNameBirthdayCall(lastName, birthDay))
  {
    Request(UrlPath(CLIENTS, None), Some(PutAll([ApiData(LAST_NAME), ApiData(BIRTH_DATE)], [lastName, birthDay])),
            GET, ListOf(ClientModel))
  }

  /** `getClientByLastNameDocId(lastName, documentId)`. */
  function GetClientByLastNameDocId(lastName: Option<string>, documentId: Option<string>): (r: Request)
    ensures r.httpMethod == GET && r.params.Some? && AllPut(r.params.value)
    ensures Keys(r.params.value) == [ApiData(LAST_NAME), ApiData(ID_DOCUMENT)] && Values(r.params.value) == [lastName, documentId]
    ensures CallOf(r) == Some(GetClientByLastNameDocIdCall(lastName, documentId))
  {
    Request(UrlPath(CLIENTS, None), Some(PutAll([ApiData(LAST_NAME), ApiData(ID_DOCUMENT)], [lastName, documentId])),
            GET, ListOf(ClientModel))
  }

  /** `getClientDetails(clientId)`: as `getClient`, with the full-details flag, one expanded client. */
  function GetClientDetails(clientId: Option<string>): (r: Request)
    ensures r.httpMethod == GET && r.params == Some([FULL_DETAILS_PARAM])
    ensures CallOf(r) == Some(GetClientDetailsCall(Some(JavaString(clientId))))
  {
    Request(UrlPath(CLIENTS, Some(JavaString(clientId))), Some([FULL_DETAILS_PARAM]), GET, Single(ClientExpandedModel))
  }

  /** `getGroup(groupId)`. */
  function GetGroup(groupId: Option<string>): (r: Request)
    ensures r.httpMethod == GET && r.params.None?
    ensures CallOf(r) == Some(GetGroupCall(Some(JavaString(groupId))))
  {
    Request(UrlPath(GROUPS, Some(JavaString(groupId))), None, GET, Single(GroupModel))
  }

  /** `getGroupDetails(groupId)`. */
  function GetGroupDetails(groupId: Option<string>): (r: Request)
    ensures r.httpMethod == GET && r.params == Some([FULL_DETAILS_PARAM])
    ensures CallOf(r) == Some(GetGroupDetailsCall(Some(JavaString(groupId))))
  {
    Request(UrlPath(GROUPS, Some(JavaString(groupId))), Some([FULL_DETAILS_PARAM]), GET, Single(GroupExpandedModel))
  }

  /** `createClient(firstName, lastName)`: POST `CLIENTS/`. */
  function CreateClient(firstName: Option<string>, lastName: Option<string>): (r: Request)
    ensures r.httpMethod == POST && r.params.Some? && AllPut(r.params.value)
    ensures Keys(r.params.value) == [ApiData(FIRST_NAME), ApiData(LAST_NAME)] && Values(r.params.value) == [firstName, lastName]
    ensures CallOf(r) == Some(CreateClientCall(firstName, lastName))
  {
    Request(UrlPath(CLIENTS, Some("")), Some(PutAll([ApiData(FIRST_NAME), ApiData(LAST_NAME)], [firstName, lastName])),
            POST, Single(ClientModel))
  }

  /** `createClient(firstName, lastName, homephone, mobilephone, gender, birthdate, email, notes)`. */
  function CreateClientFull(firstName: Option<string>, lastName: Option<string>, homePhone: Option<string>,
                            mobilePhone: Option<string>, gender: Option<string>, birthDate: Option<string>,
                            email: Option<string>, notes: Option<string>): (r: Request)
    ensures r.httpMethod == POST && r.params.Some? && AllPut(r.params.value)
    ensures CallOf(r) == Some(CreateClientFullCall(firstName, lastName, homePhone, mobilePhone, gender, birthDate,
                                                   email, notes))
  {
    Request(UrlPath(CLIENTS, Some("")),
            Some(PutAll(CREATE_CLIENT_KEYS, [firstName, lastName, homePhone, mobilePhone, gender, birthDate, email, notes])),
            POST, Single(ClientModel))
  }

  /** `getClientsByBranchOfficerState(branchId, creditOfficerUserName, clientState)`: GET `CLIENTS/` with `addParam`. */
  function GetClientsByBranchOfficerState(branchId: Option<string>, creditOfficerUserName: Option<string>,
                                          clientState: Option<string>): (r: Request)
    ensures r.httpMethod == GET && r.params.Some? && AllAdd(r.params.value)
    ensures Keys(r.params.value) == [ApiData(BRANCH_ID), ApiData(CREDIT_OFFICER_USER_NAME), CLIENT_STATE]
    ensures Values(r.params.value) == [branchId, creditOfficerUserName, clientState]
    ensures CallOf(r) == Some(GetClientsByBranchOfficerStateCall(branchId, creditOfficerUserName, clientState))
  {
    Request(UrlPath(CLIENTS, Some("")),
            Some(AddAll([ApiData(BRANCH_ID), ApiData(CREDIT_OFFICER_USER_NAME), CLIENT_STATE],
                        [branchId, creditOfficerUserName, clientState])),
            GET, ListOf(ClientModel))
  }

  /** `getGroupsByBranchOfficer(branchId, creditOfficerUserName)`: GET `GROUPS/` with `addParam`. */
  function GetGroupsByBranchOfficer(branchId: Option<string>, creditOfficerUserName: Option<string>): (r: Request)
    ensures r.httpMethod == GET && r.params.Some? && AllAdd(r.params.value)
    ensures Keys(r.params.value) == [ApiData(BRANCH_ID), ApiData(CREDIT_OFFICER_USER_NAME)]
    ensures Values(r.params.value) == [branchId, creditOfficerUserName]
    ensures CallOf(r) == Some(GetGroupsByBranchOfficerCall(branchId, creditOfficerUserName))
  {
    Request(UrlPath(GROUPS, Some("")),
            Some(AddAll([ApiData(BRANCH_ID), ApiData(CREDIT_OFFICER_USER_NAME)], [branchId, creditOfficerUserName])),
            GET, ListOf(GroupModel))
  }

  // ----- The public methods as one operation type -----

  datatype ClientsCall =
    | GetClientCall(clientId: Option<string>)
    | GetClientByFullNameCall(lastName: Option<string>, firstName: Option<string>)
    | GetClientByLastNameBirthdayCall(lastName: Option<string>, birthDay: Option<string>)
    | GetClientByLastNameDocIdCall(lastName: Option<string>, documentId: Option<string>)
    | GetClientDetailsCall(clientId: Option<string>)
    | GetGroupCall(groupId: Option<string>)
    | GetGroupDetailsCall(groupId: Option<string>)
    | CreateClientCall(firstName: Option<string>, lastName: Option<string>)
    | CreateClientFullCall(firstName: Option<string>, lastName: Option<string>, homePhone: Option<string>,
                           mobilePhone: Option<string>, gender: Option<string>, birthDate: Option<string>,
                           email: Option<string>, notes: Option<string>)
    | GetClientsByBranchOfficerStateCall(branchId: Option<string>, creditOfficerUserName: Option<string>,
                                         clientState: Option<string>)
    | GetGroupsByBranchOfficerCall(branchId: Option<string>, creditOfficerUserName: Option<string>)
  {
    predicate IsCreate() {
      CreateClientCall? || CreateClientFullCall?
    }

    predicate IsSearch() {
      || GetClientByFullNameCall? || GetClientByLastNameBirthdayCall? || GetClientByLastNameDocIdCall?
      || GetClientsByBranchOfficerStateCall? || GetGroupsByBranchOfficerCall?
    }
  }

  /** The request a call makes. */
  function RequestFor(c: ClientsCall): Request {
    match c
    case GetClientCall(id) => GetClient(id)
    case GetClientByFullNameCall(l, f) => GetClientByFullName(l, f)
    case GetClientByLastNameBirthdayCall(l, b) => GetClientByLastNameBirthday(l, b)
    case GetClientByLastNameDocIdCall(l, d) => GetClientByLastNameDocId(l, d)
    case GetClientDetailsCall(id) => GetClientDetails(id)
    case GetGroupCall(id) => GetGroup(id)
    case GetGroupDetailsCall(id) => GetGroupDetails(id)
    case CreateClientCall(f, l) => CreateClient(f, l)
    case CreateClientFullCall(f, l, h, m, g, b, e, n) => CreateClientFull(f, l, h, m, g, b, e, n)
    case GetClientsByBranchOfficerStateCall(b, o, s) => GetClientsByBranchOfficerState(b, o, s)
    case GetGroupsByBranchOfficerCall(b, o) => GetGroupsByBranchOfficer(b, o)
  }

  /**
   * The call as far as its request shows it: an id only reaches the URL as
   * text, so a null id and the id "null" make the same request.
   */
  function Canonical(c: ClientsCall): ClientsCall {
    match c
    case GetClientCall(id) => GetClientCall(Some(JavaString(id)))
    case GetClientDetailsCall(id) => GetClientDetailsCall(Some(JavaString(id)))
    case GetGroupCall(id) => GetGroupCall(Some(JavaString(id)))
    case GetGroupDetailsCall(id) => GetGroupDetailsCall(Some(JavaString(id)))
    case _ => c
  }

  /** Reads a request back as the call that makes it, when some call does. */
  function CallOf(r: Request): Option<ClientsCall> {
    var path := r.path;
    if r.params.None? then
      if r.httpMethod == GET && path.tail.Some? && path.collection == CLIENTS && r.decode == Single(ClientModel)
      then Some(GetClientCall(path.tail))
      else if r.httpMethod == GET && path.tail.Some? && path.collection == GROUPS && r.decode == Single(GroupModel)
      then Some(GetGroupCall(path.tail))
      else None
    else
      var ps := r.params.value;
      var keys := Keys(ps);
      var values := Values(ps);
      if r.httpMethod == GET && path.tail.Some? && ps == [FULL_DETAILS_PARAM] then
        if path.collection == CLIENTS && r.decode == Single(ClientExpandedModel) then Some(GetClientDetailsCall(path.tail))
        else if path.collection == GROUPS && r.decode == Single(GroupExpandedModel) then Some(GetGroupDetailsCall(path.tail))
        else None
      else if r.httpMethod == GET && path == UrlPath(CLIENTS, None) && r.decode == ListOf(ClientModel) && AllPut(ps) then
        if keys == [ApiData(LAST_NAME), ApiData(FIRST_NAME)] then Some(GetClientByFullNameCall(values[0], values[1]))
        else if keys == [ApiData(LAST_NAME), ApiData(BIRTH_DATE)] then Some(GetClientByLastNameBirthdayCall(values[0], values[1]))
        else if keys == [ApiData(LAST_NAME), ApiData(ID_DOCUMENT)] then Some(GetClientByLastNameDocIdCall(values[0], values[1]))
        else None
      else if r.httpMethod == POST && path == UrlPath(CLIENTS, Some("")) && r.decode == Single(ClientModel) && AllPut(ps) then
        if keys == [ApiData(FIRST_NAME), ApiData(LAST_NAME)] then Some(CreateClientCall(values[0], values[1]))
        else if keys == CREATE_CLIENT_KEYS then
          Some(CreateClientFullCall(values[0], values[1], values[2], values[3], values[4], values[5], values[6], values[7]))
        else None
      else if r.httpMethod == GET && path == UrlPath(CLIENTS, Some("")) && r.decode == ListOf(ClientModel) && AllAdd(ps)
              && keys == [ApiData(BRANCH_ID), ApiData(CREDIT_OFFICER_USER_NAME), CLIENT_STATE]
      then Some(GetClientsByBranchOfficerStateCall(values[0], values[1], values[2]))
      else if r.httpMethod == GET && path == UrlPath(GROUPS, Some("")) && r.decode == ListOf(GroupModel) && AllAdd(ps)
              && keys == [ApiData(BRANCH_ID), ApiData(CREDIT_OFFICER_USER_NAME)]
      then Some(GetGroupsByBranchOfficerCall(values[0], values[1]))
      else None
  }

  // ----- Properties -----

  /** Every call's request reads back as that call, up to the text of a null id. */
  lemma {:induction false} RequestIdentifiesCall(c: ClientsCall)
    ensures CallOf(RequestFor(c)) == Some(Canonical(c))
  {
    var r := RequestFor(c);
    match c
    case GetClientByFullNameCall(l, f) =>
      PutAllInverse([ApiData(LAST_NAME), ApiData(FIRST_NAME)], [l, f], []);
    case GetClientByLastNameBirthdayCall(l, b) =>
      PutAllInverse([ApiData(LAST_NAME), ApiData(BIRTH_DATE)], [l, b], []);
    case GetClientByLastNameDocIdCall(l, d) =>
      PutAllInverse([ApiData(LAST_NAME), ApiData(ID_DOCUMENT)], [l, d], []);
    case CreateClientCall(f, l) =>
      PutAllInverse([ApiData(FIRST_NAME), ApiData(LAST_NAME)], [f, l], []);
    case CreateClientFullCall(f, l, h, m, g, b, e, n) =>
      PutAllInverse(CREATE_CLIENT_KEYS, [f, l, h, m, g, b, e, n], []);
      assert Keys(r.params.value) != [ApiData(FIRST_NAME), ApiData(LAST_NAME)];
    case GetClientsByBranchOfficerStateCall(b, o, s) =>
      AddAllInverse([ApiData(BRANCH_ID), ApiData(CREDIT_OFFICER_USER_NAME), CLIENT_STATE], [b, o, s], []);
    case GetGroupsByBranchOfficerCall(b, o) =>
      AddAllInverse([ApiData(BRANCH_ID), ApiData(CREDIT_OFFICER_USER_NAME)], [b, o], []);
    case _ =>
  }

  /** A request that reads back as a call is exactly the request that call makes. */
  lemma {:induction false} ReadBackRequestIsMade(r: Request, c: ClientsCall)
    requires CallOf(r) == Some(c)
    ensures RequestFor(c) == r
  {
    if r.params.Some? {
      var ps := r.params.value;
      var vs := Values(ps);
      match c
      case GetClientsByBranchOfficerStateCall(b, o, st) =>
        AddAllInverse(Keys(ps), vs, ps);
        assert vs == [b, o, st];
      case GetGroupsByBranchOfficerCall(b, o) =>
        AddAllInverse(Keys(ps), vs, ps);
        assert vs == [b, o];
      case GetClientDetailsCall(_) =>
      case GetGroupDetailsCall(_) =>
      case CreateClientFullCall(f, l, h, m, g, b, e, n) =>
        PutAllInverse(Keys(ps), vs, ps);
        assert vs == [f, l, h, m, g, b, e, n];
      case GetClientByFullNameCall(x, y) =>
        PutAllInverse(Keys(ps), vs, ps);
        assert vs == [x, y];
      case GetClientByLastNameBirthdayCall(x, y) =>
        PutAllInverse(Keys(ps), vs, ps);
        assert vs == [x, y];
      case GetClientByLastNameDocIdCall(x, y) =>
        PutAllInverse(Keys(ps), vs, ps);
        assert vs == [x, y];
      case CreateClientCall(x, y) =>
        PutAllInverse(Keys(ps), vs, ps);
        assert vs == [x, y];
      case GetClientCall(_) =>
        assert false;
      case GetGroupCall(_) =>
        assert false;
    }
  }

  /** Only the two create methods use POST. */
  lemma OnlyCreatesPost(c: ClientsCall)
    ensures RequestFor(c).httpMethod == POST <==> c.IsCreate()
  {
  }

  /** Exactly the searches decode a list; everything else decodes one object. */
  lemma SearchesDecodeLists(c: ClientsCall)
    ensures RequestFor(c).decode.ListOf? <==> c.IsSearch()
  {
  }

  /**
   * `getClient` and `getGroup` send no parameters at all; their detail
   * variants send exactly the full-details flag as the string "true", on the same path.
   */
  lemma DetailsAddOnlyTheFlag(id: Option<string>)
    ensures GetClient(id).params.None? && GetGroup(id).params.None?
    ensures GetClientDetails(id).params == Some([Put(ApiData(FULL_DETAILS), Some("true"))])
    ensures GetGroupDetails(id).params == Some([Put(ApiData(FULL_DETAILS), Some("true"))])
    ensures GetClientDetails(id).path == GetClient(id).path == UrlPath(CLIENTS, Some(JavaString(id)))
    ensures GetGroupDetails(id).path == GetGroup(id).path == UrlPath(GROUPS, Some(JavaString(id)))
  {
  }

  /**
   * The name and document searches use the collection path without a
   * trailing slash; the creates and the branch-officer searches use it with one.
   */
  lemma TrailingSlashes(c: ClientsCall)
    ensures RequestFor(c).path.tail.None? <==>
              c.GetClientByFullNameCall? || c.GetClientByLastNameBirthdayCall? || c.GetClientByLastNameDocIdCall?
    ensures !(c.GetClientCall? || c.GetClientDetailsCall? || c.GetGroupCall? || c.GetGroupDetailsCall?) ==>
              (RequestFor(c).path.tail == Some("") <==>
                 c.IsCreate() || c.GetClientsByBranchOfficerStateCall? || c.GetGroupsByBranchOfficerCall?)
  {
  }

  /** `addParam` is used exactly by the branch-officer searches, `put` by every other method with parameters. */
  lemma AddParamOnlyForBranchOfficer(c: ClientsCall)
    ensures RequestFor(c).params.Some? ==>
              (AllAdd(RequestFor(c).params.value) <==>
                 c.GetClientsByBranchOfficerStateCall? || c.GetGroupsByBranchOfficerCall?)
              && (AllPut(RequestFor(c).params.value) <==>
                 !(c.GetClientsByBranchOfficerStateCall? || c.GetGroupsByBranchOfficerCall?))
  {
    var ps := RequestFor(c).params;
    if ps.Some? {
      var first := ps.value[0];
    }
  }

  /** The full `createClient` puts exactly its eight arguments, in order, under the eight create keys. */
  lemma CreateClientFullParams(f: Option<string>, l: Option<string>, h: Option<string>, m: Option<string>,
                               g: Option<string>, b: Option<string>, e: Option<string>, n: Option<string>)
    ensures var ps := CreateClientFull(f, l, h, m, g, b, e, n).params.value;
            && |ps| == 8
            && Keys(ps) == CREATE_CLIENT_KEYS
            && Values(ps) == [f, l, h, m, g, b, e, n]
            && AllPut(ps)
  {
    PutAllInverse(CREATE_CLIENT_KEYS, [f, l, h, m, g, b, e, n], []);
  }
}
