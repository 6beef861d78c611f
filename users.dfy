/**
 * The data-shaping logic of the console's users page: the over-fetch-by-one list request and
 * its moderation, the per-record normalisation, the export rows, the create payload of an
 * imported sheet row and the attribute list of the list request.
 */
module Users {
  import opened Wrappers
  import opened Text
  import opened Common
  import Seqs

  /** Extra records requested to learn whether a next page exists. */
  const LIMIT_OFFSET: nat := 1
  /** The userstore shown for a user name without a "/" prefix. */
  const PRIMARY_STORE_LABEL := "Primary"
  /** The export fetches up to this many users in one request. */
  const EXPORT_LIMIT: nat := 1000
  /** `itemsPerPage` of the empty list shown after a failed fetch. */
  const FALLBACK_ITEMS_PER_PAGE := 10
  /** The value of `passwordOption` that asks the user to set a password. */
  const ASK_PASSWORD_OPTION := "ask-password"

  /**
   * An element of a user's `emails` attribute: a bare string, a multi-valued attribute object
   * whose `value` may be undefined, or a null or undefined entry.
   */
  datatype Email = EmailText(text: string) | EmailRecord(value: Option<string>) | EmailNull | EmailUndefined

  /** The `emails` attribute: either not an array at all, or an array. */
  datatype Emails = NotAnArray | EmailList(items: seq<Email>)

  datatype Name = Name(givenName: Option<string>, familyName: Option<string>)

  /** A `roles` or `groups` attribute: absent, null, or the `display` values of its entries. */
  datatype Relations = Absent | NullRelations | Displays(displays: seq<string>)

  /** A user resource as the list endpoint returns it. */
  datatype User = User(
    id: Option<string>,
    userName: string,
    name: Option<Name>,
    emails: Emails,
    roles: Relations,
    groups: Relations,
    meta: Meta)

  /** The list envelope returned by the users endpoint; `Resources` may be missing. */
  datatype UserListResponse = UserListResponse(
    resources: Option<seq<User>>,
    itemsPerPage: int,
    totalResults: int,
    startIndex: int)

  /** What a list request came back with: a response, or a failure with or without an API description. */
  datatype UserListReply = Listed(response: UserListResponse) | FailedWithDescription | Failed

  /** The query of a user list request. */
  datatype UsersRequest = UsersRequest(
    count: int,
    offset: int,
    filter: Option<string>,
    attributes: Option<string>,
    domain: Option<string>)

  /** `getList` and `exportListUser` ask for one record more than they show. */
  function ListRequest(limit: int, offset: int, filter: Option<string>, attributes: Option<string>,
                       domain: Option<string>): (r: UsersRequest)
    ensures r.count == limit + 1
    ensures r.offset == offset && r.filter == filter && r.attributes == attributes && r.domain == domain
  {
    UsersRequest(limit + LIMIT_OFFSET, offset, filter, attributes, domain)
  }

  // ---------------------------------------------------------------------------------------------
  // Userstore of a user and normalisation of a fetched record

  /** `userName.split("/")[0]` when the name holds a "/", otherwise "Primary". */
  function UserStoreOf(userName: string): (store: string)
    ensures '/' !in userName ==> store == PRIMARY_STORE_LABEL
    ensures '/' in userName ==>
      && '/' !in store
      && |store| < |userName|
      && userName[..|store|] == store
      && userName[|store|] == '/'
  {
    SplitHead(userName, '/');
    var parts := Split(userName, '/');
    if |parts| > 1 then parts[0] else PRIMARY_STORE_LABEL
  }

  /** A name qualified with a "/"-free domain belongs to that domain's userstore. */
  lemma UserStoreOfQualified(domain: string, name: string)
    requires '/' !in domain
    ensures UserStoreOf(Qualify(domain, name)) == domain
  {
    QualifyThenSplit(domain, name);
  }

  /**
   * The single email kept by the normalisation: the first element taken as a string or as its
   * `.value`; null when `emails` is not an array; undefined when the array is empty or its
   * first element has no value.
   */
  function NormalisedEmail(emails: Emails): (e: Email)
    ensures e.EmailText? || e.EmailNull? || e.EmailUndefined?
    ensures e.EmailNull? <==> emails.NotAnArray?
    ensures e.EmailText? <==>
      emails.EmailList? && |emails.items| > 0 &&
      (emails.items[0].EmailText? || (emails.items[0].EmailRecord? && emails.items[0].value.Some?))
    ensures e.EmailText? ==>
      emails.items[0] == e || emails.items[0] == EmailRecord(Some(e.text))
  {
    match emails
    case NotAnArray => EmailNull
    case EmailList(items) =>
      if |items| == 0 then EmailUndefined
      else
        match items[0]
        case EmailText(t) => EmailText(t)
        case EmailRecord(v) => if v.Some? then EmailText(v.value) else EmailUndefined
        case EmailNull => EmailUndefined
        case EmailUndefined => EmailUndefined
  }

  /**
   * The `map` callback of the fetch: a record of the consumer userstore becomes undefined at its
   * position; any other record has its `emails` replaced by a one-element list.
   */
  function NormaliseUser(u: User, consumerStore: string): (r: Option<User>)
    ensures r.None? <==> UserStoreOf(u.userName) == consumerStore
    ensures r.Some? ==> r.value == u.(emails := EmailList([NormalisedEmail(u.emails)]))
  {
    if UserStoreOf(u.userName) != consumerStore then
      Some(u.(emails := EmailList([NormalisedEmail(u.emails)])))
    else
      None
  }

  /** `data?.Resources?.map(...)`: the normalisation of every fetched record, position by position. */
  function NormaliseAll(resources: Option<seq<User>>, consumerStore: string): (r: Option<seq<Option<User>>>)
    ensures r.None? <==> resources.None?
    ensures r.Some? ==> |r.value| == |resources.value|
    ensures r.Some? ==> forall k :: 0 <= k < |r.value| ==> r.value[k] == NormaliseUser(resources.value[k], consumerStore)
  {
    match resources
    case None => None
    case Some(rs) => Some(seq(|rs|, k requires 0 <= k < |rs| => NormaliseUser(rs[k], consumerStore)))
  }

  // ---------------------------------------------------------------------------------------------
  // Moderation: the over-fetched record is cut off when the page came back full

  /** The array left by `s.splice(-1, deleteCount)`. */
  function SpliceLast<T>(s: seq<T>, deleteCount: nat): (r: seq<T>)
    ensures deleteCount == 0 || |s| == 0 ==> r == s
    ensures deleteCount > 0 && |s| > 0 ==> r == s[..|s| - 1]
  {
    var start := if |s| > 0 then |s| - 1 else 0;
    var removed := if deleteCount < |s| - start then deleteCount else |s| - start;
    s[..start] + s[start + removed..]
  }

  /** The records left by `moderateUsersList`; the test is on `itemsPerPage`, not on the record count. */
  function ModeratedResources<T>(rs: seq<T>, itemsPerPage: int, requestedLimit: int, popCount: nat): seq<T>
  {
    if itemsPerPage == requestedLimit then SpliceLast(rs, popCount) else rs
  }

  /**
   * When the server reports as `itemsPerPage` the number of records it returned and returns at most
   * the requested `limit + 1`, the page shows at most `limit` records, a prefix of what came back, and a
   * record is held back (the next page button is enabled) exactly when `limit + 1` records came back.
   */
  lemma OverFetchShowsOnePage<T>(returned: seq<T>, limit: nat)
    requires |returned| <= ListRequest(limit, 0, None, None, None).count
    ensures var shown := ModeratedResources(returned, |returned|, limit + LIMIT_OFFSET, LIMIT_OFFSET);
      && |shown| <= limit
      && shown == returned[..|shown|]
      && (|shown| < |returned| <==> |returned| == limit + 1)
  {
  }

  /** The outcome of `moderateUsersList`: the next-page flag, or the TypeError of splicing missing `Resources`. */
  datatype Moderation = NextPage(available: bool) | MissingResources

  /** The list object a fetch hands to the page; `moderateUsersList` splices its records in place. */
  class UserList {
    var resources: Option<seq<Option<User>>>
    var itemsPerPage: int
    var totalResults: int
    var startIndex: int

    constructor (resources: Option<seq<Option<User>>>, itemsPerPage: int, totalResults: int, startIndex: int)
      ensures this.resources == resources && this.itemsPerPage == itemsPerPage
      ensures this.totalResults == totalResults && this.startIndex == startIndex
    {
      this.resources := resources;
      this.itemsPerPage := itemsPerPage;
      this.totalResults := totalResults;
      this.startIndex := startIndex;
    }

    /** `moderateUsersList(list, requestedLimit, popCount)`. */
    method Moderate(requestedLimit: int, popCount: nat) returns (m: Moderation)
      modifies this
      ensures itemsPerPage == old(itemsPerPage) && totalResults == old(totalResults)
      ensures startIndex == old(startIndex)
      ensures old(itemsPerPage) != requestedLimit ==> m == NextPage(false) && resources == old(resources)
      ensures old(itemsPerPage) == requestedLimit && old(resources).None? ==>
                m == MissingResources && resources == old(resources)
      ensures old(itemsPerPage) == requestedLimit && old(resources).Some? ==>
                m == NextPage(true) &&
                resources == Some(ModeratedResources(old(resources).value, itemsPerPage, requestedLimit, popCount))
    {
      if itemsPerPage == requestedLimit {
        if resources.None? {
          return MissingResources;
        }
        resources := Some(SpliceLast(resources.value, popCount));
        m := NextPage(true);
      } else {
        m := NextPage(false);
      }
    }
  }

  /** The empty list the page shows after a generic fetch failure. */
  method FallbackList() returns (list: UserList)
    ensures fresh(list)
    ensures list.resources == Some([]) && list.itemsPerPage == FALLBACK_ITEMS_PER_PAGE
    ensures list.totalResults == 0 && list.startIndex == 1
  {
    list := new UserList(Some([]), FALLBACK_ITEMS_PER_PAGE, 0, 1);
  }

  /** A list object holding exactly the empty fallback list. */
  predicate IsFallback(list: UserList)
    reads list
  {
    && list.resources == Some([]) && list.itemsPerPage == FALLBACK_ITEMS_PER_PAGE
    && list.totalResults == 0 && list.startIndex == 1
  }

  /**
   * The state a fetch of `limit` records leaves for the reply it got: the list handed to
   * `setUsersList` (None: it is not called), the next-page flag and the userstore-error flag
   * (None: not called).
   */
  predicate FetchedState(limit: int, reply: UserListReply, consumerStore: string,
                         list: Option<UserList>, nextPage: Option<bool>, storeError: Option<bool>)
    reads if list.Some? then {list.value} else {}
  {
    match reply
    case FailedWithDescription => list.None? && nextPage.None? && storeError.None?
    case Failed => list.Some? && IsFallback(list.value) && nextPage.None? && storeError == Some(true)
    case Listed(response) =>
      var normalised := NormaliseAll(response.resources, consumerStore);
      var requested := limit + LIMIT_OFFSET;
      && list.Some?
      && if response.itemsPerPage == requested && normalised.None? then
           IsFallback(list.value) && nextPage.None? && storeError == Some(true)
         else
           && list.value.itemsPerPage == response.itemsPerPage
           && list.value.totalResults == response.totalResults
           && list.value.startIndex == response.startIndex
           && list.value.resources ==
                (if normalised.None? then None
                 else Some(ModeratedResources(normalised.value, response.itemsPerPage, requested, LIMIT_OFFSET)))
           && nextPage == Some(response.itemsPerPage == requested)
           && storeError == Some(false)
  }

  /**
   * `getList`: a failure with a description changes nothing; any other failure, and the TypeError of
   * moderating a full page with no `Resources`, shows the fallback list; a response shows its
   * normalised, moderated records.
   */
  method GetList(limit: int, reply: UserListReply, consumerStore: string)
    returns (list: Option<UserList>, nextPage: Option<bool>, storeError: Option<bool>)
    ensures FetchedState(limit, reply, consumerStore, list, nextPage, storeError)
    ensures list.Some? ==> fresh(list.value)
  {
    list, nextPage, storeError := None, None, None;
    match reply {
      case FailedWithDescription =>
      case Failed =>
        var fallback := FallbackList();
        list, storeError := Some(fallback), Some(true);
      case Listed(response) =>
        var data := new UserList(NormaliseAll(response.resources, consumerStore), response.itemsPerPage,
                                 response.totalResults, response.startIndex);
        var m := data.Moderate(ListRequest(limit, 0, None, None, None).count, LIMIT_OFFSET);
        if m.NextPage? {
          list, nextPage, storeError := Some(data), Some(m.available), Some(false);
        } else {
          var fallback := FallbackList();
          list, storeError := Some(fallback), Some(true);
        }
    }
  }

  // ---------------------------------------------------------------------------------------------
  // Export rows

  /** One row of the exported users sheet. */
  datatype UserRow = UserRow(
    number: nat,
    id: Option<string>,
    userName: string,
    familyName: Option<string>,
    givenName: Option<string>,
    email: Email,
    roles: string,
    group: string,
    created: TimeCell,
    lastModified: TimeCell)

  /** The email cell: the raw first element of `emails` (null when not an array). */
  function ExportedEmail(emails: Emails): Email
  {
    match emails
    case NotAnArray => EmailNull
    case EmailList(items) => if |items| == 0 then EmailUndefined else items[0]
  }

  /** A relation cell: the `reduce`-then-`slice(0, -1)` of the displays, "" for an absent or null list. */
  function RelationsCell(r: Relations): (cell: string)
    ensures r.Displays? ==> cell == Join(r.displays, ",")
    ensures !r.Displays? ==> cell == ""
  {
    match r
    case Displays(ds) => JoinDisplaysIsJoin(ds); JoinDisplays(ds)
    case _ => ""
  }

  /**
   * The row built for the `number`-th fetched user: the roles and groups cells are the `display`
   * values joined by "," with no trailing comma, "" when absent or null; a missing `name` gives ""
   * name cells.
   */
  function UserRowOf(u: User, number: nat): (row: UserRow)
    ensures row.number == number && row.id == u.id && row.userName == u.userName
    ensures row.roles == (if u.roles.Displays? then Join(u.roles.displays, ",") else "")
    ensures row.group == (if u.groups.Displays? then Join(u.groups.displays, ",") else "")
    ensures u.name.None? ==> row.familyName == Some("") && row.givenName == Some("")
    ensures u.name.Some? ==> row.familyName == u.name.value.familyName && row.givenName == u.name.value.givenName
    ensures row.email == ExportedEmail(u.emails)
    ensures (row.created.Blank? <==> u.meta.created.None?) && (row.lastModified.Blank? <==> u.meta.lastModified.None?)
  {
    UserRow(
      number, u.id, u.userName,
      if u.name.Some? then u.name.value.familyName else Some(""),
      if u.name.Some? then u.name.value.givenName else Some(""),
      ExportedEmail(u.emails),
      RelationsCell(u.roles),
      RelationsCell(u.groups),
      StampCell(u.meta.created),
      StampCell(u.meta.lastModified))
  }

  /**
   * The `num` counter and `arrayUser.push` of `exportListUser`: one row per fetched user, consumer
   * userstore users included, numbered from 1 in fetch order.
   */
  method ExportUserRows(resources: seq<User>) returns (rows: seq<UserRow>)
    ensures |rows| == |resources|
    ensures forall k :: 0 <= k < |rows| ==> rows[k] == UserRowOf(resources[k], k + 1)
  {
    rows := [];
    var num: nat := 0;
    for i := 0 to |resources|
      invariant num == i && |rows| == i
      invariant forall k :: 0 <= k < i ==> rows[k] == UserRowOf(resources[k], k + 1)
    {
      num := num + 1;
      rows := rows + [UserRowOf(resources[i], num)];
    }
  }

  /**
   * `exportListUser`: the sheet rows (None: no file is written), and the same list state changes as
   * a fetch of `EXPORT_LIMIT` records.
   */
  method ExportListUser(reply: UserListReply, consumerStore: string)
    returns (sheet: Option<seq<UserRow>>, list: Option<UserList>, nextPage: Option<bool>, storeError: Option<bool>)
    ensures reply.Listed? && !(reply.response.itemsPerPage == EXPORT_LIMIT + LIMIT_OFFSET
                                && reply.response.resources.None?) ==>
      && sheet.Some?
      && var users := reply.response.resources.GetOr([]);
         |sheet.value| == |users| &&
         forall k :: 0 <= k < |users| ==> sheet.value[k] == UserRowOf(users[k], k + 1)
    ensures (!reply.Listed? ||
             (reply.response.itemsPerPage == EXPORT_LIMIT + LIMIT_OFFSET && reply.response.resources.None?))
            ==> sheet.None?
    ensures FetchedState(EXPORT_LIMIT, reply, consumerStore, list, nextPage, storeError)
    ensures list.Some? ==> fresh(list.value)
  {
    sheet := None;
    var rows: seq<UserRow> := [];
    if reply.Listed? && reply.response.resources.Some? {
      rows := ExportUserRows(reply.response.resources.value);
    }
    list, nextPage, storeError := GetList(EXPORT_LIMIT, reply, consumerStore);
    if reply.Listed? && nextPage.Some? {
      sheet := Some(rows);
    }
  }

  // ---------------------------------------------------------------------------------------------
  // Import: the create payload of one sheet row

  /** A row of an imported users sheet; a column missing from the sheet reads as undefined. */
  datatype ImportedUser = ImportedUser(
    domain: Option<string>,
    userName: Option<string>,
    email: Option<string>,
    firstName: Option<string>,
    lastName: Option<string>,
    newPassword: Option<string>,
    passwordOption: Option<string>,
    profileUrl: Option<string>)

  datatype EmailEntry = EmailEntry(primary: bool, value: Option<string>)

  /**
   * The body of the create-user request. `askPassword` stands for the enterprise-schema extension
   * `{ askPassword: "true" }`; false means the extension key is not in the body.
   */
  datatype UserDetails = UserDetails(
    emails: seq<EmailEntry>,
    familyName: Option<string>,
    givenName: Option<string>,
    password: Option<string>,
    profileUrl: Option<string>,
    userName: Option<string>,
    askPassword: bool)

  /** The `domain/userName` name an imported row is created under when its domain is not "primary". */
  function PrefixedUserName(row: ImportedUser): string
  {
    Qualify(JsText(row.domain), JsText(row.userName))
  }

  /** `addUserBasic`: the create-user payload of one imported row. */
  function AddUserPayload(row: ImportedUser): (d: UserDetails)
    ensures d.userName == Some(PrefixedUserName(row)) <==> row.domain != Some(PRIMARY_DOMAIN)
    ensures row.domain == Some(PRIMARY_DOMAIN) ==> d.userName == row.userName
    ensures d.askPassword <==>
      row.passwordOption.None? || row.passwordOption == Some("") || row.passwordOption == Some(ASK_PASSWORD_OPTION)
    ensures d.emails == [EmailEntry(true, row.email)] && d.password == row.newPassword
    ensures d.familyName == row.lastName && d.givenName == row.firstName && d.profileUrl == row.profileUrl
  {
    var userName := if row.domain != Some(PRIMARY_DOMAIN) then Some(PrefixedUserName(row)) else row.userName;
    assert row.domain == Some(PRIMARY_DOMAIN) && row.userName.Some? ==>
      |PrefixedUserName(row)| > |row.userName.value|;
    var customPassword := Truthy(row.passwordOption) && row.passwordOption != Some(ASK_PASSWORD_OPTION);
    UserDetails([EmailEntry(true, row.email)], row.lastName, row.firstName, row.newPassword,
                row.profileUrl, userName, !customPassword)
  }

  /** A user imported into a "/"-free, non-primary domain shows up under that userstore in the list. */
  lemma ImportedUserStore(row: ImportedUser)
    requires row.domain.Some? && row.domain != Some(PRIMARY_DOMAIN) && '/' !in row.domain.value
    ensures AddUserPayload(row).userName.Some?
    ensures UserStoreOf(AddUserPayload(row).userName.value) == row.domain.value
  {
    UserStoreOfQualified(row.domain.value, JsText(row.userName));
  }

  /** A primary-domain user whose name has no "/" is listed under the "Primary" label. */
  lemma PrimaryImportedUserStore(row: ImportedUser)
    requires row.domain == Some(PRIMARY_DOMAIN) && row.userName.Some? && '/' !in row.userName.value
    ensures AddUserPayload(row).userName == row.userName
    ensures UserStoreOf(row.userName.value) == PRIMARY_STORE_LABEL
  {
  }

  // ---------------------------------------------------------------------------------------------
  // The attribute list of a list request

  /** The attributes `generateAttributesString` joins: the non-empty column values, then the user name attribute if missing. */
  function AttributeList(columns: seq<string>, userNameAttribute: string): seq<string>
  {
    var kept := Seqs.Filter(columns, (a: string) => a != "");
    if userNameAttribute in kept then kept else kept + [userNameAttribute]
  }

  /**
   * The attribute list keeps the non-empty columns in order, drops every "", and holds the user name
   * attribute as often as the columns do, or once when they do not hold it.
   */
  lemma AttributeListContents(columns: seq<string>, userNameAttribute: string)
    requires userNameAttribute != ""
    ensures var list := AttributeList(columns, userNameAttribute);
      && "" !in list
      && list[..|Seqs.Filter(columns, (a: string) => a != "")|] == Seqs.Filter(columns, (a: string) => a != "")
      && (forall a :: a in columns && a != "" ==> a in list)
      && |list| == |Seqs.Filter(columns, (a: string) => a != "")| + (if userNameAttribute in columns then 0 else 1)
      && multiset(list)[userNameAttribute] ==
           if multiset(columns)[userNameAttribute] == 0 then 1 else multiset(columns)[userNameAttribute]
  {
    var p := (a: string) => a != "";
    var kept := Seqs.Filter(columns, p);
    Seqs.FilterCount(columns, p, userNameAttribute);
    forall a | a in columns && a != "" ensures a in kept {
      Seqs.FilterKeeps(columns, p, a);
    }
    if userNameAttribute !in kept {
      assert multiset(kept + [userNameAttribute]) == multiset(kept) + multiset{userNameAttribute};
    }
  }

  /** `generateAttributesString`: the loop over the column values, the append-if-missing step and `toString()`. */
  method GenerateAttributesString(columns: seq<string>, userNameAttribute: string) returns (s: string)
    ensures s == Join(AttributeList(columns, userNameAttribute), ",")
  {
    var attArray: seq<string> := [];
    for i := 0 to |columns|
      invariant attArray == Seqs.Filter(columns[..i], (a: string) => a != "")
    {
      Seqs.FilterAppend(columns[..i], [columns[i]], (a: string) => a != "");
      assert columns[..i + 1] == columns[..i] + [columns[i]];
      if columns[i] != "" {
        attArray := attArray + [columns[i]];
      }
    }
    assert columns[..|columns|] == columns;
    if userNameAttribute !in attArray {
      attArray := attArray + [userNameAttribute];
    }
    s := Join(attArray, ",");
  }
}
