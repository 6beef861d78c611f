/**
 * The data-shaping logic of the console's roles page: the three-way domain filter, slice paging
 * over the role list envelope, the export rows and the create-role payload.
 */
module Roles {
  import opened Wrappers
  import opened Text
  import opened Common
  import Seqs
  import Paging

  /** The `filterBy` value that lists every named role. */
  const ALL_FILTER := "all"
  const HTTP_OK := 200

  /** A role of the list; `displayName` may be missing. */
  datatype Role = Role(id: string, displayName: Option<string>)

  /** The role list envelope; `Resources` may be missing. */
  datatype RoleList = RoleList(resources: Option<seq<Role>>, totalResults: int, startIndex: int, itemsPerPage: int)

  /** The names of the application and internal role domains. */
  datatype Domains = Domains(application: string, internal: string)

  /** What the role list request came back with. */
  datatype RolesReply = Replied(status: int, data: RoleList) | Rejected

  /** The page state the handlers below write: the filtered list, the shown page and the offset. */
  datatype RolesState = RolesState(initial: Option<RoleList>, paginated: Option<RoleList>, listOffset: int)

  // ---------------------------------------------------------------------------------------------
  // The domain filter

  predicate HasName(r: Role)
  {
    Truthy(r.displayName)
  }

  predicate InDomain(r: Role, domain: string)
  {
    r.displayName.Some? && Contains(r.displayName.value, domain)
  }

  predicate OutOfDomain(r: Role, domain: string)
  {
    r.displayName.Some? && !Contains(r.displayName.value, domain)
  }

  predicate AllNamed(rs: seq<Role>)
  {
    forall k :: 0 <= k < |rs| ==> rs[k].displayName.Some?
  }

  /**
   * The `filter` of `getRoles`, its branches tried in order: "all" keeps the roles with a non-empty
   * name, the application domain keeps the names containing it, the internal domain keeps the names
   * NOT containing the application domain, any other value keeps nothing. None is the TypeError the
   * two domain branches throw on a role without a name.
   */
  function FilterRoles(rs: seq<Role>, filterBy: string, d: Domains): (r: Option<seq<Role>>)
    ensures r.None? <==> filterBy != ALL_FILTER && (filterBy == d.application || filterBy == d.internal) && !AllNamed(rs)
    ensures r.Some? ==> |r.value| <= |rs| && forall x :: x in r.value ==> x in rs
    ensures filterBy != ALL_FILTER && filterBy != d.application && filterBy != d.internal ==> r == Some([])
  {
    if filterBy == ALL_FILTER then Some(Seqs.Filter(rs, HasName))
    else if d.application == filterBy then
      if AllNamed(rs) then Some(Seqs.Filter(rs, (x: Role) => InDomain(x, d.application))) else None
    else if d.internal == filterBy then
      if AllNamed(rs) then Some(Seqs.Filter(rs, (x: Role) => OutOfDomain(x, d.application))) else None
    else Some([])
  }

  /** With "all", a role is listed exactly when its display name is present and non-empty. */
  lemma AllFilterKeepsNamed(rs: seq<Role>, d: Domains, x: Role)
    requires x in rs
    ensures x in FilterRoles(rs, ALL_FILTER, d).value <==> x.displayName.Some? && x.displayName.value != ""
  {
    if HasName(x) {
      Seqs.FilterKeeps(rs, HasName, x);
    }
  }

  /** With either domain, a role is listed exactly when its name does (application) or does not (internal) contain the application domain. */
  lemma DomainFilterMembership(rs: seq<Role>, d: Domains, x: Role)
    requires AllNamed(rs) && x in rs
    requires d.application != ALL_FILTER && d.internal != ALL_FILTER && d.application != d.internal
    ensures x in FilterRoles(rs, d.application, d).value <==> Contains(x.displayName.value, d.application)
    ensures x in FilterRoles(rs, d.internal, d).value <==> !Contains(x.displayName.value, d.application)
  {
    if InDomain(x, d.application) {
      Seqs.FilterKeeps(rs, (y: Role) => InDomain(y, d.application), x);
    } else {
      Seqs.FilterKeeps(rs, (y: Role) => OutOfDomain(y, d.application), x);
    }
  }

  /** The application and internal lists are disjoint, each keeps the list's order, and together they hold every role. */
  lemma DomainFiltersPartition(rs: seq<Role>, d: Domains)
    requires AllNamed(rs)
    requires d.application != ALL_FILTER && d.internal != ALL_FILTER && d.application != d.internal
    ensures var app := FilterRoles(rs, d.application, d).value;
            var internal := FilterRoles(rs, d.internal, d).value;
      && |app| + |internal| == |rs|
      && multiset(app) + multiset(internal) == multiset(rs)
      && (forall x :: x in app ==> x !in internal)
  {
    var p := (y: Role) => InDomain(y, d.application);
    var q := (y: Role) => OutOfDomain(y, d.application);
    assert forall y: Role :: y.displayName.Some? ==> q(y) == !p(y);
    Seqs.FilterPartition(rs, p, (y: Role) => !p(y));
    FilterAgrees(rs, q, (y: Role) => !p(y));
  }

  /** Two predicates that agree on every element give the same filter. */
  lemma {:induction false} FilterAgrees(rs: seq<Role>, p: Role -> bool, q: Role -> bool)
    requires forall k :: 0 <= k < |rs| ==> p(rs[k]) == q(rs[k])
    ensures Seqs.Filter(rs, p) == Seqs.Filter(rs, q)
  {
    if |rs| > 0 {
      FilterAgrees(rs[1..], p, q);
    }
  }

  /** Filtering keeps the order: the filter of a concatenation is the concatenation of the filters. */
  lemma FilterRolesInOrder(a: seq<Role>, b: seq<Role>, filterBy: string, d: Domains)
    requires FilterRoles(a, filterBy, d).Some? && FilterRoles(b, filterBy, d).Some?
    ensures FilterRoles(a + b, filterBy, d) == Some(FilterRoles(a, filterBy, d).value + FilterRoles(b, filterBy, d).value)
  {
    if filterBy == ALL_FILTER {
      Seqs.FilterAppend(a, b, HasName);
    } else if d.application == filterBy || d.internal == filterBy {
      assert AllNamed(a) && AllNamed(b);
      assert forall k :: 0 <= k < |a + b| ==> (a + b)[k] == if k < |a| then a[k] else b[k - |a|];
      assert AllNamed(a + b);
      var p := if d.application == filterBy then (x: Role) => InDomain(x, d.application)
               else (x: Role) => OutOfDomain(x, d.application);
      Seqs.FilterAppend(a, b, p);
    } else {
      assert FilterRoles(a, filterBy, d).value + FilterRoles(b, filterBy, d).value == [];
    }
  }

  // ---------------------------------------------------------------------------------------------
  // Listing and paging

  /** `setRolesPage`: the envelope with `Resources` cut down to the page; the other fields are kept. */
  function SetRolesPage(offset: int, limit: int, list: RoleList): (page: RoleList)
    ensures page.totalResults == list.totalResults && page.startIndex == list.startIndex
    ensures page.itemsPerPage == list.itemsPerPage
    ensures page.resources.Some? <==> list.resources.Some?
    ensures page.resources.Some? && 0 <= offset && 0 <= limit ==> |page.resources.value| <= limit
    ensures page.resources.Some? && 0 <= offset && 0 <= limit && offset < |list.resources.value| ==>
      page.resources.value == list.resources.value[offset..if offset + limit <= |list.resources.value| then offset + limit else |list.resources.value|]
    ensures page.resources.Some? && 0 <= offset && |list.resources.value| <= offset ==> page.resources.value == []
  {
    match list.resources
    case None => list
    case Some(rs) => list.(resources := Some(Paging.Page(rs, offset, limit)))
  }

  /**
   * `getRoles`: a 200 reply with a `Resources` array stores the filtered envelope and shows its first
   * page; every other outcome, including the filter's throw, leaves the state as it was.
   */
  function GetRoles(st: RolesState, reply: RolesReply, filterBy: string, d: Domains, limit: int): (r: RolesState)
    ensures r.listOffset == st.listOffset
    ensures r != st ==> reply.Replied? && reply.status == HTTP_OK && reply.data.resources.Some?
    ensures reply.Replied? && reply.status == HTTP_OK && reply.data.resources.Some? &&
            FilterRoles(reply.data.resources.value, filterBy, d).Some? ==>
      && r.initial == Some(reply.data.(resources := FilterRoles(reply.data.resources.value, filterBy, d)))
      && r.paginated == Some(SetRolesPage(0, limit, r.initial.value))
    ensures (reply.Replied? && reply.status == HTTP_OK && reply.data.resources.Some? &&
             FilterRoles(reply.data.resources.value, filterBy, d).None?) ==> r == st
  {
    if reply.Replied? && reply.status == HTTP_OK && reply.data.resources.Some? then
      match FilterRoles(reply.data.resources.value, filterBy, d)
      case None => st
      case Some(kept) =>
        var data := reply.data.(resources := Some(kept));
        st.(initial := Some(data), paginated := Some(SetRolesPage(0, limit, data)))
    else st
  }

  /** A fresh list shows its first `limit` filtered roles. */
  lemma GetRolesShowsFirstPage(st: RolesState, reply: RolesReply, filterBy: string, d: Domains, limit: nat)
    requires reply.Replied? && reply.status == HTTP_OK && reply.data.resources.Some?
    requires FilterRoles(reply.data.resources.value, filterBy, d).Some?
    ensures var r := GetRoles(st, reply, filterBy, d, limit);
            var kept := FilterRoles(reply.data.resources.value, filterBy, d).value;
      && r.initial.value.resources == Some(kept)
      && r.paginated.value.resources == Some(kept[..if limit <= |kept| then limit else |kept|])
  {
    var kept := FilterRoles(reply.data.resources.value, filterBy, d).value;
    if |kept| == 0 {
      assert kept[..0] == [];
    }
  }

  /**
   * `handlePaginationChange`: the offset is always stored; the page is replaced only when a list
   * has been loaded, since spreading `initialRolList.Resources` of an unloaded list throws.
   */
  function PaginationChange(st: RolesState, activePage: int, limit: int): (r: RolesState)
    ensures r.listOffset == Paging.PageOffset(activePage, limit) && r.initial == st.initial
    ensures st.initial.None? ==> r.paginated == st.paginated
    ensures st.initial.Some? ==> r.paginated == Some(SetRolesPage(r.listOffset, limit, st.initial.value))
  {
    var offsetValue := Paging.PageOffset(activePage, limit);
    match st.initial
    case None => st.(listOffset := offsetValue)
    case Some(list) => st.(listOffset := offsetValue, paginated := Some(SetRolesPage(offsetValue, limit, list)))
  }

  /** `handleItemsPerPageDropdownChange`: the current offset's page under the new page size. */
  function ItemsPerPageChange(st: RolesState, limit: int): (r: RolesState)
    ensures r.listOffset == st.listOffset && r.initial == st.initial
    ensures st.initial.None? ==> r.paginated == st.paginated
    ensures st.initial.Some? ==> r.paginated == Some(SetRolesPage(st.listOffset, limit, st.initial.value))
  {
    match st.initial
    case None => st
    case Some(list) => st.(paginated := Some(SetRolesPage(st.listOffset, limit, list)))
  }

  /** `Math.ceil(initialRolList.Resources.length / listItemLimit)`; None where the source computes NaN. */
  function RoleTotalPages(st: RolesState, limit: nat): (pages: Option<nat>)
    requires limit > 0
    ensures pages.Some? <==> st.initial.Some? && st.initial.value.resources.Some?
    ensures pages.Some? ==>
      var n := |st.initial.value.resources.value|;
      n <= pages.value * limit && (pages.value == 0 || (pages.value - 1) * limit < n)
  {
    if st.initial.Some? && st.initial.value.resources.Some? then
      Some(Paging.TotalPages(|st.initial.value.resources.value|, limit))
    else None
  }

  // ---------------------------------------------------------------------------------------------
  // Export rows

  /** The role as the by-id request returns it; any key may be missing. */
  datatype RoleDetails = RoleDetails(
    id: Option<string>,
    displayName: Option<string>,
    groups: Option<seq<string>>,
    users: Option<seq<string>>)

  /** One row of the exported roles sheet. */
  datatype RoleRow = RoleRow(number: nat, id: string, displayName: string, group: string, user: string)

  /**
   * `getRoleDTOById`: the row of a fetched role, "" for an absent id or name and the `display` values
   * joined by "," for groups and users; a failed fetch gives an undefined row.
   */
  function RoleRowOf(reply: Option<RoleDetails>, number: nat): (row: Option<RoleRow>)
    ensures row.None? <==> reply.None?
    ensures reply.Some? ==>
      var r := reply.value;
      && row.value.number == number
      && row.value.id == (if r.id.Some? then r.id.value else "")
      && row.value.displayName == (if r.displayName.Some? then r.displayName.value else "")
      && row.value.group == (if r.groups.Some? then Join(r.groups.value, ",") else "")
      && row.value.user == (if r.users.Some? then Join(r.users.value, ",") else "")
  {
    match reply
    case None => None
    case Some(r) => Some(RoleRow(number, r.id.GetOr(""), r.displayName.GetOr(""), DisplaysCell(r.groups), DisplaysCell(r.users)))
  }

  /**
   * The `num` counter and `tasks.push` of `exportListRole`: one by-id request per listed role, in
   * order, and `Promise.all` lines the k-th reply up with the k-th role. `replies[k]` is what the
   * request for `roles[k]` came back with (None: it failed).
   */
  method ExportRoleRows(roles: seq<Role>, replies: seq<Option<RoleDetails>>)
    returns (requests: seq<string>, rows: seq<Option<RoleRow>>)
    requires |replies| == |roles|
    ensures |requests| == |roles| && |rows| == |roles|
    ensures forall k :: 0 <= k < |roles| ==> requests[k] == roles[k].id
    ensures forall k :: 0 <= k < |roles| ==> rows[k] == RoleRowOf(replies[k], k + 1)
  {
    requests, rows := [], [];
    var num: nat := 0;
    for i := 0 to |roles|
      invariant num == i && |requests| == i && |rows| == i
      invariant forall k :: 0 <= k < i ==> requests[k] == roles[k].id
      invariant forall k :: 0 <= k < i ==> rows[k] == RoleRowOf(replies[k], k + 1)
    {
      num := num + 1;
      requests := requests + [roles[i].id];
      rows := rows + [RoleRowOf(replies[i], num)];
    }
  }

  /**
   * `exportListRole`: on a 200 reply with a `Resources` array, the by-id requests and the sheet; on any
   * other outcome no request and no sheet. The list is exported unfiltered.
   */
  method ExportRoles(reply: RolesReply, replies: seq<Option<RoleDetails>>)
    returns (requests: seq<string>, sheet: Option<seq<Option<RoleRow>>>)
    requires reply.Replied? && reply.status == HTTP_OK && reply.data.resources.Some? ==>
      |replies| == |reply.data.resources.value|
    ensures sheet.Some? <==> reply.Replied? && reply.status == HTTP_OK && reply.data.resources.Some?
    ensures sheet.None? ==> requests == []
    ensures sheet.Some? ==>
      var roles := reply.data.resources.value;
      && |requests| == |roles| && |sheet.value| == |roles|
      && (forall k :: 0 <= k < |roles| ==> requests[k] == roles[k].id)
      && (forall k :: 0 <= k < |roles| ==> sheet.value[k] == RoleRowOf(replies[k], k + 1))
  {
    requests, sheet := [], None;
    if reply.Replied? && reply.status == HTTP_OK && reply.data.resources.Some? {
      var rows;
      requests, rows := ExportRoleRows(reply.data.resources.value, replies);
      sheet := Some(rows);
    }
  }

  // ---------------------------------------------------------------------------------------------
  // The create-role payload

  datatype CreateRoleRequest = CreateRoleRequest(
    displayName: string,
    groups: seq<string>,
    permissions: seq<string>,
    schemas: seq<string>,
    users: seq<string>)

  /** `addRole`: the role is created under `roleName`, or "" when that is missing or empty, with no members or permissions. */
  function AddRolePayload(roleName: Option<string>): (req: CreateRoleRequest)
    ensures req.displayName == if roleName.Some? then roleName.value else ""
    ensures req.groups == [] && req.users == [] && req.permissions == []
    ensures req.schemas == [ROLE_SCHEMA]
  {
    CreateRoleRequest(if Truthy(roleName) then roleName.value else "", [], [], [ROLE_SCHEMA], [])
  }
}
