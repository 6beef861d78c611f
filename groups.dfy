/**
 * The data-shaping logic of the console's groups page: hiding the reserved `Application/` and
 * `Internal/` groups, client-side paging, the export rows, and the create and role-assignment
 * requests of an imported sheet row.
 */
module Groups {
  import opened Wrappers
  import opened Text
  import opened Common
  import Seqs
  import Paging

  /** A group resource; `members` and `roles` hold the `display` values of their entries. */
  datatype Group = Group(
    id: string,
    displayName: Option<string>,
    members: Option<seq<string>>,
    roles: Option<seq<string>>,
    meta: Meta)

  /** What a list or search request came back with: an HTTP reply whose `Resources` may be missing, or a rejection. */
  datatype GroupsReply = Replied(status: int, resources: Option<seq<Group>>) | Rejected

  /** The state of the page the handlers below write through their setters. */
  datatype GroupsState = GroupsState(
    groupList: seq<Group>,
    paginated: seq<Group>,
    listOffset: int,
    error: bool,
    emptyResults: bool,
    searchQuery: string)

  const HTTP_OK := 200
  const HTTP_CREATED := 201

  // ---------------------------------------------------------------------------------------------
  // The namespace filter

  /** The group names of the application and internal role namespaces, which the page does not list. */
  predicate IsReserved(displayName: string)
  {
    Contains(displayName, "Application/") || Contains(displayName, "Internal/")
  }

  predicate IsVisible(g: Group)
  {
    g.displayName.Some? && !IsReserved(g.displayName.value)
  }

  /** The filter reads `displayName.includes`, so it throws on the first group without a name. */
  predicate AllNamed(gs: seq<Group>)
  {
    forall k :: 0 <= k < |gs| ==> gs[k].displayName.Some?
  }

  /** The namespace `filter` of `getGroups` and `searchRoleListHandler`; None is the TypeError it throws. */
  function VisibleGroups(gs: seq<Group>): (r: Option<seq<Group>>)
    ensures r.Some? <==> AllNamed(gs)
    ensures r.Some? ==> |r.value| <= |gs| && forall g :: g in r.value ==> g in gs && IsVisible(g)
  {
    if AllNamed(gs) then Some(Seqs.Filter(gs, IsVisible)) else None
  }

  /** A named group is kept exactly when its name contains neither reserved prefix. */
  lemma VisibleGroupsMembership(gs: seq<Group>, g: Group)
    requires AllNamed(gs) && g in gs
    ensures g in VisibleGroups(gs).value <==>
      !Contains(g.displayName.value, "Application/") && !Contains(g.displayName.value, "Internal/")
  {
    if IsVisible(g) {
      Seqs.FilterKeeps(gs, IsVisible, g);
    }
  }

  /** The filter keeps the order of the list: filtering two parts one after the other is filtering their concatenation. */
  lemma VisibleGroupsInOrder(a: seq<Group>, b: seq<Group>)
    requires AllNamed(a) && AllNamed(b)
    ensures AllNamed(a + b)
    ensures VisibleGroups(a + b).value == VisibleGroups(a).value + VisibleGroups(b).value
  {
    assert forall k :: 0 <= k < |a + b| ==> (a + b)[k] == if k < |a| then a[k] else b[k - |a|];
    Seqs.FilterAppend(a, b, IsVisible);
  }

  /** A list without reserved names comes through the filter unchanged. */
  lemma NoReservedKeepsAll(gs: seq<Group>)
    requires forall k :: 0 <= k < |gs| ==> IsVisible(gs[k])
    ensures VisibleGroups(gs) == Some(gs)
  {
    Seqs.FilterAllKept(gs, IsVisible);
  }

  /** The hidden and the shown groups together are the whole list. */
  lemma VisibleAndHiddenPartition(gs: seq<Group>)
    requires AllNamed(gs)
    ensures |VisibleGroups(gs).value| + |Seqs.Filter(gs, (g: Group) => !IsVisible(g))| == |gs|
    ensures multiset(VisibleGroups(gs).value) + multiset(Seqs.Filter(gs, (g: Group) => !IsVisible(g))) == multiset(gs)
  {
    Seqs.FilterPartition(gs, IsVisible, (g: Group) => !IsVisible(g));
  }

  // ---------------------------------------------------------------------------------------------
  // Listing, searching and paging

  /**
   * `getGroups`: a 200 reply with a non-empty list shows its visible groups from offset 0; a 200 reply
   * with no groups empties the page only; any other outcome, including a group without a name,
   * clears both lists and raises the error flag.
   */
  function GetGroups(st: GroupsState, reply: GroupsReply, limit: int): (r: GroupsState)
    ensures r.searchQuery == st.searchQuery && r.listOffset == st.listOffset
    ensures !r.error <==>
      reply.Replied? && reply.status == HTTP_OK &&
      (reply.resources.None? || |reply.resources.value| == 0 || AllNamed(reply.resources.value))
    ensures r.error ==> r.groupList == [] && r.paginated == [] && r.emptyResults == st.emptyResults
    ensures !r.error && reply.resources.Some? && |reply.resources.value| > 0 ==>
      && r.groupList == VisibleGroups(reply.resources.value).value
      && (0 <= limit ==> r.paginated == r.groupList[..if limit <= |r.groupList| then limit else |r.groupList|])
      && r.emptyResults == st.emptyResults
    ensures !r.error && (reply.resources.None? || |reply.resources.value| == 0) ==>
      r.groupList == st.groupList && r.paginated == [] && r.emptyResults
    ensures forall g :: g in r.paginated ==> IsVisible(g)
  {
    var failed := st.(error := true, groupList := [], paginated := []);
    if reply.Rejected? || reply.status != HTTP_OK then failed
    else if reply.resources.Some? && |reply.resources.value| != 0 then
      match VisibleGroups(reply.resources.value)
      case None => failed
      case Some(visible) => st.(groupList := visible, paginated := Paging.Page(visible, 0, limit), error := false)
    else
      st.(paginated := [], emptyResults := true, error := false)
  }

  /** The body of the search request. */
  datatype SearchRequest = SearchRequest(filter: string, schemas: seq<string>, startIndex: int, domain: Option<string>)

  /** The search names the userstore only when one is selected (a truthy `userStore`). */
  function SearchRequestOf(query: string, userStore: Option<string>): (req: SearchRequest)
    ensures req.filter == query && req.schemas == [SEARCH_REQUEST_SCHEMA] && req.startIndex == 1
    ensures req.domain.Some? <==> Truthy(userStore)
    ensures req.domain.Some? ==> req.domain == userStore
  {
    var searchData := SearchRequest(query, [SEARCH_REQUEST_SCHEMA], 1, None);
    if Truthy(userStore) then searchData.(domain := userStore) else searchData
  }

  /**
   * The state after `searchRoleListHandler`: the query is remembered; a 200 reply replaces both lists
   * by its visible results. Other replies, and a result without a name (the unhandled throw), change
   * nothing else.
   */
  function SearchGroups(st: GroupsState, query: string, reply: GroupsReply): (r: GroupsState)
    ensures r.searchQuery == query
    ensures r.error == st.error && r.emptyResults == st.emptyResults && r.listOffset == st.listOffset
    ensures (r.groupList, r.paginated) != (st.groupList, st.paginated) ==>
      reply.Replied? && reply.status == HTTP_OK
    ensures reply.Replied? && reply.status == HTTP_OK && reply.resources.None? ==>
      r.groupList == [] && r.paginated == []
    ensures reply.Replied? && reply.status == HTTP_OK && reply.resources.Some? && AllNamed(reply.resources.value) ==>
      r.groupList == r.paginated == VisibleGroups(reply.resources.value).value
    ensures reply.Replied? && reply.status == HTTP_OK && reply.resources.Some? && !AllNamed(reply.resources.value) ==>
      r.groupList == st.groupList && r.paginated == st.paginated
  {
    var asked := st.(searchQuery := query);
    if reply.Rejected? || reply.status != HTTP_OK then asked
    else if reply.resources.None? then asked.(groupList := [], paginated := [])
    else
      match VisibleGroups(reply.resources.value)
      case None => asked
      case Some(visible) => asked.(groupList := visible, paginated := visible)
  }

  /** `handleUserFilter`: a null or empty name query reloads the list, any other query searches. */
  function HandleFilter(st: GroupsState, query: Option<string>, limit: int, reply: GroupsReply): (r: GroupsState)
    ensures query.None? || query == Some(EMPTY_NAME_QUERY) ==> r == GetGroups(st, reply, limit)
    ensures query.Some? && query != Some(EMPTY_NAME_QUERY) ==> r == SearchGroups(st, query.value, reply)
  {
    match FilterActionOf(query)
    case Reload => GetGroups(st, reply, limit)
    case Search(q) => SearchGroups(st, q, reply)
  }

  /** `handlePaginationChange`: the offset of the chosen page and that page of the loaded list. */
  function PaginationChange(st: GroupsState, activePage: int, limit: int): (r: GroupsState)
    ensures r.listOffset == Paging.PageOffset(activePage, limit)
    ensures r == st.(listOffset := r.listOffset, paginated := r.paginated)
    ensures 0 <= limit && 1 <= activePage ==> |r.paginated| <= limit
    ensures 0 <= limit && 1 <= activePage && r.listOffset < |st.groupList| ==>
      r.paginated == st.groupList[r.listOffset..if r.listOffset + limit <= |st.groupList| then r.listOffset + limit else |st.groupList|]
    ensures 1 <= activePage && |st.groupList| <= r.listOffset ==> r.paginated == []
  {
    var offsetValue := Paging.PageOffset(activePage, limit);
    assert 0 <= limit && 1 <= activePage ==> 0 <= offsetValue by {
      if 0 <= limit && 1 <= activePage { assert (activePage - 1) * limit >= 0; }
    }
    st.(listOffset := offsetValue, paginated := Paging.Page(st.groupList, offsetValue, limit))
  }

  /** `handleItemsPerPageDropdownChange`: the current offset's page under the new page size. */
  function ItemsPerPageChange(st: GroupsState, limit: int): (r: GroupsState)
    ensures r == st.(paginated := r.paginated)
    ensures 0 <= limit && 0 <= st.listOffset ==> |r.paginated| <= limit
    ensures 0 <= limit && 0 <= st.listOffset < |st.groupList| ==>
      r.paginated == st.groupList[st.listOffset..if st.listOffset + limit <= |st.groupList| then st.listOffset + limit else |st.groupList|]
    ensures 0 <= st.listOffset && |st.groupList| <= st.listOffset ==> r.paginated == []
  {
    st.(paginated := Paging.Page(st.groupList, st.listOffset, limit))
  }

  /** `Math.ceil(groupList.length / listItemLimit)` for the pagination control. */
  function GroupTotalPages(st: GroupsState, limit: nat): (pages: nat)
    requires limit > 0
    ensures |st.groupList| <= pages * limit
    ensures pages == 0 || (pages - 1) * limit < |st.groupList|
  {
    Paging.TotalPages(|st.groupList|, limit)
  }

  /** Every loaded group lies on exactly one page: stepping through all pages shows the whole list, in order. */
  lemma PagesShowEveryGroup(st: GroupsState, limit: nat)
    requires limit > 0
    ensures Paging.PagesUpTo(st.groupList, limit, GroupTotalPages(st, limit)) == st.groupList
  {
    Paging.PagesCoverList(st.groupList, limit);
  }

  // ---------------------------------------------------------------------------------------------
  // Export rows

  /** One row of the exported groups sheet. */
  datatype GroupRow = GroupRow(
    number: nat,
    id: string,
    displayName: string,
    members: string,
    roles: string,
    created: TimeCell,
    lastModified: TimeCell)

  /**
   * `getGroup2`'s row of the `number`-th group: "" for an absent name, the members and roles cells the
   * `display` values joined by "," without a trailing comma ("" for an absent key), blank timestamp
   * cells for undefined timestamps.
   */
  function GroupRowOf(g: Group, number: nat): (row: GroupRow)
    ensures row.number == number && row.id == g.id
    ensures row.displayName == (if g.displayName.Some? then g.displayName.value else "")
    ensures row.members == (if g.members.Some? then Join(g.members.value, ",") else "")
    ensures row.roles == (if g.roles.Some? then Join(g.roles.value, ",") else "")
    ensures (row.created.Blank? <==> g.meta.created.None?) && (row.lastModified.Blank? <==> g.meta.lastModified.None?)
  {
    GroupRow(number, g.id, g.displayName.GetOr(""), DisplaysCell(g.members), DisplaysCell(g.roles),
             StampCell(g.meta.created), StampCell(g.meta.lastModified))
  }

  /** The `num` counter and `arrayGroup.push` of `getGroup2`: one row per group, numbered from 1 in order. */
  method ExportGroupRows(gs: seq<Group>) returns (rows: seq<GroupRow>)
    ensures |rows| == |gs|
    ensures forall k :: 0 <= k < |rows| ==> rows[k] == GroupRowOf(gs[k], k + 1)
  {
    rows := [];
    var num: nat := 0;
    for i := 0 to |gs|
      invariant num == i && |rows| == i
      invariant forall k :: 0 <= k < i ==> rows[k] == GroupRowOf(gs[k], k + 1)
    {
      num := num + 1;
      rows := rows + [GroupRowOf(gs[i], num)];
    }
  }

  /**
   * `getGroup2`: the sheet of every returned group, reserved ones included (no namespace filter),
   * written only for a 200 reply with a non-empty list; `emptyResults` tells whether the empty-results
   * flag is raised instead.
   */
  method ExportGroups(reply: GroupsReply) returns (sheet: Option<seq<GroupRow>>, emptyResults: bool)
    ensures sheet.Some? <==> reply.Replied? && reply.status == HTTP_OK && reply.resources.Some? && |reply.resources.value| > 0
    ensures emptyResults <==> reply.Replied? && reply.status == HTTP_OK && (reply.resources.None? || |reply.resources.value| == 0)
    ensures sheet.Some? ==>
      |sheet.value| == |reply.resources.value| &&
      forall k :: 0 <= k < |sheet.value| ==> sheet.value[k] == GroupRowOf(reply.resources.value[k], k + 1)
  {
    sheet, emptyResults := None, false;
    if reply.Replied? && reply.status == HTTP_OK {
      if reply.resources.Some? && |reply.resources.value| != 0 {
        var rows := ExportGroupRows(reply.resources.value);
        sheet := Some(rows);
      } else {
        emptyResults := true;
      }
    }
  }

  // ---------------------------------------------------------------------------------------------
  // Import: create a group per sheet row and assign it its roles

  datatype BasicDetails = BasicDetails(domain: Option<string>, groupName: Option<string>)

  /** An entry of the `RoleList.roles` of an imported row. */
  datatype RoleReference = RoleReference(id: string)

  /** A row of an imported groups sheet. */
  datatype GroupImport = GroupImport(
    domain: Option<string>,
    groupName: Option<string>,
    basicDetails: Option<BasicDetails>,
    roleList: Option<seq<RoleReference>>)

  /**
   * The name `addGroup` creates: the top-level `domain` decides whether it is qualified, the
   * `BasicDetails` fields (when present) supply the parts.
   */
  function ImportedGroupName(row: GroupImport): (name: Option<string>)
    ensures row.domain != Some(PRIMARY_DOMAIN) && row.basicDetails.Some? ==>
      name == Some(Qualify(JsText(row.basicDetails.value.domain), JsText(row.basicDetails.value.groupName)))
    ensures row.domain != Some(PRIMARY_DOMAIN) && row.basicDetails.None? ==>
      name == Some(Qualify(JsText(row.domain), JsText(row.groupName)))
    ensures row.domain == Some(PRIMARY_DOMAIN) ==>
      name == if row.basicDetails.Some? then row.basicDetails.value.groupName else row.groupName
  {
    if row.domain != Some(PRIMARY_DOMAIN) then
      if row.basicDetails.Some? then
        Some(Qualify(JsText(row.basicDetails.value.domain), JsText(row.basicDetails.value.groupName)))
      else
        Some(Qualify(JsText(row.domain), JsText(row.groupName)))
    else
      if row.basicDetails.Some? then row.basicDetails.value.groupName else row.groupName
  }

  /** A group imported into a "/"-free, non-primary domain is named under that domain. */
  lemma ImportedGroupDomain(row: GroupImport)
    requires row.domain.Some? && row.domain != Some(PRIMARY_DOMAIN) && row.basicDetails.None?
    requires '/' !in row.domain.value
    ensures ImportedGroupName(row).Some?
    ensures Split(ImportedGroupName(row).value, '/')[0] == row.domain.value
  {
    QualifyThenSplit(row.domain.value, JsText(row.groupName));
  }

  /** A group imported into the `Application` or `Internal` domain is then hidden by the list's namespace filter. */
  lemma ImportedReservedGroupHidden(row: GroupImport, id: string, meta: Meta)
    requires row.basicDetails.None? && (row.domain == Some("Application") || row.domain == Some("Internal"))
    ensures var g := Group(id, ImportedGroupName(row), None, None, meta);
      g.displayName.Some? && g !in VisibleGroups([g]).value
  {
    var name := ImportedGroupName(row).value;
    if row.domain == Some("Application") {
      assert name[..|"Application/"|] == "Application/";
    } else {
      assert name[..|"Internal/"|] == "Internal/";
      assert Contains(name, "Internal/");
    }
  }

  /** The body of the create-group request. */
  datatype CreateGroupRequest = CreateGroupRequest(displayName: Option<string>, members: seq<string>, schemas: seq<string>)

  function CreateGroupPayload(row: GroupImport): (req: CreateGroupRequest)
    ensures req.displayName == ImportedGroupName(row)
    ensures req.members == [] && req.schemas == [GROUP_SCHEMA]
  {
    CreateGroupRequest(ImportedGroupName(row), [], [GROUP_SCHEMA])
  }

  /** The group the create call returns. */
  datatype CreatedGroup = CreatedGroup(id: string, displayName: string)

  datatype GroupReference = GroupReference(display: string, value: string)
  datatype PatchOperation = PatchOperation(op: string, groups: seq<GroupReference>)
  datatype PatchRequest = PatchRequest(operations: seq<PatchOperation>, schemas: seq<string>)

  /** The role update that adds the created group to a role. */
  function RoleData(created: CreatedGroup): PatchRequest
  {
    PatchRequest([PatchOperation("add", [GroupReference(created.displayName, created.id)])], [PATCH_OP_SCHEMA])
  }

  /** One `updateRole(roleId, roleData)` call. */
  datatype RoleUpdate = RoleUpdate(roleId: string, data: PatchRequest)

  /**
   * The role updates `addGroup` issues after the create call: on a 201, the role ids are collected
   * from `RoleList.roles` and every one of them gets the same patch; any other status issues none.
   */
  method RoleAssignments(row: GroupImport, createStatus: int, created: CreatedGroup) returns (updates: seq<RoleUpdate>)
    ensures createStatus != HTTP_CREATED ==> updates == []
    ensures createStatus == HTTP_CREATED ==>
      && |updates| == |row.roleList.GetOr([])|
      && forall k :: 0 <= k < |updates| ==> updates[k] == RoleUpdate(row.roleList.value[k].id, RoleData(created))
  {
    updates := [];
    if createStatus == HTTP_CREATED {
      var rolesList: seq<string> := [];
      if row.roleList.Some? {
        var roles := row.roleList.value;
        for i := 0 to |roles|
          invariant |rolesList| == i
          invariant forall k :: 0 <= k < i ==> rolesList[k] == roles[k].id
        {
          rolesList := rolesList + [roles[i].id];
        }
      }
      var roleData := RoleData(created);
      for i := 0 to |rolesList|
        invariant |updates| == i
        invariant forall k :: 0 <= k < i ==> updates[k] == RoleUpdate(rolesList[k], roleData)
      {
        updates := updates + [RoleUpdate(rolesList[i], roleData)];
      }
    }
  }
}
