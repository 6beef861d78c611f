# Console list, export and import shaping, and the identity-provider request builder

This project models the data-shaping code of an identity-management web console. Three pages and one API client are covered. The rest of those files is React, HTTP and spreadsheet plumbing, and is not modelled.

- **Users page** (`Users`):
  - The list request asks for one record more than a page holds.
  - `moderateUsersList` cuts that record off again when the page came back full. `UserList` is the list object it splices in place.
  - Each fetched record is normalised: its userstore is read from the `userName` prefix, consumer-store records become undefined entries, and every other record keeps a single email.
  - The export turns each user into a numbered sheet row.
  - `addUserBasic` builds the create-user payload of an imported row.
  - `generateAttributesString` builds the attribute list of the request.
- **Groups page** (`Groups`):
  - The list and search results hide every group whose name contains `Application/` or `Internal/`.
  - The loaded list is paged on the client by `slice`.
  - The export rows apply no namespace filter.
  - `addGroup` composes the group name, builds the create payload and issues the role patches that follow a 201.
- **Roles page** (`Roles`):
  - `getRoles` filters the list three ways by `filterBy`.
  - `setRolesPage` pages the role envelope.
  - The export builds one row per role from the by-id replies.
  - `addRole` builds the create-role payload.
- **Identity-provider client** (`IdentityProvider`):
  - `updateIdentityProviderDetails` turns an identity provider into one `REPLACE` operation per field other than `id`.
  - The authenticator and connector updates move the id from the body into the URL.
  - Each call accepts exactly one HTTP status.

The model only calculates. Each React setter call becomes part of a returned value or of a new page-state record. An HTTP response becomes an input. An exception becomes an outcome of the model:
- The group filter's TypeError on a group with no name is caught, and the error state is shown.
- The role filter's TypeError is not handled, so the state stays as it was.
- In `moderateUsersList`, splicing a missing `Resources` throws a TypeError. The generic catch handles it and shows the empty fallback list.

Shared pieces:
- `Seqs`: JavaScript `filter` and `slice`.
- `Text`: `includes`, `join`, the `reduce`-then-`slice(0,-1)` join, `split`, and string concatenation of `undefined`.
- `Paging`: page offsets, slices and page counts.
- `Common`: the SCIM schema URNs, the timestamp cell, `domain/name` qualification and the filter-query rule.

The URNs are the Group core schema (section 4.2 of RFC 7643), the PatchOp message (section 3.5.2 of RFC 7644), the SearchRequest message (section 3.4.3 of RFC 7644) and the server's Role extension schema.

Some constants are defined in files that are not part of this model, so they are parameters:
- `CONSUMER_USERSTORE` is `consumerStore`.
- `APPLICATION_DOMAIN` and `INTERNAL_DOMAIN` are `Roles.Domains`.
- The `USERNAME` entry of `SCIM2_SCHEMA_DICTIONARY` is `userNameAttribute`.
- The enterprise-schema key of `askPassword` is the boolean `UserDetails.askPassword`.
- The identity-providers endpoint is `endpoint`.

## Behaviour as coded

In these places the code does something other than its own comments or names suggest. The model follows the code.

- The comment on `moderateUsersList` (users.tsx:537-538) says one extra entry is requested to find out whether there is a next page. The test then compares `itemsPerPage` with the over-fetched limit, not the number of returned records. `Users.OverFetchShowsOnePage` gives the "at most N shown, next page iff N+1 returned" reading only when the server reports `itemsPerPage` as the number of records it returned.
- Consumer-store users are not removed from the list. The splice on a copy is overwritten by the result of `map`, which leaves `undefined` at their positions (`Users.NormaliseAll`). The export still writes a row for them.
- A user-list failure that carries an API description only raises an alert; the list stays. The roles page handles no failure at all; its state stays.
- The roles page does not hide `Internal/` roles. With the internal domain selected, it keeps the roles whose name does *not* contain the application domain. The roles and groups exports include reserved names.
- A user export that fails without an API description replaces the list with the empty fallback list; it does not restore the previous list. A failure with a description leaves the list as it was (users.tsx:335-341).

## Model

| member | source | states |
|---|---|---|
| Users.ListRequest | apps/console/src/features/users/pages/users.tsx:148-153 | the list request asks for `limit + 1` records; offset, filter, attributes and domain pass through |
| Users.UserStoreOf | apps/console/src/features/users/pages/users.tsx:158-160 | "Primary" for a name without "/"; otherwise the "/"-free text before the first "/" of the name |
| Users.UserStoreOfQualified | apps/console/src/features/users/pages/users.tsx:158-160 | the userstore of `domain + "/" + name` is `domain` for a "/"-free domain (round trip with qualification) |
| Users.NormalisedEmail | apps/console/src/features/users/pages/users.tsx:163-175 | null exactly when `emails` is not an array; a string exactly when the first element is a string or has a `value`, and then it is that string; undefined otherwise |
| Users.NormaliseUser | apps/console/src/features/users/pages/users.tsx:157-184 | a consumer-store record becomes undefined exactly when its userstore is the consumer store; any other record is unchanged except `emails`, which becomes the one normalised email |
| Users.NormaliseAll | apps/console/src/features/users/pages/users.tsx:157-184 | same length and same positions as the fetched records, each position normalised; missing `Resources` stays missing |
| Users.SpliceLast | apps/console/src/features/users/pages/users.tsx:553 | `splice(-1, n)` with n > 0 drops exactly the last element; with n = 0 or an empty array nothing changes |
| Users.OverFetchShowsOnePage | apps/console/src/features/users/pages/users.tsx:547-560 | under the server's itemsPerPage-equals-returned-count reply, at most `limit` records are shown, as a prefix of what came back, and one is held back iff `limit + 1` came back |
| Users.UserList.Moderate | apps/console/src/features/users/pages/users.tsx:547-560 | when `itemsPerPage` equals the requested limit, the last record is spliced off in place and next-page is true (TypeError outcome when `Resources` is missing); otherwise nothing changes and next-page is false; the other fields are kept |
| Users.FallbackList | apps/console/src/features/users/pages/users.tsx:208-215 | the list shown after a generic failure: no records, 10 items per page, start index 1, total 0 |
| Users.GetList | apps/console/src/features/users/pages/users.tsx:148-220 | a failure with a description changes nothing; any other failure, and the splice TypeError of a full page without `Resources`, shows the fallback list (no records, 10 per page, total 0, start 1) and sets the userstore error; a response sets the moderated normalised records with its own itemsPerPage, totalResults and startIndex, the itemsPerPage-based next-page flag, and clears the error |
| Users.UserRowOf | apps/console/src/features/users/pages/users.tsx:238-260 | the row number is the counter; id and userName are copied; the roles and groups cells are the `display` values joined by "," without a trailing comma, "" when absent or null; a missing name gives "" name cells; a timestamp cell is blank iff undefined |
| Users.RelationsCell | apps/console/src/features/users/pages/users.tsx:241-248 | the `reduce`-then-`slice(0,-1)` cell is the ","-join of the displays, and "" for an absent or null list |
| Users.ExportUserRows | apps/console/src/features/users/pages/users.tsx:236-275 | one row per fetched user, consumer-store users included, row k numbered k + 1 in fetch order |
| Users.ExportListUser | apps/console/src/features/users/pages/users.tsx:222-347 | the sheet is written exactly when a response arrived and moderation did not throw, and its rows are those of every fetched user; the list, next-page and userstore-error outcomes are those of a fetch of 1000, failures included (fallback list, or nothing for a failure with a description) |
| Users.AddUserPayload | apps/console/src/features/users/pages/users.tsx:378-425 | the name is `domain + "/" + userName` iff `domain !== "primary"`; the askPassword extension is present iff `passwordOption` is missing, "" or "ask-password"; email, names, password and profile URL are copied |
| Users.ImportedUserStore | apps/console/src/features/users/pages/users.tsx:381-383 | a user imported into a "/"-free, non-primary domain lists under that userstore |
| Users.PrimaryImportedUserStore | apps/console/src/features/users/pages/users.tsx:381-383 | a primary-domain user keeps its name and lists under "Primary" when the name has no "/" |
| Users.AttributeListContents | apps/console/src/features/users/pages/users.tsx:620-634 | no "" entry; the non-empty columns come first in input order; every non-empty column is kept; the list is one longer than the non-empty columns exactly when the user name attribute is not among them; that attribute occurs as often as in the columns, or once when absent |
| Users.GenerateAttributesString | apps/console/src/features/users/pages/users.tsx:620-634 | the loop's result is the attribute list joined by "," |
| Groups.VisibleGroups | apps/console/src/features/groups/pages/groups.tsx:148-151 | the filter throws iff some group has no name; otherwise every kept group is from the list and has no reserved name |
| Groups.VisibleGroupsMembership | apps/console/src/features/groups/pages/groups.tsx:148-151 | a named group is kept iff its name contains neither "Application/" nor "Internal/" anywhere |
| Groups.VisibleGroupsInOrder | apps/console/src/features/groups/pages/groups.tsx:524-526 | the filter keeps the list order: filtering a concatenation is the concatenation of the filtered parts |
| Groups.NoReservedKeepsAll | apps/console/src/features/groups/pages/groups.tsx:148-151 | a list without reserved names comes through unchanged |
| Groups.VisibleAndHiddenPartition | apps/console/src/features/groups/pages/groups.tsx:148-151 | shown and hidden groups together are the whole list (sizes and multisets) |
| Groups.GetGroups | apps/console/src/features/groups/pages/groups.tsx:139-187 | the error flag is clear iff the reply is a 200 whose groups are absent, empty or all named; errors clear both lists; a non-empty 200 stores the visible groups and shows their first `limit`; an empty 200 only empties the page and sets empty-results; the page never shows a reserved group |
| Groups.SearchRequestOf | apps/console/src/features/groups/pages/groups.tsx:503-514 | the search carries the query, the SearchRequest schema and start index 1, and names the userstore iff one is selected (truthy) |
| Groups.SearchGroups | apps/console/src/features/groups/pages/groups.tsx:503-532 | the query is remembered; only a 200 changes the lists: missing results empty both, named results set both to the visible ones, and an unnamed result (unhandled throw) leaves them |
| Common.FilterActionOf | apps/console/src/features/groups/pages/groups.tsx:606-614 | a null or "displayName sw " query reloads; any other query searches with that query (same rule at role.tsx:450-453) |
| Groups.HandleFilter | apps/console/src/features/groups/pages/groups.tsx:606-614 | reload queries give the state of `getGroups`, other queries that of the search |
| Paging.Page | apps/console/src/features/groups/pages/groups.tsx:541-543 | `setGroupsPage`'s `slice(offset, offset + limit)` holds at most `limit` items, is the contiguous run from `offset` in list order, and is empty when `offset >= length` |
| Paging.PageOffset | apps/console/src/features/groups/pages/groups.tsx:549-554 | offset 0 for page 1; for a positive limit the offset is a multiple of the limit whose quotient is the page number minus one |
| Groups.PaginationChange | apps/console/src/features/groups/pages/groups.tsx:549-554 | stores `(activePage - 1) * limit` and shows that page of the loaded list (at most `limit` groups, the contiguous run, empty past the end); nothing else changes |
| Groups.ItemsPerPageChange | apps/console/src/features/groups/pages/groups.tsx:556-559 | shows the loaded list's contiguous run of at most the new size from the current offset, empty past the end; nothing else changes |
| Paging.TotalPages | apps/console/src/features/groups/pages/groups.tsx:708 | `ceil(length / limit)`: the fewest pages of `limit` items that hold `length` items |
| Groups.GroupTotalPages | apps/console/src/features/groups/pages/groups.tsx:708 | the page count of the loaded group list: its pages of `limit` hold every group, and one page fewer would not |
| Paging.PagesCoverList | apps/console/src/features/groups/pages/groups.tsx:708 | pages 1 to the page count, one after the other, are exactly the list |
| Groups.PagesShowEveryGroup | apps/console/src/features/groups/pages/groups.tsx:549-554 | stepping through every page of the loaded group list shows the whole list in order |
| Groups.GroupRowOf | apps/console/src/features/groups/pages/groups.tsx:206-222 | `displayName` is "" when absent; the members and roles cells are the `display` values joined by "," without a trailing comma, "" when absent; a timestamp cell is blank iff undefined |
| Common.DisplaysCell | apps/console/src/features/groups/pages/groups.tsx:209-211 | the `reduce`-then-`slice(0,-1)` cell is the ","-join of the displays, and "" for an absent key (same cells at role.tsx:183-184) |
| Common.StampCell | apps/console/src/features/groups/pages/groups.tsx:212-213 | a timestamp cell is blank iff the timestamp is undefined, otherwise it renders that timestamp |
| Groups.ExportGroupRows | apps/console/src/features/groups/pages/groups.tsx:204-225 | one row per returned group, reserved ones included, row k numbered k + 1 |
| Groups.ExportGroups | apps/console/src/features/groups/pages/groups.tsx:189-245 | a sheet exactly for a 200 with a non-empty list, with one row per group in order; the empty-results flag exactly for a 200 with no groups |
| Groups.ImportedGroupName | apps/console/src/features/groups/pages/groups.tsx:291-298 | the top-level `domain` decides qualification; when qualified, `BasicDetails.domain + "/" + BasicDetails.groupName` if present, else the top-level parts; when primary, the bare group name from `BasicDetails` if present |
| Groups.ImportedGroupDomain | apps/console/src/features/groups/pages/groups.tsx:294-298 | a group imported into a "/"-free non-primary domain is named under that domain |
| Groups.ImportedReservedGroupHidden | apps/console/src/features/groups/pages/groups.tsx:294-298 | a group imported into the `Application` or `Internal` domain is hidden by the list filter |
| Groups.CreateGroupPayload | apps/console/src/features/groups/pages/groups.tsx:312-319 | the create body has the composed name, no members and the single Group schema URN |
| Groups.RoleAssignments | apps/console/src/features/groups/pages/groups.tsx:327-353 | after a 201, one update per entry of `RoleList.roles`, in order, for that entry's `id`, each adding the created group's displayName and id under the PatchOp schema; no update after any other status |
| Roles.FilterRoles | apps/console/src/features/roles/pages/role.tsx:131-139 | throws iff a domain branch is taken and some role has no name; keeps only listed roles; any `filterBy` other than "all" and the two domains keeps nothing |
| Roles.AllFilterKeepsNamed | apps/console/src/features/roles/pages/role.tsx:132-133 | with "all", a role is kept iff its displayName is present and non-empty |
| Roles.DomainFilterMembership | apps/console/src/features/roles/pages/role.tsx:134-137 | with the application domain a role is kept iff its name contains it; with the internal domain iff its name does not contain the application domain |
| Roles.DomainFiltersPartition | apps/console/src/features/roles/pages/role.tsx:134-137 | the application and internal results are disjoint and together hold every role (sizes and multisets) |
| Roles.FilterRolesInOrder | apps/console/src/features/roles/pages/role.tsx:131-139 | every branch keeps the list order: filtering a concatenation is the concatenation of the filtered parts |
| Roles.SetRolesPage | apps/console/src/features/roles/pages/role.tsx:389-397 | `Resources` becomes its slice (at most `limit` roles, the contiguous run, empty past the end); the other envelope fields are kept |
| Roles.GetRoles | apps/console/src/features/roles/pages/role.tsx:122-150 | only a 200 with a `Resources` array that filters without a throw changes the state: it stores the filtered envelope and shows its page at offset 0 |
| Roles.GetRolesShowsFirstPage | apps/console/src/features/roles/pages/role.tsx:142-143 | after a successful load the page holds the first `limit` filtered roles |
| Roles.PaginationChange | apps/console/src/features/roles/pages/role.tsx:399-404 | the offset `(activePage - 1) * limit` is always stored; the page is re-sliced only when a list is loaded (otherwise the spread throws) |
| Roles.ItemsPerPageChange | apps/console/src/features/roles/pages/role.tsx:406-409 | re-slices the loaded envelope at the current offset with the new size |
| Roles.RoleTotalPages | apps/console/src/features/roles/pages/role.tsx:562 | `ceil(length / limit)` of the loaded `Resources`, and no number (NaN) when nothing is loaded |
| Roles.RoleRowOf | apps/console/src/features/roles/pages/role.tsx:178-195 | a failed by-id fetch gives an undefined row, a reply a row; "" for an absent id or displayName; groups and users cells are the `display` values joined by "," without a trailing comma, "" when absent |
| Roles.ExportRoleRows | apps/console/src/features/roles/pages/role.tsx:158-168 | one by-id request per role in order; row k is numbered k + 1 and built from the k-th reply, undefined when that fetch failed |
| Roles.ExportRoles | apps/console/src/features/roles/pages/role.tsx:152-176 | requests and a sheet exactly for a 200 with a `Resources` array, unfiltered, row k from role k |
| Roles.AddRolePayload | apps/console/src/features/roles/pages/role.tsx:232-247 | the name is `roleName` or "" when missing or empty; no groups, users or permissions; the single Role schema URN |
| IdentityProvider.BuildReplaceOps | apps/admin-portal/src/api/identity-provider.ts:185-194 | the loop builds one `REPLACE` operation per non-id field, in key order |
| IdentityProvider.ReplaceOpsRoundTrip | apps/admin-portal/src/api/identity-provider.ts:185-194 | the fields read back from the operations are exactly the object without `id`; one operation fewer than fields when an id is present; every non-id field is replaced with its own value |
| IdentityProvider.ReplaceOpsNeverTouchId | apps/admin-portal/src/api/identity-provider.ts:189-193 | every operation is `REPLACE` and none has path `/id` |
| IdentityProvider.Without | apps/admin-portal/src/api/identity-provider.ts:185 | `{ id, ...rest }`: the rest holds exactly the fields whose key is not the removed one, and no field with that key |
| IdentityProvider.WithoutContents | apps/admin-portal/src/api/identity-provider.ts:185 | for an object with unique keys, the rest object is one field shorter iff the key was present |
| IdentityProvider.UpdateDetailsRequest | apps/admin-portal/src/api/identity-provider.ts:183-204 | a PATCH of the replace operations to `endpoint + "/" + id` |
| IdentityProvider.IdpUrlSegments | apps/admin-portal/src/api/identity-provider.ts:204 | a "/"-free id is the last path segment of the URL |
| IdentityProvider.ListRequest | apps/admin-portal/src/api/identity-provider.ts:87-107 | a GET of the collection with filter, limit, offset and requiredAttributes passed through unchanged |
| IdentityProvider.CreateRequest | apps/admin-portal/src/api/identity-provider.ts:54-64 | a POST of the object as it is to the collection |
| IdentityProvider.DetailRequest | apps/admin-portal/src/api/identity-provider.ts:127-136 | a GET of `endpoint + "/" + id` |
| IdentityProvider.DeleteRequest | apps/admin-portal/src/api/identity-provider.ts:155-164 | a DELETE of `endpoint + "/" + id` |
| IdentityProvider.SubResourceUpdate | apps/admin-portal/src/api/identity-provider.ts:230-241 | a PUT of the item without its id key to `endpoint/idpId/collection/itemId` |
| IdentityProvider.UpdateAuthenticatorRequest | apps/admin-portal/src/api/identity-provider.ts:225-241 | a PUT whose body holds exactly the authenticator's fields other than `authenticatorId`; for "/"-free ids the URL path ends in `idpId`, `federated-authenticators`, the `authenticatorId` text |
| IdentityProvider.UpdateConnectorRequest | apps/admin-portal/src/api/identity-provider.ts:450-466 | a PUT whose body holds exactly the connector's fields other than `connectorId`; for "/"-free ids the URL path ends in `idpId`, `provisioning`, `outbound-connectors`, the `connectorId` text |
| IdentityProvider.Settle | apps/admin-portal/src/api/identity-provider.ts:68-73 | a call resolves iff its status is the expected one; any other status and a transport failure reject |
| IdentityProvider.OneAcceptedStatus | apps/admin-portal/src/api/identity-provider.ts:209 | no call accepts two different statuses |
| IdentityProvider.SuccessCodesAreNotInterchangeable | apps/admin-portal/src/api/identity-provider.ts:168 | create needs 201, delete needs 204, every other call needs 200; 200 does not satisfy create or delete, and 201 and 204 do not satisfy an update |
| Seqs.Filter | apps/console/src/features/groups/pages/groups.tsx:148-151 | `filter` keeps only elements of the input that satisfy the predicate, and never more than the input holds |
| Seqs.Slice | apps/console/src/features/roles/pages/role.tsx:393 | `slice(start, end)` holds at most `end - start` elements; for an in-range start it is the contiguous run up to the clamped end; a start at or past the end gives nothing |
| Text.ContainsIff | apps/console/src/features/groups/pages/groups.tsx:149-150 | `includes` holds exactly when the text occurs at some position |
| Text.JoinDisplaysIsJoin | apps/console/src/features/users/pages/users.tsx:241 | the `reduce` that appends "," to each display, followed by `slice(0,-1)`, is the ","-join: no trailing comma, and "" for no displays |
| Text.SplitHead | apps/console/src/features/users/pages/users.tsx:158-159 | the first part of `split("/")` is the "/"-free text before the first "/"; there are further parts iff the name holds a "/" |
| Common.QualifyThenSplit | apps/console/src/features/users/pages/users.tsx:381-383 | splitting `domain + "/" + name` at "/" gives back a "/"-free domain as its first part |

## Left out

- React machinery (rendering, hooks, effects, loading flags) is left out. Setter calls are returned values.
- Alerts, i18n texts and the three-way error classification are left out. They are notifications with no data effect.
- XLSX parsing and writing, and FileSaver downloads, are foreign libraries. Parsed rows are inputs, and the rows to export are outputs.
- `moment` timestamp formatting depends on locale and time zone, so a cell keeps the timestamp (`Common.TimeCell`). The `Date.now()` file names are nondeterministic and are left out.
- axios requests, headers, the redux store reads and the exception wrappers are left out. Responses are inputs. The endpoint is a parameter.
- The concurrent per-row create calls of the imports and the order of their replies are not modelled. Each row is modelled on its own. The role updates are the list of calls issued, not their outcomes.
- The column preferences in local storage are left out. So are the user-store dropdowns and the async pushes in `getUserStores`.
- The index keys that `...roleList.Resources` spreads into the role envelope (role.tsx:392) are not modelled.
- A null `roles` or `members` list makes the group export's `reduce` throw; the promise's catch alerts and no sheet is written. A null `groups` or `users` list in a role reply is a TypeError that `getRoleDTOById`'s catch swallows, so that row is undefined, which the `None` reply of `Roles.RoleRowOf` covers. The types rule a null list out: a list is either absent or an array.
- Users.NormaliseUser does not model that the source overwrites `resource.emails` on the fetched object in place. Records are values, so the result holds the changed record.
- Display values of relation lists are modelled as strings. A missing `display` would be joined as "undefined".
- Roles.DomainFilterMembership and Roles.DomainFiltersPartition assume the domain names differ from each other and from "all". With equal names, the source's first matching branch wins, and `Roles.FilterRoles` models that case.
- Paging.TotalPages: requires a positive page size. The dropdown only offers positive sizes, and a zero size would make `Math.ceil` return Infinity for a non-empty list and NaN for an empty one.
- User attribute values are assumed to be strings. A `userName` of another type, or a `meta` that is missing, would throw in the source.
- Users.OverFetchShowsOnePage: assumes the server reports the returned count as `itemsPerPage`, which the extra-entry comment at users.tsx:537-538 relies on.
- JavaScript objects enumerate integer-like keys first in `for..in`. An identity provider's keys are modelled in their given order.
- IdentityProvider.IdText: requires the id value to be a string or absent, as the TypeScript interfaces declare.
- The users page search handler, the roles search (`searchRoleListHandler` in role.tsx) and deletion are not modelled. Neither are the identity-provider calls other than create, list, get, delete and the three updates.
- The success and failure alerts after `addUserBasic`, `addGroup` and `addRole`, and the update-role error alerts, are notifications and are left out.
