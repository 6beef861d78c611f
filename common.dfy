/**
 * Types and rules shared by the users, groups and roles pages of the console.
 */
module Common {
  import opened Wrappers
  import opened Text

  /** The Group core schema (section 4.2 of RFC 7643). */
  const GROUP_SCHEMA := "urn:ietf:params:scim:schemas:core:2.0:Group"
  /** The PatchOp message (section 3.5.2 of RFC 7644). */
  const PATCH_OP_SCHEMA := "urn:ietf:params:scim:api:messages:2.0:PatchOp"
  /** The SearchRequest message (section 3.4.3 of RFC 7644). */
  const SEARCH_REQUEST_SCHEMA := "urn:ietf:params:scim:api:messages:2.0:SearchRequest"
  /** The Role extension schema of the identity server. */
  const ROLE_SCHEMA := "urn:ietf:params:scim:schemas:extension:2.0:Role"

  /** The name of the primary userstore as the import sheets write it (the comparison is case-sensitive). */
  const PRIMARY_DOMAIN := "primary"

  /** The query the basic search sends when its value box is empty. */
  const EMPTY_NAME_QUERY := "displayName sw "

  /** The `meta` sub-record of a SCIM resource; either timestamp may be undefined. */
  datatype Meta = Meta(created: Option<string>, lastModified: Option<string>)

  /**
   * A timestamp cell of an exported sheet: "" for an undefined timestamp, otherwise the
   * instant that is rendered as `DD/MM/YYYY HH:mm:ss` (the rendering itself is not modelled).
   */
  datatype TimeCell = Blank | Formatted(instant: string)

  function StampCell(stamp: Option<string>): (cell: TimeCell)
    ensures cell.Blank? <==> stamp.None?
    ensures cell.Formatted? ==> Some(cell.instant) == stamp
  {
    match stamp
    case None => Blank
    case Some(t) => Formatted(t)
  }

  /**
   * A relation cell of an export row: the `reduce` that appends "," to every `display` value, then
   * `slice(0, -1)`; "" when the key is absent.
   */
  function DisplaysCell(ds: Option<seq<string>>): (cell: string)
    ensures ds.Some? ==> cell == Join(ds.value, ",")
    ensures ds.None? ==> cell == ""
  {
    if ds.Some? then JoinDisplaysIsJoin(ds.value); JoinDisplays(ds.value) else ""
  }

  /** A name qualified by its userstore: `domain + "/" + name`. */
  function Qualify(domain: string, name: string): string
  {
    domain + "/" + name
  }

  /** The userstore part of a qualified name is recovered by splitting at the first "/". */
  lemma QualifyThenSplit(domain: string, name: string)
    requires '/' !in domain
    ensures |Split(Qualify(domain, name), '/')| > 1
    ensures Split(Qualify(domain, name), '/')[0] == domain
  {
    var q := Qualify(domain, name);
    SplitHead(q, '/');
    var head := Split(q, '/')[0];
    assert q[|domain|] == '/';
    assert head == q[..|head|] == domain;
  }

  /** What the search box asks the page to do: reload the whole list, or run a search. */
  datatype FilterAction = Reload | Search(query: string)

  /** `handleUserFilter` of the groups and roles pages: a null or empty name query reloads. */
  function FilterActionOf(query: Option<string>): (action: FilterAction)
    ensures action == Reload <==> query.None? || query == Some(EMPTY_NAME_QUERY)
    ensures action.Search? ==> query == Some(action.query)
  {
    match query
    case None => Reload
    case Some(q) => if q == EMPTY_NAME_QUERY then Reload else Search(q)
  }
}
