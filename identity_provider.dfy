/**
 * The request shaping of the admin portal's identity-provider API client: the `REPLACE` patch of
 * an identity provider, the id stripping and URL composition of the update calls, and the HTTP
 * status each call accepts.
 */
module IdentityProvider {
  import opened Wrappers
  import opened Text
  import Seqs

  /** A JSON value; an object is its fields in key iteration order. */
  datatype Json =
    | JNull
    | JBool(b: bool)
    | JNumber(n: int)
    | JString(s: string)
    | JArray(items: seq<Json>)
    | JObject(fields: seq<Field>)

  datatype Field = Field(key: string, value: Json)

  /** An object has at most one field per key. */
  predicate UniqueKeys(fields: seq<Field>)
  {
    forall i, j :: 0 <= i < j < |fields| ==> fields[i].key != fields[j].key
  }

  /** The value of `key` in an object, None when the key is absent. */
  function Lookup(fields: seq<Field>, key: string): (v: Option<Json>)
    ensures v.Some? ==> Field(key, v.value) in fields
    ensures v.None? ==> forall f :: f in fields ==> f.key != key
  {
    if |fields| == 0 then None
    else if fields[0].key == key then Some(fields[0].value)
    else Lookup(fields[1..], key)
  }

  /** `const { key, ...rest } = object`: the object without `key`, the other fields in order. */
  function Without(fields: seq<Field>, key: string): (rest: seq<Field>)
    ensures Lookup(rest, key).None?
    ensures forall f :: f in rest <==> f in fields && f.key != key
  {
    var keep := (f: Field) => f.key != key;
    assert forall f :: f in fields && f.key != key ==> f in Seqs.Filter(fields, keep) by {
      forall f | f in fields && f.key != key ensures f in Seqs.Filter(fields, keep) {
        Seqs.FilterKeeps(fields, keep, f);
      }
    }
    Seqs.Filter(fields, keep)
  }

  /** The rest object has no `key`, keeps every other field, and is one field shorter exactly when `key` was there. */
  lemma {:induction false} WithoutContents(fields: seq<Field>, key: string)
    requires UniqueKeys(fields)
    ensures Lookup(Without(fields, key), key).None?
    ensures forall f :: f in fields && f.key != key ==> f in Without(fields, key)
    ensures |Without(fields, key)| == |fields| - if Lookup(fields, key).Some? then 1 else 0
  {
    forall f | f in fields && f.key != key ensures f in Without(fields, key) {
      Seqs.FilterKeeps(fields, (g: Field) => g.key != key, f);
    }
    if |fields| > 0 {
      WithoutContents(fields[1..], key);
      if fields[0].key == key {
        assert forall f :: f in fields[1..] ==> f.key != key by {
          forall f | f in fields[1..] ensures f.key != key {
            var j :| 0 <= j < |fields[1..]| && fields[1..][j] == f;
            assert fields[j + 1] == f;
          }
        }
        FilterNone(fields[1..], key);
      }
    }
  }

  lemma {:induction false} FilterNone(fields: seq<Field>, key: string)
    requires forall f :: f in fields ==> f.key != key
    ensures Without(fields, key) == fields
  {
    if |fields| > 0 {
      assert fields[0] in fields;
      FilterNone(fields[1..], key);
    }
  }

  /** The id text the URLs concatenate: the string value, or "undefined" for a missing key. */
  predicate IdIsText(fields: seq<Field>, key: string)
  {
    Lookup(fields, key).None? || Lookup(fields, key).value.JString?
  }

  function IdText(fields: seq<Field>, key: string): string
    requires IdIsText(fields, key)
  {
    match Lookup(fields, key)
    case None => "undefined"
    case Some(v) => v.s
  }

  // ---------------------------------------------------------------------------------------------
  // The `REPLACE` patch of `updateIdentityProviderDetails`

  datatype ReplaceOperation = ReplaceOperation(operation: string, path: string, value: Json)

  const REPLACE := "REPLACE"
  const ID_KEY := "id"
  const AUTHENTICATOR_ID_KEY := "authenticatorId"
  const CONNECTOR_ID_KEY := "connectorId"

  /** One operation per field of `rest`, in key order. */
  function ReplaceOpsOf(rest: seq<Field>): seq<ReplaceOperation>
  {
    seq(|rest|, k requires 0 <= k < |rest| => ReplaceOperation(REPLACE, "/" + rest[k].key, rest[k].value))
  }

  /** The `for..in` loop and `push` that build the patch from the identity provider without its id. */
  method BuildReplaceOps(idp: seq<Field>) returns (replaceOps: seq<ReplaceOperation>)
    ensures replaceOps == ReplaceOpsOf(Without(idp, ID_KEY))
  {
    var rest := Without(idp, ID_KEY);
    replaceOps := [];
    for i := 0 to |rest|
      invariant replaceOps == ReplaceOpsOf(rest[..i])
    {
      replaceOps := replaceOps + [ReplaceOperation(REPLACE, "/" + rest[i].key, rest[i].value)];
    }
    assert rest[..|rest|] == rest;
  }

  /** The fields a patch replaces: each operation's path without its leading "/", with its value. */
  function ReplacedFields(ops: seq<ReplaceOperation>): seq<Field>
  {
    seq(|ops|, k requires 0 <= k < |ops| => Field(if |ops[k].path| > 0 then ops[k].path[1..] else "", ops[k].value))
  }

  /**
   * The patch replaces exactly the identity provider's fields other than the id, in key order, each
   * with its own value; it is one operation shorter than the object has fields when an id is present.
   */
  lemma ReplaceOpsRoundTrip(idp: seq<Field>)
    requires UniqueKeys(idp)
    ensures var ops := ReplaceOpsOf(Without(idp, ID_KEY));
      && ReplacedFields(ops) == Without(idp, ID_KEY)
      && |ops| == |idp| - (if Lookup(idp, ID_KEY).Some? then 1 else 0)
      && (forall f :: f in idp && f.key != ID_KEY ==> f in ReplacedFields(ops))
  {
    var rest := Without(idp, ID_KEY);
    var ops := ReplaceOpsOf(rest);
    assert forall k :: 0 <= k < |ops| ==> ops[k].path[1..] == rest[k].key;
    WithoutContents(idp, ID_KEY);
  }

  /** Every operation is a `REPLACE`, and none targets `/id`. */
  lemma ReplaceOpsNeverTouchId(idp: seq<Field>)
    ensures forall op :: op in ReplaceOpsOf(Without(idp, ID_KEY)) ==> op.operation == REPLACE && op.path != "/id"
  {
    var rest := Without(idp, ID_KEY);
    forall op | op in ReplaceOpsOf(rest) ensures op.operation == REPLACE && op.path != "/id" {
      var k :| 0 <= k < |ReplaceOpsOf(rest)| && ReplaceOpsOf(rest)[k] == op;
      assert rest[k] in rest;
      assert op.path == "/" + rest[k].key && op.path[1..] == rest[k].key;
    }
  }

  // ---------------------------------------------------------------------------------------------
  // Requests

  datatype HttpMethod = Get | Post | Put | Patch | Delete

  datatype ListParams = ListParams(filter: Option<string>, limit: Option<int>, offset: Option<int>, requiredAttributes: Option<string>)

  datatype Body = NoBody | Operations(ops: seq<ReplaceOperation>) | Object(fields: seq<Field>)

  datatype Request = Request(verb: HttpMethod, url: string, params: Option<ListParams>, body: Body)

  /** `createIdentityProvider`: the object is posted as it is to the collection. */
  function CreateRequest(endpoint: string, idp: seq<Field>): (req: Request)
    ensures req.verb == Post && req.url == endpoint && req.body == Object(idp) && req.params.None?
  {
    Request(Post, endpoint, None, Object(idp))
  }

  /** `getIdentityProviderList`: the four query parameters are passed through unchanged. */
  function ListRequest(endpoint: string, limit: Option<int>, offset: Option<int>, filter: Option<string>,
                       requiredAttributes: Option<string>): (req: Request)
    ensures req.verb == Get && req.url == endpoint && req.body.NoBody?
    ensures req.params == Some(ListParams(filter, limit, offset, requiredAttributes))
  {
    Request(Get, endpoint, Some(ListParams(filter, limit, offset, requiredAttributes)), NoBody)
  }

  /** The URL of one identity provider. */
  function IdpUrl(endpoint: string, id: string): string
  {
    endpoint + "/" + id
  }

  /** A "/"-free id is the last path segment of its URL. */
  lemma IdpUrlSegments(endpoint: string, id: string)
    requires '/' !in id
    ensures Split(IdpUrl(endpoint, id), '/') == Split(endpoint, '/') + [id]
  {
    SplitConcat(endpoint, id, '/');
    SplitFree(id, '/');
  }

  /** `getIdentityProviderDetail`. */
  function DetailRequest(endpoint: string, id: string): (req: Request)
    ensures req.verb == Get && req.url == IdpUrl(endpoint, id) && req.body.NoBody? && req.params.None?
  {
    Request(Get, IdpUrl(endpoint, id), None, NoBody)
  }

  /** `deleteIdentityProvider`. */
  function DeleteRequest(endpoint: string, id: string): (req: Request)
    ensures req.verb == Delete && req.url == IdpUrl(endpoint, id) && req.body.NoBody? && req.params.None?
  {
    Request(Delete, IdpUrl(endpoint, id), None, NoBody)
  }

  /** `updateIdentityProviderDetails`: the patch of every non-id field, sent to the URL of the id. */
  method UpdateDetailsRequest(endpoint: string, idp: seq<Field>) returns (req: Request)
    requires IdIsText(idp, ID_KEY)
    ensures req.verb == Patch && req.params.None?
    ensures req.url == IdpUrl(endpoint, IdText(idp, ID_KEY))
    ensures req.body == Operations(ReplaceOpsOf(Without(idp, ID_KEY)))
  {
    var replaceOps := BuildReplaceOps(idp);
    req := Request(Patch, IdpUrl(endpoint, IdText(idp, ID_KEY)), None, Operations(replaceOps));
  }

  /** The URL of a sub-resource of an identity provider: `endpoint/idpId/<collection>/<id>`. */
  function SubResourceUrl(endpoint: string, idpId: string, collection: string, subId: string): string
  {
    endpoint + "/" + idpId + "/" + collection + "/" + subId
  }

  /** The sub-resource update of both calls: the id key is taken out of the body and put at the end of the URL. */
  function SubResourceUpdate(endpoint: string, idpId: string, collection: string, item: seq<Field>, idKey: string): (req: Request)
    requires IdIsText(item, idKey)
    ensures req.verb == Put && req.params.None?
    ensures req.url == SubResourceUrl(endpoint, idpId, collection, IdText(item, idKey))
    ensures req.body == Object(Without(item, idKey))
  {
    Request(Put, SubResourceUrl(endpoint, idpId, collection, IdText(item, idKey)), None, Object(Without(item, idKey)))
  }


  /** With "/"-free names, the identity-provider id, the collection's segments and the item id are the path's last segments. */
  lemma {:induction false} SubResourceUrlSegments(endpoint: string, idpId: string, segments: seq<string>, subId: string)
    requires '/' !in idpId && '/' !in subId
    requires |segments| >= 1 && forall k :: 0 <= k < |segments| ==> '/' !in segments[k]
    ensures Split(SubResourceUrl(endpoint, idpId, Join(segments, "/"), subId), '/') ==
            Split(endpoint, '/') + [idpId] + segments + [subId]
  {
    var parts := [idpId] + segments + [subId];
    assert parts[1..] == segments + [subId];
    JoinSnoc(segments, subId, "/");
    assert Join(parts, "/") == idpId + "/" + (Join(segments, "/") + "/" + subId);
    forall k | 0 <= k < |parts| ensures '/' !in parts[k] {
      if 0 < k < |parts| - 1 { assert parts[k] == segments[k - 1]; }
    }
    JoinSplit(parts, '/');
    assert SubResourceUrl(endpoint, idpId, Join(segments, "/"), subId) == endpoint + "/" + Join(parts, "/");
    SplitConcat(endpoint, Join(parts, "/"), '/');
  }

  const AUTHENTICATORS := "federated-authenticators"
  const PROVISIONING := "provisioning"
  const OUTBOUND_CONNECTORS := "outbound-connectors"
  /** "provisioning/outbound-connectors" */
  const CONNECTORS := Join([PROVISIONING, OUTBOUND_CONNECTORS], "/")

  /**
   * `updateFederatedAuthenticator`: a PUT whose body is the authenticator without `authenticatorId`,
   * every other field kept, to a URL whose path ends in `<idpId>/federated-authenticators/<authenticatorId>`.
   */
  function UpdateAuthenticatorRequest(endpoint: string, idpId: string, authenticator: seq<Field>): (req: Request)
    requires IdIsText(authenticator, AUTHENTICATOR_ID_KEY)
    ensures req.verb == Put && req.params.None? && req.body.Object?
    ensures Lookup(req.body.fields, AUTHENTICATOR_ID_KEY).None?
    ensures forall f :: f in req.body.fields <==> f in authenticator && f.key != AUTHENTICATOR_ID_KEY
    ensures '/' !in idpId && '/' !in IdText(authenticator, AUTHENTICATOR_ID_KEY) ==>
      Split(req.url, '/') == Split(endpoint, '/') + [idpId, AUTHENTICATORS, IdText(authenticator, AUTHENTICATOR_ID_KEY)]
  {
    var authenticatorId := IdText(authenticator, AUTHENTICATOR_ID_KEY);
    assert '/' !in idpId && '/' !in authenticatorId ==>
      Split(SubResourceUrl(endpoint, idpId, AUTHENTICATORS, authenticatorId), '/') ==
      Split(endpoint, '/') + [idpId, AUTHENTICATORS, authenticatorId] by {
      if '/' !in idpId && '/' !in authenticatorId {
        assert Join([AUTHENTICATORS], "/") == AUTHENTICATORS;
        SubResourceUrlSegments(endpoint, idpId, [AUTHENTICATORS], authenticatorId);
      }
    }
    SubResourceUpdate(endpoint, idpId, AUTHENTICATORS, authenticator, AUTHENTICATOR_ID_KEY)
  }

  /**
   * `updateOutboundProvisioningConnector`: a PUT whose body is the connector without `connectorId`,
   * every other field kept, to a URL whose path ends in `<idpId>/provisioning/outbound-connectors/<connectorId>`.
   */
  function UpdateConnectorRequest(endpoint: string, idpId: string, connector: seq<Field>): (req: Request)
    requires IdIsText(connector, CONNECTOR_ID_KEY)
    ensures req.verb == Put && req.params.None? && req.body.Object?
    ensures Lookup(req.body.fields, CONNECTOR_ID_KEY).None?
    ensures forall f :: f in req.body.fields <==> f in connector && f.key != CONNECTOR_ID_KEY
    ensures '/' !in idpId && '/' !in IdText(connector, CONNECTOR_ID_KEY) ==>
      Split(req.url, '/') ==
      Split(endpoint, '/') + [idpId, PROVISIONING, OUTBOUND_CONNECTORS, IdText(connector, CONNECTOR_ID_KEY)]
  {
    var connectorId := IdText(connector, CONNECTOR_ID_KEY);
    assert '/' !in idpId && '/' !in connectorId ==>
      Split(SubResourceUrl(endpoint, idpId, CONNECTORS, connectorId), '/') ==
      Split(endpoint, '/') + [idpId, PROVISIONING, OUTBOUND_CONNECTORS, connectorId] by {
      if '/' !in idpId && '/' !in connectorId {
        assert '/' !in PROVISIONING && '/' !in OUTBOUND_CONNECTORS;
        SubResourceUrlSegments(endpoint, idpId, [PROVISIONING, OUTBOUND_CONNECTORS], connectorId);
      }
    }
    SubResourceUpdate(endpoint, idpId, CONNECTORS, connector, CONNECTOR_ID_KEY)
  }

  // ---------------------------------------------------------------------------------------------
  // Status acceptance

  /** The calls of the client whose status rule is modelled. */
  datatype IdpCall = CreateCall | ListCall | DetailCall | DeleteCall | UpdateDetailsCall | UpdateAuthenticatorCall | UpdateConnectorCall

  /** The one status each call accepts: 201 for a create, 204 for a delete, 200 for the others. */
  function ExpectedStatus(call: IdpCall): (status: int)
    ensures 200 <= status < 300
  {
    match call
    case CreateCall => 201
    case DeleteCall => 204
    case _ => 200
  }

  /** How the returned promise settles: resolved, rejected for the wrong status, or rejected with the transport error. */
  datatype Outcome = Resolved | WrongStatus(status: int) | TransportError

  /** `status` is None when the request itself failed. */
  function Settle(call: IdpCall, status: Option<int>): (outcome: Outcome)
    ensures outcome.Resolved? <==> status == Some(ExpectedStatus(call))
    ensures outcome.TransportError? <==> status.None?
    ensures outcome.WrongStatus? ==> Some(outcome.status) == status
  {
    match status
    case None => TransportError
    case Some(s) => if s != ExpectedStatus(call) then WrongStatus(s) else Resolved
  }

  /** No call accepts two different statuses, and a success status of another call is still a rejection. */
  lemma OneAcceptedStatus(call: IdpCall, s1: int, s2: int)
    requires Settle(call, Some(s1)).Resolved? && Settle(call, Some(s2)).Resolved?
    ensures s1 == s2
  {
  }

  /** A create answered with 200, or a delete answered with 200, is rejected; an update answered with 201 or 204 too. */
  lemma SuccessCodesAreNotInterchangeable()
    ensures Settle(CreateCall, Some(200)).WrongStatus? && Settle(DeleteCall, Some(200)).WrongStatus?
    ensures Settle(UpdateDetailsCall, Some(201)).WrongStatus? && Settle(UpdateDetailsCall, Some(204)).WrongStatus?
    ensures Settle(CreateCall, Some(201)).Resolved? && Settle(DeleteCall, Some(204)).Resolved?
    ensures forall c :: c != CreateCall && c != DeleteCall ==> Settle(c, Some(200)).Resolved?
  {
  }
}
