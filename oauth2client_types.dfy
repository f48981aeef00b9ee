/**
 * The OAuth2Client resource: its spec and status, the reconciliation status
 * codes, and the conversion of a resource into the registry's record
 * (api/v1alpha1/oauth2client_types.go).
 */
module V1alpha1 {
  import opened Wrappers
  import opened Hydra

  /** StatusCode: the code recorded in a resource's reconciliation error. */
  type StatusCode = string

  const StatusRegistrationFailed: StatusCode := "CLIENT_REGISTRATION_FAILED"
  const StatusCreateSecretFailed: StatusCode := "SECRET_CREATION_FAILED"
  const StatusUpdateFailed: StatusCode := "CLIENT_UPDATE_FAILED"
  const StatusInvalidSecret: StatusCode := "INVALID_SECRET"

  /** The four status codes are pairwise distinct and none is the empty "no error" code. */
  lemma StatusCodesDistinct()
    ensures StatusRegistrationFailed != StatusCreateSecretFailed
    ensures StatusRegistrationFailed != StatusUpdateFailed
    ensures StatusRegistrationFailed != StatusInvalidSecret
    ensures StatusCreateSecretFailed != StatusUpdateFailed
    ensures StatusCreateSecretFailed != StatusInvalidSecret
    ensures StatusUpdateFailed != StatusInvalidSecret
    ensures "" !in {StatusRegistrationFailed, StatusCreateSecretFailed, StatusUpdateFailed, StatusInvalidSecret}
  {
  }

  // Go's named string types; `string(x)` is `x.value`.
  datatype GrantType = GrantType(value: string)
  datatype ResponseType = ResponseType(value: string)
  datatype RedirectURI = RedirectURI(value: string)
  datatype TokenEndpointAuthMethod = TokenEndpointAuthMethod(value: string)

  /**
   * OAuth2ClientSpec. The last six fields are read by FromOAuth2Client
   * (hydra/types.go) and are part of the resource's spec type there.
   * `metadata` is the raw structured data the user supplied.
   */
  datatype OAuth2ClientSpec = OAuth2ClientSpec(
    grantTypes: seq<GrantType>,
    responseTypes: seq<ResponseType>,
    redirectURIs: seq<RedirectURI>,
    scope: string,
    secretName: string,
    clientName: string,
    postLogoutRedirectURIs: seq<RedirectURI>,
    allowedCorsOrigins: seq<RedirectURI>,
    audience: seq<string>,
    tokenEndpointAuthMethod: TokenEndpointAuthMethod,
    metadata: Bytes)

  datatype ReconciliationError = ReconciliationError(code: StatusCode, description: string)

  /** Go's int64 generation counters are unbounded here: the code only copies and compares them. */
  datatype OAuth2ClientStatus = OAuth2ClientStatus(observedGeneration: int, reconciliationError: ReconciliationError)

  /** The resource with the parts of its object metadata the controller reads. */
  datatype OAuth2Client = OAuth2Client(
    name: string,
    namespace: string,
    generation: int,
    spec: OAuth2ClientSpec,
    status: OAuth2ClientStatus)

  // Element-wise conversions, as values (used by the pure record builders).

  function GrantStrings(gt: seq<GrantType>): seq<string> {
    seq(|gt|, i requires 0 <= i < |gt| => gt[i].value)
  }

  function ResponseStrings(rt: seq<ResponseType>): seq<string> {
    seq(|rt|, i requires 0 <= i < |rt| => rt[i].value)
  }

  function RedirectStrings(ru: seq<RedirectURI>): seq<string> {
    seq(|ru|, i requires 0 <= i < |ru| => ru[i].value)
  }

  /** `ss` is, position by position, the string form of `gt`. */
  predicate GrantsConverted(ss: seq<string>, gt: seq<GrantType>) {
    |ss| == |gt| && forall i :: 0 <= i < |gt| ==> ss[i] == gt[i].value
  }

  predicate ResponsesConverted(ss: seq<string>, rt: seq<ResponseType>) {
    |ss| == |rt| && forall i :: 0 <= i < |rt| ==> ss[i] == rt[i].value
  }

  predicate RedirectsConverted(ss: seq<string>, ru: seq<RedirectURI>) {
    |ss| == |ru| && forall i :: 0 <= i < |ru| ==> ss[i] == ru[i].value
  }

  /** grantToStringSlice: fills a fresh slice of the same length, one position at a time. */
  method GrantToStringSlice(gt: seq<GrantType>) returns (output: seq<string>)
    ensures GrantsConverted(output, gt)
    ensures output == GrantStrings(gt)
  {
    var a := new string[|gt|];
    for i := 0 to |gt|
      invariant forall j :: 0 <= j < i ==> a[j] == gt[j].value
    {
      a[i] := gt[i].value;
    }
    output := a[..];
  }

  /** responseToStringSlice. */
  method ResponseToStringSlice(rt: seq<ResponseType>) returns (output: seq<string>)
    ensures ResponsesConverted(output, rt)
    ensures output == ResponseStrings(rt)
  {
    var a := new string[|rt|];
    for i := 0 to |rt|
      invariant forall j :: 0 <= j < i ==> a[j] == rt[j].value
    {
      a[i] := rt[i].value;
    }
    output := a[..];
  }

  /** redirectToStringSlice. */
  method RedirectToStringSlice(ru: seq<RedirectURI>) returns (output: seq<string>)
    ensures RedirectsConverted(output, ru)
    ensures output == RedirectStrings(ru)
  {
    var a := new string[|ru|];
    for i := 0 to |ru|
      invariant forall j :: 0 <= j < i ==> a[j] == ru[j].value
    {
      a[i] := ru[i].value;
    }
    output := a[..];
  }

  // The inverse conversions, string to named type.

  function GrantTypesOf(ss: seq<string>): seq<GrantType> {
    seq(|ss|, i requires 0 <= i < |ss| => GrantType(ss[i]))
  }

  function ResponseTypesOf(ss: seq<string>): seq<ResponseType> {
    seq(|ss|, i requires 0 <= i < |ss| => ResponseType(ss[i]))
  }

  function RedirectURIsOf(ss: seq<string>): seq<RedirectURI> {
    seq(|ss|, i requires 0 <= i < |ss| => RedirectURI(ss[i]))
  }

  /** Converting to strings loses nothing: converting back gives the original list. */
  lemma ConversionsRoundTrip(gt: seq<GrantType>, rt: seq<ResponseType>, ru: seq<RedirectURI>)
    ensures GrantTypesOf(GrantStrings(gt)) == gt
    ensures ResponseTypesOf(ResponseStrings(rt)) == rt
    ensures RedirectURIsOf(RedirectStrings(ru)) == ru
  {
    assert forall i :: 0 <= i < |gt| ==> GrantTypesOf(GrantStrings(gt))[i] == gt[i];
    assert forall i :: 0 <= i < |rt| ==> ResponseTypesOf(ResponseStrings(rt))[i] == rt[i];
    assert forall i :: 0 <= i < |ru| ==> RedirectURIsOf(RedirectStrings(ru))[i] == ru[i];
  }

  /** The owner string `fmt.Sprintf("%s/%s", name, namespace)`. */
  function OwnerString(name: string, namespace: string): string {
    name + "/" + namespace
  }

  /**
   * Resource names never contain '/', so distinct (name, namespace) pairs
   * give distinct owner strings: the owner string identifies its resource.
   */
  lemma OwnerStringInjective(name1: string, namespace1: string, name2: string, namespace2: string)
    requires '/' !in name1 && '/' !in name2
    requires OwnerString(name1, namespace1) == OwnerString(name2, namespace2)
    ensures name1 == name2 && namespace1 == namespace2
  {
    var s := OwnerString(name1, namespace1);
    var k := if |name1| < |name2| then |name1| else |name2|;
    OwnerStringAt(name1, namespace1, k);
    OwnerStringAt(name2, namespace2, k);
    assert |name1| == |name2|;
    assert name1 == s[..|name1|] == name2;
    assert namespace1 == s[|name1| + 1..] == namespace2;
  }

  /** Position `k` of an owner string: a character of the name, or the separator. */
  lemma OwnerStringAt(name: string, namespace: string, k: nat)
    requires k <= |name|
    ensures k < |name| ==> OwnerString(name, namespace)[k] == name[k]
    ensures k == |name| ==> OwnerString(name, namespace)[k] == '/'
  {
  }

  /**
   * ToOAuth2ClientJSON: the record the controller registers for a resource.
   * Only grant types, response types, redirect URIs, scope and owner are set;
   * the credentials are left absent and every other field keeps Go's zero value.
   */
  function ToOAuth2ClientJSON(c: OAuth2Client): (r: OAuth2ClientJSON)
    ensures r.owner == c.name + "/" + c.namespace
    ensures r.scope == c.spec.scope
    ensures r.clientID.None? && r.secret.None?
    ensures GrantsConverted(r.grantTypes, c.spec.grantTypes)
    ensures ResponsesConverted(r.responseTypes, c.spec.responseTypes)
    ensures RedirectsConverted(r.redirectURIs, c.spec.redirectURIs)
    ensures r.clientName == "" && r.tokenEndpointAuthMethod == "" && r.metadata == []
    ensures r.postLogoutRedirectURIs == [] && r.allowedCorsOrigins == [] && r.audience == []
  {
    OAuth2ClientJSON(
      clientName := "",
      clientID := None,
      secret := None,
      grantTypes := GrantStrings(c.spec.grantTypes),
      redirectURIs := RedirectStrings(c.spec.redirectURIs),
      postLogoutRedirectURIs := [],
      allowedCorsOrigins := [],
      responseTypes := ResponseStrings(c.spec.responseTypes),
      audience := [],
      scope := c.spec.scope,
      owner := OwnerString(c.name, c.namespace),
      tokenEndpointAuthMethod := "",
      metadata := [])
  }
}
