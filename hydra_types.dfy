/**
 * The registry's wire record and the credential pair of a client
 * (hydra/types.go, lines 15-45).
 */
module Hydra {
  import opened Wrappers

  /** One octet. */
  newtype byte = b: int | 0 <= b < 256

  /**
   * A Go `[]byte`, and also the content of a Go `string` obtained from one:
   * `string(b)` and `[]byte(s)` copy the bytes unchanged, so the model uses
   * one type for both.
   */
  type Bytes = seq<byte>

  /**
   * OAuth2ClientJSON: an OAuth2 client as the registry receives and returns it.
   * `clientID` and `secret` are Go `*string` fields, absent when nil.
   */
  datatype OAuth2ClientJSON = OAuth2ClientJSON(
    clientName: string,
    clientID: Option<Bytes>,
    secret: Option<Bytes>,
    grantTypes: seq<string>,
    redirectURIs: seq<string>,
    postLogoutRedirectURIs: seq<string>,
    allowedCorsOrigins: seq<string>,
    responseTypes: seq<string>,
    audience: seq<string>,
    scope: string,
    owner: string,
    tokenEndpointAuthMethod: string,
    metadata: Bytes)

  /** Client id and password as read from a secret; a nil `Password` is `None`. */
  datatype Oauth2ClientCredentials = Oauth2ClientCredentials(id: Bytes, password: Option<Bytes>)

  /**
   * The record that `WithCredentials` leaves behind: the id is always
   * overwritten, the secret only when a password is given, and nothing else
   * moves.
   */
  function CredentialsOverlay(oj: OAuth2ClientJSON, credentials: Oauth2ClientCredentials): (r: OAuth2ClientJSON)
    ensures r.clientID == Some(credentials.id)
    ensures credentials.password.Some? ==> r.secret == credentials.password
    ensures credentials.password.None? ==> r.secret == oj.secret
    ensures r.(clientID := oj.clientID, secret := oj.secret) == oj
  {
    var withID := oj.(clientID := Some(credentials.id));
    if credentials.password.Some? then withID.(secret := credentials.password) else withID
  }

  /**
   * A `*OAuth2ClientJSON`: the record as a heap object, so that
   * `WithCredentials` can update it in place and hand back the same pointer.
   */
  class OAuth2ClientJSONRef {
    var clientName: string
    var clientID: Option<Bytes>
    var secret: Option<Bytes>
    var grantTypes: seq<string>
    var redirectURIs: seq<string>
    var postLogoutRedirectURIs: seq<string>
    var allowedCorsOrigins: seq<string>
    var responseTypes: seq<string>
    var audience: seq<string>
    var scope: string
    var owner: string
    var tokenEndpointAuthMethod: string
    var metadata: Bytes

    /** The record the object currently holds. */
    function Value(): OAuth2ClientJSON
      reads this
    {
      OAuth2ClientJSON(clientName, clientID, secret, grantTypes, redirectURIs,
                       postLogoutRedirectURIs, allowedCorsOrigins, responseTypes,
                       audience, scope, owner, tokenEndpointAuthMethod, metadata)
    }

    /** `&OAuth2ClientJSON{...}`: a fresh object holding `v`. */
    constructor (v: OAuth2ClientJSON)
      ensures Value() == v
    {
      clientName, clientID, secret := v.clientName, v.clientID, v.secret;
      grantTypes, redirectURIs := v.grantTypes, v.redirectURIs;
      postLogoutRedirectURIs, allowedCorsOrigins := v.postLogoutRedirectURIs, v.allowedCorsOrigins;
      responseTypes, audience := v.responseTypes, v.audience;
      scope, owner := v.scope, v.owner;
      tokenEndpointAuthMethod, metadata := v.tokenEndpointAuthMethod, v.metadata;
    }

    /**
     * Overlays the credentials on this record in place and returns the
     * receiver itself; only `clientID` and `secret` may change.
     */
    method WithCredentials(credentials: Oauth2ClientCredentials) returns (r: OAuth2ClientJSONRef)
      modifies this`clientID, this`secret
      ensures r == this
      ensures clientID == Some(credentials.id)
      ensures secret == if credentials.password.Some? then credentials.password else old(secret)
      ensures Value() == CredentialsOverlay(old(Value()), credentials)
    {
      clientID := Some(credentials.id);
      if credentials.password.Some? {
        secret := credentials.password;
      }
      r := this;
    }
  }
}
