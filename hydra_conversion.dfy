/**
 * FromOAuth2Client (hydra/types.go, lines 48-67): the full conversion of a
 * resource into the registry record, including the fields ToOAuth2ClientJSON
 * leaves out. It lives in its own module because it needs the resource type,
 * and the resource module in turn needs the record type.
 */
module HydraConversion {
  import opened Wrappers
  import opened Hydra
  import opened V1alpha1

  const MetadataEncodingError := "unable to encode `metadata` property value to json"

  /**
   * Converts `c`; `marshal` stands for `json.Marshal` on the spec's metadata,
   * which may fail with an error text. A failure is wrapped the way
   * `errors.WithMessage` formats it and no record is produced.
   */
  function FromOAuth2Client(c: OAuth2Client, marshal: Bytes -> Result<Bytes, string>): (r: Result<OAuth2ClientJSON, string>)
    ensures r.Failure? <==> marshal(c.spec.metadata).Failure?
    ensures r.Failure? ==> r.error == MetadataEncodingError + ": " + marshal(c.spec.metadata).error
    ensures r.Success? ==>
      && r.value.owner == c.name + "/" + c.namespace
      && r.value.clientName == c.spec.clientName
      && r.value.scope == c.spec.scope
      && r.value.audience == c.spec.audience
      && r.value.tokenEndpointAuthMethod == c.spec.tokenEndpointAuthMethod.value
      && r.value.metadata == marshal(c.spec.metadata).value
      && r.value.clientID.None? && r.value.secret.None?
    ensures r.Success? ==>
      && GrantsConverted(r.value.grantTypes, c.spec.grantTypes)
      && ResponsesConverted(r.value.responseTypes, c.spec.responseTypes)
      && RedirectsConverted(r.value.redirectURIs, c.spec.redirectURIs)
      && RedirectsConverted(r.value.postLogoutRedirectURIs, c.spec.postLogoutRedirectURIs)
      && RedirectsConverted(r.value.allowedCorsOrigins, c.spec.allowedCorsOrigins)
  {
    match marshal(c.spec.metadata)
    case Failure(e) => Failure(MetadataEncodingError + ": " + e)
    case Success(meta) =>
      Success(OAuth2ClientJSON(
        clientName := c.spec.clientName,
        clientID := None,
        secret := None,
        grantTypes := GrantStrings(c.spec.grantTypes),
        redirectURIs := RedirectStrings(c.spec.redirectURIs),
        postLogoutRedirectURIs := RedirectStrings(c.spec.postLogoutRedirectURIs),
        allowedCorsOrigins := RedirectStrings(c.spec.allowedCorsOrigins),
        responseTypes := ResponseStrings(c.spec.responseTypes),
        audience := c.spec.audience,
        scope := c.spec.scope,
        owner := OwnerString(c.name, c.namespace),
        tokenEndpointAuthMethod := c.spec.tokenEndpointAuthMethod.value,
        metadata := meta))
  }

  /**
   * The two conversions agree on every field ToOAuth2ClientJSON sets:
   * blanking the fields only FromOAuth2Client fills gives exactly the
   * record ToOAuth2ClientJSON builds.
   */
  lemma FromExtendsTo(c: OAuth2Client, marshal: Bytes -> Result<Bytes, string>)
    requires FromOAuth2Client(c, marshal).Success?
    ensures FromOAuth2Client(c, marshal).value.(
              clientName := "", postLogoutRedirectURIs := [], allowedCorsOrigins := [],
              audience := [], tokenEndpointAuthMethod := "", metadata := [])
            == ToOAuth2ClientJSON(c)
  {
  }
}
