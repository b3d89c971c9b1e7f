/**
 * The decoded LTI 1.3 ID token as the validator sees it, and the JavaScript
 * truthiness of its claims.
 *
 * The claim values are typed as the token's TypeScript interface types them.
 * A claim that is absent is `None`.  The claim names (URIs) live in a module
 * that is not part of this model, so they are a parameter, `ClaimUris`.
 */
module LtiDefinitions {
  import opened Wrappers

  /** The `aud` claim: one audience string, or an array of them. */
  datatype Audience = Single(value: string) | Many(values: seq<string>)

  /** The resource-link claim object; only its `id` field is ever read. */
  datatype ResourceLinkClaim = ResourceLinkClaim(id: Option<string>)

  /** The claims of a decoded, signature-checked ID token. */
  datatype IdToken = IdToken(
    iss: Option<string>,
    sub: Option<string>,
    aud: Option<Audience>,
    azp: Option<string>,
    exp: Option<int>,
    iat: Option<int>,
    nonce: Option<string>,
    deploymentId: Option<string>,
    messageType: Option<string>,
    roles: Option<seq<string>>,
    ltiVersion: Option<string>,
    resourceLink: Option<ResourceLinkClaim>,
    targetLinkUri: Option<string>)

  /**
   * The names under which the LTI-specific claims are stored; they are
   * interpolated verbatim into the error messages.
   */
  datatype ClaimUris = ClaimUris(
    deploymentId: string,
    messageType: string,
    roles: string,
    ltiVersion: string,
    resourceLink: string,
    targetLinkUri: string)
  {
    /**
     * Claim names are pairwise distinct absolute URIs.  This is all the
     * lemmas need to know about them to tell the messages apart.
     */
    predicate WellFormed() {
      "https://" <= deploymentId && "https://" <= messageType && "https://" <= roles &&
      "https://" <= ltiVersion && "https://" <= resourceLink && "https://" <= targetLinkUri &&
      deploymentId != messageType && deploymentId != roles && deploymentId != ltiVersion &&
      deploymentId != resourceLink && deploymentId != targetLinkUri &&
      messageType != roles && messageType != ltiVersion && messageType != resourceLink &&
      messageType != targetLinkUri &&
      roles != ltiVersion && roles != resourceLink && roles != targetLinkUri &&
      ltiVersion != resourceLink && ltiVersion != targetLinkUri &&
      resourceLink != targetLinkUri
    }
  }

  /** `!!s` for a string or undefined: absent and `""` are falsy. */
  predicate StrTruthy(s: Option<string>) {
    s.Some? && s.value != ""
  }

  /** `!!n` for a number or undefined: absent and `0` are falsy. */
  predicate NumTruthy(n: Option<int>) {
    n.Some? && n.value != 0
  }

  /** `!!aud`: an array is always truthy, even an empty one; a string is falsy when empty. */
  predicate AudTruthy(a: Option<Audience>) {
    match a
    case None => false
    case Some(Single(s)) => s != ""
    case Some(Many(_)) => true
  }

  /** What a template literal `${x}` writes for a string or undefined. */
  function Render(s: Option<string>): string {
    if s.Some? then s.value else "undefined"
  }
}
