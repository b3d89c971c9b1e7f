/**
 * OpenID Connect login initiation for an LTI tool (section 5.1.1 of the
 * IMS Security Framework 1.0): from the platform's login request the tool
 * builds the authentication request redirect to the platform, the state it
 * keeps for the reply, and the settings its client page needs.
 *
 * `crypto.randomUUID()` and the clock are passed in: `firstUuid` and
 * `secondUuid` are the two generated identifiers in the order they are
 * drawn, `now` the ISO-8601 time.  The URL parser is passed in as well.
 */
module Oidc {
  import opened Wrappers
  import opened SearchParams
  import opened Urls
  import opened Platforms

  /** What the tool keeps about a login in progress. */
  datatype OidcState = OidcState(state: string, nonce: string, datetime: string)

  /** The settings handed to the client page. */
  datatype InitSettings = InitSettings(
    state: string,
    responseUrl: string,
    ltiStorageParams: LtiStorageParams,
    relaunchInitUrl: string,
    openIdCookiePrefix: string)

  /** What `buildInit` returns. */
  datatype InitResult = InitResult(oidcState: OidcState, url: Url, settings: InitSettings)

  /** The query parameter through which the platform names its storage frame. */
  const LtiStorageTarget: string := "lti_storage_target"

  /** `buildOIDCState`: the nonce is drawn first, then the state. */
  function BuildOidcState(firstUuid: string, secondUuid: string, now: string): (s: OidcState)
    ensures s.nonce == firstUuid && s.state == secondUuid && s.datetime == now
    ensures firstUuid != secondUuid ==> s.state != s.nonce
  {
    OidcState(state := secondUuid, nonce := firstUuid, datetime := now)
  }

  /** Where the platform posts the ID token: the `/lti/redirect` path on the request's host. */
  function RedirectUrl(host: string): (r: string)
    ensures |r| == |host| + 21
    ensures r[..8] == "https://" && r[8..|r| - 13] == host && r[|r| - 13..] == "/lti/redirect"
  {
    "https://" + host + "/lti/redirect"
  }

  /** The parameters of the authentication request, in the order they are set. */
  function AuthParams(state: string, clientId: string, loginHint: string, ltiMessageHint: string, nonce: string, redirectUrl: string): seq<Param> {
    [ Param("response_type", "id_token"),
      Param("redirect_uri", redirectUrl),
      Param("response_mode", "form_post"),
      Param("client_id", clientId),
      Param("scope", "openid"),
      Param("state", state),
      Param("login_hint", loginHint),
      Param("prompt", "none"),
      Param("lti_message_hint", ltiMessageHint),
      Param("nonce", nonce) ]
  }

  const AuthParamNames: set<string> :=
    { "response_type", "redirect_uri", "response_mode", "client_id", "scope",
      "state", "login_hint", "prompt", "lti_message_hint", "nonce" }

  /** The platform's login URL once the ten parameters are set on its query. */
  function AuthRequest(platform: UrlParts, state: string, clientId: string, loginHint: string, ltiMessageHint: string,
                       nonce: string, redirectUrl: string): UrlParts {
    platform.(query := SetAll(platform.query, AuthParams(state, clientId, loginHint, ltiMessageHint, nonce, redirectUrl)))
  }

  /** The login request's URL without its `lti_storage_target` pairs. */
  function RelaunchParts(request: UrlParts): UrlParts {
    request.(query := DeleteParam(request.query, LtiStorageTarget))
  }

  // ---------------------------------------------------------------------
  // The operations.

  /** `buildResponse`: `None` for a platform URL the parser rejects. */
  method BuildResponse(platformOidcUrl: string, state: string, clientId: string, loginHint: string, ltiMessageHint: string,
                       nonce: string, redirectUrl: string, parse: Parser)
    returns (url: Option<Url>)
    ensures parse(platformOidcUrl).None? ==> url.None?
    ensures parse(platformOidcUrl).Some? ==>
      url.Some? && fresh(url.value) &&
      url.value.Parts() == AuthRequest(parse(platformOidcUrl).value, state, clientId, loginHint, ltiMessageHint, nonce, redirectUrl)
  {
    var parsed := parse(platformOidcUrl);
    if parsed.None? {
      return None;
    }
    var u := new Url(parsed.value);
    ghost var ps := AuthParams(state, clientId, loginHint, ltiMessageHint, nonce, redirectUrl);
    ghost var q := u.query;
    assert u.query == SetAll(q, ps[..0]);

    u.SetSearchParam("response_type", "id_token");
    SetAllStep(q, ps, 0);
    u.SetSearchParam("redirect_uri", redirectUrl);
    SetAllStep(q, ps, 1);
    u.SetSearchParam("response_mode", "form_post");
    SetAllStep(q, ps, 2);
    u.SetSearchParam("client_id", clientId);
    SetAllStep(q, ps, 3);
    u.SetSearchParam("scope", "openid");
    SetAllStep(q, ps, 4);
    u.SetSearchParam("state", state);
    SetAllStep(q, ps, 5);
    u.SetSearchParam("login_hint", loginHint);
    SetAllStep(q, ps, 6);
    u.SetSearchParam("prompt", "none");
    SetAllStep(q, ps, 7);
    u.SetSearchParam("lti_message_hint", ltiMessageHint);
    SetAllStep(q, ps, 8);
    u.SetSearchParam("nonce", nonce);
    SetAllStep(q, ps, 9);

    assert ps[..10] == ps;
    url := Some(u);
  }

  /** `relaunchInitUrl`: `None` for a request URL the parser rejects. */
  method RelaunchInitUrl(requestUrl: string, parse: Parser) returns (r: Option<string>)
    ensures parse(requestUrl).None? ==> r.None?
    ensures parse(requestUrl).Some? ==> r == Some(Serialize(RelaunchParts(parse(requestUrl).value)))
  {
    var parsed := parse(requestUrl);
    if parsed.None? {
      return None;
    }
    var url := new Url(parsed.value);
    url.DeleteSearchParam(LtiStorageTarget);
    r := Some(url.Href());
  }

  /**
   * `buildInit`: `None` when the request URL or the platform URL does not
   * parse (the first is parsed before anything is drawn).
   */
  method BuildInit(requestUrl: string, clientId: string, loginHint: string, ltiMessageHint: string, target: string,
                   platformOidcUrl: string, firstUuid: string, secondUuid: string, now: string, cookiePrefix: string,
                   parse: Parser)
    returns (r: Option<InitResult>)
    ensures r.None? <==> parse(requestUrl).None? || parse(platformOidcUrl).None?
    ensures r.Some? ==>
      var request, platform := parse(requestUrl).value, parse(platformOidcUrl).value;
      var s := BuildOidcState(firstUuid, secondUuid, now);
      r.value.oidcState == s &&
      fresh(r.value.url) &&
      r.value.url.Parts() == AuthRequest(platform, s.state, clientId, loginHint, ltiMessageHint, s.nonce, RedirectUrl(request.host)) &&
      r.value.settings == InitSettings(
        state := s.state,
        responseUrl := r.value.url.Href(),
        ltiStorageParams := GetLtiStorageParams(platformOidcUrl, target),
        relaunchInitUrl := Serialize(RelaunchParts(request)),
        openIdCookiePrefix := cookiePrefix)
  {
    var request := parse(requestUrl);
    if request.None? {
      return None;
    }
    var host := request.value.host;
    var redirectUrl := RedirectUrl(host);

    var oidcState := BuildOidcState(firstUuid, secondUuid, now);
    var url := BuildResponse(platformOidcUrl, oidcState.state, clientId, loginHint, ltiMessageHint, oidcState.nonce,
                             redirectUrl, parse);
    if url.None? {
      return None;
    }
    var ltiStorageParams := GetLtiStorageParams(platformOidcUrl, target);
    var relaunch := RelaunchInitUrl(requestUrl, parse);
    var settings := InitSettings(
      state := oidcState.state,
      responseUrl := url.value.Href(),
      ltiStorageParams := ltiStorageParams,
      relaunchInitUrl := relaunch.value,
      openIdCookiePrefix := cookiePrefix);
    r := Some(InitResult(oidcState, url.value, settings));
  }

  // ---------------------------------------------------------------------
  // Properties.

  /** The ten names differ from each other. */
  lemma AuthParamsDistinct(state: string, clientId: string, loginHint: string, ltiMessageHint: string, nonce: string, redirectUrl: string)
    ensures DistinctNames(AuthParams(state, clientId, loginHint, ltiMessageHint, nonce, redirectUrl))
  {
    var ps := AuthParams(state, clientId, loginHint, ltiMessageHint, nonce, redirectUrl);
    forall i, j | 0 <= i < j < |ps| ensures ps[i].name != ps[j].name {
      if |ps[i].name| == |ps[j].name| {
        assert "response_type"[9] != "response_mode"[9];
        assert "scope"[1] != "state"[1] && "scope"[1] != "nonce"[1] && "state"[1] != "nonce"[1];
      }
    }
  }

  /** The ten names are those of `AuthParamNames`. */
  lemma AuthParamsNames(state: string, clientId: string, loginHint: string, ltiMessageHint: string, nonce: string, redirectUrl: string)
    ensures Names(AuthParams(state, clientId, loginHint, ltiMessageHint, nonce, redirectUrl)) == AuthParamNames
  {
    var ps := AuthParams(state, clientId, loginHint, ltiMessageHint, nonce, redirectUrl);
    assert forall p :: p in ps <==> p == ps[0] || p == ps[1] || p == ps[2] || p == ps[3] || p == ps[4] ||
                                      p == ps[5] || p == ps[6] || p == ps[7] || p == ps[8] || p == ps[9];
  }

  /**
   * The authentication request carries each of the ten parameters exactly
   * once, with the given or the fixed value; every other pair of the
   * platform URL stays, in its order; the rest of the URL is untouched.
   */
  lemma AuthRequestQuery(platform: UrlParts, state: string, clientId: string, loginHint: string, ltiMessageHint: string,
                         nonce: string, redirectUrl: string)
    ensures var q := AuthRequest(platform, state, clientId, loginHint, ltiMessageHint, nonce, redirectUrl).query;
      GetAll(q, "response_type") == ["id_token"] &&
      GetAll(q, "redirect_uri") == [redirectUrl] &&
      GetAll(q, "response_mode") == ["form_post"] &&
      GetAll(q, "client_id") == [clientId] &&
      GetAll(q, "scope") == ["openid"] &&
      GetAll(q, "state") == [state] &&
      GetAll(q, "login_hint") == [loginHint] &&
      GetAll(q, "prompt") == ["none"] &&
      GetAll(q, "lti_message_hint") == [ltiMessageHint] &&
      GetAll(q, "nonce") == [nonce]
    ensures var q := AuthRequest(platform, state, clientId, loginHint, ltiMessageHint, nonce, redirectUrl).query;
      Without(q, AuthParamNames) == Without(platform.query, AuthParamNames) &&
      forall n :: n !in AuthParamNames ==> GetAll(q, n) == GetAll(platform.query, n)
    ensures AuthRequest(platform, state, clientId, loginHint, ltiMessageHint, nonce, redirectUrl).(query := platform.query) == platform
  {
    var ps := AuthParams(state, clientId, loginHint, ltiMessageHint, nonce, redirectUrl);
    AuthParamsDistinct(state, clientId, loginHint, ltiMessageHint, nonce, redirectUrl);
    AuthParamsNames(state, clientId, loginHint, ltiMessageHint, nonce, redirectUrl);
    SetAllGetAll(platform.query, ps, 0);
    SetAllGetAll(platform.query, ps, 1);
    SetAllGetAll(platform.query, ps, 2);
    SetAllGetAll(platform.query, ps, 3);
    SetAllGetAll(platform.query, ps, 4);
    SetAllGetAll(platform.query, ps, 5);
    SetAllGetAll(platform.query, ps, 6);
    SetAllGetAll(platform.query, ps, 7);
    SetAllGetAll(platform.query, ps, 8);
    SetAllGetAll(platform.query, ps, 9);
    SetAllWithout(platform.query, ps, AuthParamNames);
    forall n | n !in AuthParamNames ensures GetAll(SetAll(platform.query, ps), n) == GetAll(platform.query, n) {
      SetAllGetAllOther(platform.query, ps, n);
    }
  }

  /**
   * In what `buildInit` sends, `state` and `nonce` are the login state's
   * own (not swapped), and `redirect_uri` is the redirect path on the
   * request's host.
   */
  lemma InitRequestParams(request: UrlParts, platform: UrlParts, clientId: string, loginHint: string, ltiMessageHint: string,
                          firstUuid: string, secondUuid: string, now: string)
    ensures var s := BuildOidcState(firstUuid, secondUuid, now);
      var q := AuthRequest(platform, s.state, clientId, loginHint, ltiMessageHint, s.nonce, RedirectUrl(request.host)).query;
      Get(q, "state") == Some(s.state) && Get(q, "state") == Some(secondUuid) &&
      Get(q, "nonce") == Some(s.nonce) && Get(q, "nonce") == Some(firstUuid) &&
      Get(q, "redirect_uri") == Some("https://" + request.host + "/lti/redirect")
  {
    var s := BuildOidcState(firstUuid, secondUuid, now);
    AuthRequestQuery(platform, s.state, clientId, loginHint, ltiMessageHint, s.nonce, RedirectUrl(request.host));
  }

  /**
   * The relaunch URL has no `lti_storage_target` pair left, keeps every
   * other pair in its order and the rest of the URL, and removing again
   * changes nothing.
   */
  lemma RelaunchRemovesStorageTarget(request: UrlParts)
    ensures GetAll(RelaunchParts(request).query, LtiStorageTarget) == []
    ensures forall n :: n != LtiStorageTarget ==> GetAll(RelaunchParts(request).query, n) == GetAll(request.query, n)
    ensures Sequences.IsSubsequence(RelaunchParts(request).query, request.query)
    ensures |RelaunchParts(request).query| == |request.query| - |GetAll(request.query, LtiStorageTarget)|
    ensures RelaunchParts(request).(query := request.query) == request
    ensures RelaunchParts(RelaunchParts(request)) == RelaunchParts(request)
  {
    WithoutSpec(request.query, {LtiStorageTarget});
    DeleteCount(request.query, LtiStorageTarget);
    DeleteIdempotent(request.query, LtiStorageTarget);
  }
}
