/** The HTTP handlers of the session routes: each turns the session
    service's result into a response, a redirect with cookie directives or a
    JSON body with a status. */
module AuthController {
  import opened Js
  import opened Http
  import opened SearchParams
  import opened Environment
  import opened AuthService

  /** `login`: redirect to the authorize URL with exactly the handshake cookie. */
  function Login(r: AuthorizeRedirect): (resp: Response)
    ensures resp.Redirect? && resp.location == Built(r.authorizeUrl)
    ensures resp.cookies == [r.tmpCookie]
  {
    Redirect(Built(r.authorizeUrl), [r.tmpCookie])
  }

  /** `callback`: a failure becomes a JSON `{error, details}` with its status
      and no cookies; a sign-in becomes a redirect carrying its cookies; a
      rejected service call rejects the handler too. */
  function Callback(r: CallbackResult): (resp: Response)
    ensures resp.JsonReply? <==> r.CallbackFailed?
    ensures r.CallbackFailed? ==>
              resp.status == r.status && resp.body == ErrorBody(r.error, r.details) && resp.cookies == []
    ensures r.SignedIn? ==>
              resp.Redirect? && resp.location == Link(r.redirectTo) && resp.cookies == r.cookiesOut
    ensures r.CallbackThrew? ==> resp == Rejected(r.error)
  {
    match r
    case CallbackFailed(error, details, status) => JsonReply(status, ErrorBody(error, details), [])
    case SignedIn(_, cookiesOut, redirectTo, _) => Redirect(Link(redirectTo), cookiesOut)
    case CallbackThrew(error) => Rejected(error)
  }

  /** `refresh`: a failure becomes a JSON error with its status; success
      becomes `{ok: true}` with status 200 and the re-issued cookies. */
  function Refresh(r: RefreshResult): (resp: Response)
    ensures resp.JsonReply?
    ensures r.RefreshFailed? ==>
              resp.status == r.status && resp.body == ErrorBody(r.error, r.details) && resp.cookies == []
    ensures r.Refreshed? ==> resp.status == 200 && resp.body == OkBody && resp.cookies == r.cookiesOut
  {
    match r
    case RefreshFailed(error, details, status) => JsonReply(status, ErrorBody(error, details), [])
    case Refreshed(cookiesOut, _) => JsonReply(200, OkBody, cookiesOut)
  }

  /** `logout`: redirect to the logout URL with the service's clearing directives. */
  function Logout(r: LogoutRedirect): (resp: Response)
    ensures resp.Redirect? && resp.location == Built(r.logoutUrl) && resp.cookies == r.cookies
  {
    Redirect(Built(r.logoutUrl), r.cookies)
  }

  /** The login response sets exactly one cookie, `auth_tmp` for 300
      seconds, holding the state that the redirect's URL carries. */
  lemma LoginResponseCarriesHandshake(cfg: Config, host: Host, pkce: PkcePair, state: string)
    ensures var resp := Login(BuildAuthorizeRedirect(cfg, host, pkce, state));
      && resp.Redirect? && resp.location.Built?
      && |resp.cookies| == 1
      && resp.cookies[0] == SetCookie("auth_tmp",
                                      host.jsonStringify(HandshakeJson(state, pkce.codeVerifier)),
                                      WithMaxAge(CommonCookie(cfg), 300))
      && Get(resp.location.url.query, "state") == Some(state)
      && Prop(HandshakeJson(state, pkce.codeVerifier), "state") == Some(JStr(state))
  {
    AuthorizeRequestBindsState(cfg, host, pkce, state);
  }

  /** Every answer the callback can give, over every result the session
      service can produce for a reply `reply` of the token endpoint: a JSON
      error without cookies, either 400 (invalid callback, state mismatch)
      or 502 (rejected exchange, with the endpoint's body); a rejection
      from an unconvertible verifier; or, exactly when the exchange
      succeeded, a redirect to the front end that sets the token cookies,
      clears the handshake and never sets it. */
  lemma CallbackResponseKinds(cfg: Config, r: CallbackResult, reply: TokenReply)
    requires r in {CallbackFailed(InvalidCallback, None, 400), CallbackFailed(StateMismatch, None, 400),
                   CallbackThrew(ConversionError), CallbackFromReply(cfg, reply)}
    ensures var resp := Callback(r);
      && (resp.JsonReply? ==>
            && resp.cookies == []
            && (|| (resp.status == 400 && resp.body == ErrorBody("Invalid callback", None))
                || (resp.status == 400 && resp.body == ErrorBody("State mismatch or missing code_verifier", None))
                || (resp.status == 502 && reply.TokenNotOk?
                    && resp.body == ErrorBody("Token exchange failed", Some(reply.body)))))
      && (resp.Rejected? ==> resp.error == ConversionError)
      && (r == CallbackFromReply(cfg, reply) ==> (resp.Redirect? <==> reply.TokenOk?))
      && (resp.Redirect? ==>
            && reply.TokenOk?
            && resp.location == Link(cfg.frontUrl)
            && {"access_token", "id_token"} <= SetNames(resp.cookies)
            && "auth_tmp" !in SetNames(resp.cookies)
            && "auth_tmp" in ClearedNames(resp.cookies)
            && ("refresh_token" in SetNames(resp.cookies) <==> reply.tokens.refreshToken != ""))
  {
    if reply.TokenOk? && r == CallbackFromReply(cfg, reply) {
      var t := reply.tokens;
      SignedInCookies(cfg, t);
      var cs := SessionCookies(cfg, t);
      assert cs[0].SetCookie? && cs[0].name == "access_token";
      assert cs[1].SetCookie? && cs[1].name == "id_token";
    }
  }

  /** Every answer refresh can give, over every result the session service
      can produce for a reply `reply`: JSON 401 without cookies when the
      refresh token is missing or rejected, else JSON 200 `{ok: true}`,
      exactly when the endpoint accepted, that sets `access_token`, sets
      `id_token` only when one came back, and never sets `refresh_token`. */
  lemma RefreshResponseKinds(cfg: Config, r: RefreshResult, reply: TokenReply)
    requires r in {RefreshFailed(MissingRefreshToken, None, 401), RefreshFromReply(cfg, reply)}
    ensures var resp := Refresh(r);
      && resp.JsonReply? && (resp.status == 401 || resp.status == 200)
      && (resp.status == 401 ==>
            && resp.cookies == []
            && (|| resp.body == ErrorBody("Missing refresh token", None)
                || (reply.TokenNotOk? && resp.body == ErrorBody("Refresh failed", Some(reply.body)))))
      && (r == RefreshFromReply(cfg, reply) ==> (resp.status == 200 <==> reply.TokenOk?))
      && (resp.status == 200 ==>
            && reply.TokenOk? && resp.body == OkBody
            && "access_token" in SetNames(resp.cookies)
            && ("id_token" in SetNames(resp.cookies) <==> reply.tokens.idToken != "")
            && "refresh_token" !in SetNames(resp.cookies))
  {
    if reply.TokenOk? && r == RefreshFromReply(cfg, reply) {
      RefreshReissuesTokens(cfg, reply.tokens, "");
      assert RefreshedCookies(cfg, reply.tokens)[0].name == "access_token";
    }
  }

  /** The logout response clears exactly the four session cookies, sets
      none, and sends the browser to the user pool's logout endpoint. */
  lemma LogoutResponseClearsSession(cfg: Config)
    ensures var resp := Logout(BuildLogoutRedirect(cfg));
      && resp.Redirect? && resp.location.Built?
      && resp.location.url.base == cfg.cognitoDomain + "/logout"
      && ClearedNames(resp.cookies) == {"access_token", "id_token", "refresh_token", "auth_tmp"}
      && SetNames(resp.cookies) == {}
      && |resp.cookies| == 4
  {
  }
}
