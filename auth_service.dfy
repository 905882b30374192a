/** The session issuer: the login, callback, refresh and logout transitions
    of the OAuth2 Authorization Code flow with PKCE (RFC 6749 sections
    4.1.1, 4.1.3 and 6; RFC 7636 sections 4.3 and 4.5) against a Cognito
    user pool. Each transition decides which cookie directives to emit and
    where to send the browser. The token endpoint is a function from the
    request sent to the reply received; the requests a transition sends are
    returned beside its result, so "no request" is an empty list. */
module AuthService {
  import opened Js
  import opened SearchParams
  import opened Http
  import opened Environment

  /** Lifetime in seconds of the `auth_tmp` handshake cookie. */
  const HandshakeMaxAge := 300

  /** Lifetime in seconds of the `refresh_token` cookie: thirty days. */
  const RefreshMaxAge := 60 * 60 * 24 * 30

  const FormContentType := "application/x-www-form-urlencoded"

  const InvalidCallback := "Invalid callback"
  const StateMismatch := "State mismatch or missing code_verifier"
  const TokenExchangeFailed := "Token exchange failed"
  const MissingRefreshToken := "Missing refresh token"
  const RefreshFailedError := "Refresh failed"

  /** The TypeError `String(...)` throws for an object it cannot convert. */
  const ConversionError := "TypeError: Cannot convert object to primitive value"

  /** `COMMON_COOKIE`: cross-site, secure, HTTP-only, scoped to the cookie
      domain, with no lifetime of its own. A cross-site cookie is always
      marked secure, as browsers require of `SameSite=None`. */
  function CommonCookie(cfg: Config): (r: CookieOptions)
    ensures r.sameSite == "None" ==> r.secure
    ensures r.sameSite == "None" && r.httpOnly
    ensures r.domain == cfg.cookieDomain && r.maxAge == None
  {
    CookieOptions("None", true, true, cfg.cookieDomain, None)
  }

  /** A directive carries the common attributes, whatever its lifetime. */
  predicate HasCommonAttributes(cfg: Config, d: Directive)
  {
    d.options.(maxAge := None) == CommonCookie(cfg)
  }

  // ---------------------------------------------------------------------
  // Login

  /** The PKCE verifier and its S256 challenge, generated elsewhere. */
  datatype PkcePair = PkcePair(codeVerifier: string, codeChallenge: string)

  /** The object `{state, codeVerifier}` stored, as JSON, in `auth_tmp`. */
  function HandshakeJson(state: string, codeVerifier: string): Json
  {
    JObj([("state", JStr(state)), ("codeVerifier", JStr(codeVerifier))])
  }

  /** The handshake object reads back its own state and verifier. */
  lemma HandshakeJsonFields(state: string, codeVerifier: string)
    ensures Prop(HandshakeJson(state, codeVerifier), "state") == Some(JStr(state))
    ensures Prop(HandshakeJson(state, codeVerifier), "codeVerifier") == Some(JStr(codeVerifier))
  {
    var ms := HandshakeJson(state, codeVerifier).members;
    assert |"state"| != |"codeVerifier"|;
    assert ms[..1] == [("state", JStr(state))];
    assert LastMember(ms[..1], "state") == Some(JStr(state));
  }

  datatype AuthorizeRedirect = AuthorizeRedirect(authorizeUrl: Url, tmpCookie: Directive)

  /** The authorize request's parameters, in order (RFC 6749 section 4.1.1,
      RFC 7636 section 4.3). */
  function AuthorizeQuery(cfg: Config, pkce: PkcePair, state: string): Params
  {
    [("client_id", cfg.clientId),
     ("response_type", "code"),
     ("redirect_uri", cfg.redirectUri),
     ("scope", "openid email profile"),
     ("state", state),
     ("code_challenge_method", "S256"),
     ("code_challenge", pkce.codeChallenge)]
  }

  /** Login: the handshake cookie (state and verifier, five minutes) and the
      authorize URL, whose query names the client, asks for a code with the
      fixed scopes and carries the same state and the S256 challenge. */
  function BuildAuthorizeRedirect(cfg: Config, host: Host, pkce: PkcePair, state: string)
    : (r: AuthorizeRedirect)
    ensures r.tmpCookie == SetCookie("auth_tmp",
                                     host.jsonStringify(HandshakeJson(state, pkce.codeVerifier)),
                                     WithMaxAge(CommonCookie(cfg), HandshakeMaxAge))
    ensures r.authorizeUrl.base == cfg.cognitoDomain + "/oauth2/authorize"
    ensures r.authorizeUrl.query == AuthorizeQuery(cfg, pkce, state)
  {
    var tmpCookie := SetCookie("auth_tmp",
                               host.jsonStringify(HandshakeJson(state, pkce.codeVerifier)),
                               WithMaxAge(CommonCookie(cfg), HandshakeMaxAge));
    var q0: Params := [];
    SetFresh(q0, "client_id", cfg.clientId);
    var q1 := Set(q0, "client_id", cfg.clientId);
    SetFresh(q1, "response_type", "code");
    var q2 := Set(q1, "response_type", "code");
    SetFresh(q2, "redirect_uri", cfg.redirectUri);
    var q3 := Set(q2, "redirect_uri", cfg.redirectUri);
    SetFresh(q3, "scope", "openid email profile");
    var q4 := Set(q3, "scope", "openid email profile");
    SetFresh(q4, "state", state);
    var q5 := Set(q4, "state", state);
    SetFresh(q5, "code_challenge_method", "S256");
    var q6 := Set(q5, "code_challenge_method", "S256");
    SetFresh(q6, "code_challenge", pkce.codeChallenge);
    var q7 := Set(q6, "code_challenge", pkce.codeChallenge);
    AuthorizeRedirect(Url(cfg.cognitoDomain + "/oauth2/authorize", q7), tmpCookie)
  }

  /** No parameter of the authorize request is named twice. */
  lemma AuthorizeQueryDistinct(cfg: Config, pkce: PkcePair, state: string)
    ensures DistinctNames(AuthorizeQuery(cfg, pkce, state))
  {
  }

  /** The authorize URL carries exactly one `state`, equal to the one in the
      handshake object, and the fixed response type, scopes and challenge
      method; the cookie is `auth_tmp` with a lifetime of 300 seconds. */
  lemma AuthorizeRequestBindsState(cfg: Config, host: Host, pkce: PkcePair, state: string)
    ensures var r := BuildAuthorizeRedirect(cfg, host, pkce, state);
      && Get(r.authorizeUrl.query, "state") == Some(state)
      && Count(r.authorizeUrl.query, "state") == 1
      && Prop(HandshakeJson(state, pkce.codeVerifier), "state") == Some(JStr(state))
      && Get(r.authorizeUrl.query, "response_type") == Some("code")
      && Get(r.authorizeUrl.query, "scope") == Some("openid email profile")
      && Get(r.authorizeUrl.query, "code_challenge_method") == Some("S256")
      && Get(r.authorizeUrl.query, "code_challenge") == Some(pkce.codeChallenge)
      && Get(r.authorizeUrl.query, "client_id") == Some(cfg.clientId)
      && r.tmpCookie.SetCookie? && r.tmpCookie.name == "auth_tmp"
      && r.tmpCookie.options.maxAge == Some(300)
      && HasCommonAttributes(cfg, r.tmpCookie)
  {
    HandshakeJsonFields(state, pkce.codeVerifier);
    var q := AuthorizeQuery(cfg, pkce, state);
    AuthorizeQueryDistinct(cfg, pkce, state);
    GetDistinct(q, 0);
    GetDistinct(q, 1);
    GetDistinct(q, 3);
    GetDistinct(q, 4);
    GetDistinct(q, 5);
    GetDistinct(q, 6);
  }

  // ---------------------------------------------------------------------
  // Token endpoint

  datatype BasicAuth = BasicAuth(user: string, password: string)

  /** A POST to the token endpoint: form body and optional Basic credentials. */
  datatype TokenRequest = TokenRequest(
    url: string,
    contentType: string,
    authorization: Option<BasicAuth>,
    form: Params)

  /** The token record of a successful reply; an absent token is "". */
  datatype TokenSet = TokenSet(
    accessToken: string,
    idToken: string,
    refreshToken: string,
    expiresIn: int)

  /** The endpoint's reply: `res.ok` with its parsed body, or not, with its text. */
  datatype TokenReply = TokenOk(tokens: TokenSet) | TokenNotOk(body: string)

  function TokenUrl(cfg: Config): string
  {
    cfg.cognitoDomain + "/oauth2/token"
  }

  /** The authorization-code grant: Basic client credentials, and the code
      and PKCE verifier in the form (RFC 6749 section 4.1.3, RFC 7636
      section 4.5). */
  function CodeGrantRequest(cfg: Config, code: string, codeVerifier: string): TokenRequest
  {
    TokenRequest(TokenUrl(cfg), FormContentType,
                 Some(BasicAuth(cfg.clientId, cfg.clientSecret)),
                 [("grant_type", "authorization_code"),
                  ("client_id", cfg.clientId),
                  ("redirect_uri", cfg.redirectUri),
                  ("code", code),
                  ("code_verifier", codeVerifier)])
  }

  /** The refresh grant: the client id and refresh token, without Basic
      credentials (RFC 6749 section 6). */
  function RefreshGrantRequest(cfg: Config, refreshToken: string): TokenRequest
  {
    TokenRequest(TokenUrl(cfg), FormContentType, None,
                 [("grant_type", "refresh_token"),
                  ("client_id", cfg.clientId),
                  ("refresh_token", refreshToken)])
  }

  /** The code grant names its type once and carries the query's code and
      the handshake's verifier, behind the client's Basic credentials. */
  lemma CodeGrantCarriesVerifier(cfg: Config, code: string, verifier: string)
    ensures var c := CodeGrantRequest(cfg, code, verifier);
      && Get(c.form, "grant_type") == Some("authorization_code") && Count(c.form, "grant_type") == 1
      && Get(c.form, "code") == Some(code) && Count(c.form, "code") == 1
      && Get(c.form, "code_verifier") == Some(verifier) && Count(c.form, "code_verifier") == 1
      && Get(c.form, "client_id") == Some(cfg.clientId)
      && c.authorization == Some(BasicAuth(cfg.clientId, cfg.clientSecret))
      && c.url == cfg.cognitoDomain + "/oauth2/token"
  {
    var c := CodeGrantRequest(cfg, code, verifier).form;
    assert DistinctNames(c);
    GetDistinct(c, 0);
    GetDistinct(c, 1);
    GetDistinct(c, 3);
    GetDistinct(c, 4);
  }

  /** The refresh grant names its type once and carries the refresh token,
      and, unlike the code grant, no Basic credentials and no verifier. */
  lemma RefreshGrantOmitsBasicAuth(cfg: Config, refreshToken: string)
    ensures var g := RefreshGrantRequest(cfg, refreshToken);
      && Get(g.form, "grant_type") == Some("refresh_token") && Count(g.form, "grant_type") == 1
      && Get(g.form, "refresh_token") == Some(refreshToken)
      && Get(g.form, "client_id") == Some(cfg.clientId)
      && Get(g.form, "code_verifier") == None
      && g.authorization == None
      && g.url == cfg.cognitoDomain + "/oauth2/token"
  {
    var g := RefreshGrantRequest(cfg, refreshToken).form;
    assert DistinctNames(g);
    GetDistinct(g, 0);
    GetDistinct(g, 1);
    GetDistinct(g, 2);
    GetMissing(g, "code_verifier");
  }

  /** The `form.set` calls of the code exchange assemble the code grant's form. */
  lemma CodeGrantFormBuilt(cfg: Config, code: string, verifier: string)
    ensures Set(Set(Set(Set(Set([], "grant_type", "authorization_code"), "client_id", cfg.clientId),
                        "redirect_uri", cfg.redirectUri), "code", code), "code_verifier", verifier)
            == CodeGrantRequest(cfg, code, verifier).form
  {
    var f0: Params := [];
    SetFresh(f0, "grant_type", "authorization_code");
    var f1 := Set(f0, "grant_type", "authorization_code");
    SetFresh(f1, "client_id", cfg.clientId);
    var f2 := Set(f1, "client_id", cfg.clientId);
    SetFresh(f2, "redirect_uri", cfg.redirectUri);
    var f3 := Set(f2, "redirect_uri", cfg.redirectUri);
    SetFresh(f3, "code", code);
    var f4 := Set(f3, "code", code);
    SetFresh(f4, "code_verifier", verifier);
  }

  /** The `form.set` calls of the refresh assemble the refresh grant's form. */
  lemma RefreshGrantFormBuilt(cfg: Config, refreshToken: string)
    ensures Set(Set(Set([], "grant_type", "refresh_token"), "client_id", cfg.clientId),
                "refresh_token", refreshToken)
            == RefreshGrantRequest(cfg, refreshToken).form
  {
    var f0: Params := [];
    SetFresh(f0, "grant_type", "refresh_token");
    var f1 := Set(f0, "grant_type", "refresh_token");
    SetFresh(f1, "client_id", cfg.clientId);
    var f2 := Set(f1, "client_id", cfg.clientId);
    SetFresh(f2, "refresh_token", refreshToken);
  }

  // ---------------------------------------------------------------------
  // Callback

  /** The cookie header of `exchangeCodeForTokens` and `refresh`: the
      `cookie`/`Cookie` header wins; the `cookies` array is joined with "; "
      only when the header is empty. */
  function ServiceCookieHeader(e: Event): (r: string)
    ensures HeaderCookie(e) != "" ==> r == HeaderCookie(e)
    ensures HeaderCookie(e) == "" && HasCookieArray(e) ==> r == Join(e.cookies.value, "; ")
    ensures HeaderCookie(e) == "" && !HasCookieArray(e) ==> r == ""
  {
    if HeaderCookie(e) == "" && HasCookieArray(e) then JoinedCookies(e) else HeaderCookie(e)
  }

  /** The value of cookie `name` in the request, as the service reads it. */
  function RequestCookie(host: Host, e: Event, name: string): Option<string>
  {
    Lookup(host.parseCookies(ServiceCookieHeader(e)), name)
  }

  /** `code`, `state` and the `auth_tmp` cookie are all present and non-empty. */
  predicate CallbackInputsPresent(host: Host, e: Event)
  {
    && Present(Lookup(QueryOf(e), "code"))
    && Present(Lookup(QueryOf(e), "state"))
    && Present(RequestCookie(host, e, "auth_tmp"))
  }

  /** The two-stage parse of the handshake cookie: `JSON.parse(raw)`, and if
      that throws, `JSON.parse(decodeURIComponent(raw))`; None when both throw. */
  function DecodeHandshake(host: Host, raw: string): (r: Option<Json>)
    ensures host.jsonParse(raw).Some? ==> r == host.jsonParse(raw)
    ensures host.jsonParse(raw).None? && host.decodeUriComponent(raw).Some? ==>
              r == host.jsonParse(host.decodeUriComponent(raw).value)
    ensures r.Some? <==>
              || host.jsonParse(raw).Some?
              || (host.decodeUriComponent(raw).Some? && host.jsonParse(host.decodeUriComponent(raw).value).Some?)
  {
    match host.jsonParse(raw)
    case Some(v) => Some(v)
    case None =>
      match host.decodeUriComponent(raw)
      case Some(decoded) => host.jsonParse(decoded)
      case None => None
  }

  /** The decoded handshake of a callback request. */
  function CallbackHandshake(host: Host, e: Event): Option<Json>
    requires CallbackInputsPresent(host, e)
  {
    DecodeHandshake(host, RequestCookie(host, e, "auth_tmp").value)
  }

  /** The CSRF check: the decoded handshake is truthy, its `state` is
      strictly equal to the query's `state`, and its `codeVerifier` is truthy. */
  predicate HandshakeMatches(tmp: Option<Json>, state: string)
  {
    && tmp.Some? && Truthy(tmp.value)
    && Prop(tmp.value, "state") == Some(JStr(state))
    && TruthyProp(Prop(tmp.value, "codeVerifier"))
  }

  /** The verifier sent to the token endpoint: `String(tmp.codeVerifier)`,
      None where that conversion throws. */
  function HandshakeVerifier(tmp: Json): Option<string>
    requires TruthyProp(Prop(tmp, "codeVerifier"))
  {
    Text(Prop(tmp, "codeVerifier").value)
  }

  datatype CallbackResult =
    | CallbackFailed(error: string, details: Option<string>, status: int)
    | SignedIn(tokens: TokenSet, cookiesOut: seq<Directive>, redirectTo: string, status: int)
    | CallbackThrew(error: string)

  /** The cookies of a completed sign-in, in order: access and id tokens
      living as long as the tokens, the cleared handshake, and the refresh
      token for thirty days when one was issued. */
  function SessionCookies(cfg: Config, t: TokenSet): seq<Directive>
  {
    [SetCookie("access_token", t.accessToken, WithMaxAge(CommonCookie(cfg), t.expiresIn)),
     SetCookie("id_token", t.idToken, WithMaxAge(CommonCookie(cfg), t.expiresIn)),
     ClearCookie("auth_tmp", CommonCookie(cfg))]
    + (if t.refreshToken != ""
       then [SetCookie("refresh_token", t.refreshToken, WithMaxAge(CommonCookie(cfg), RefreshMaxAge))]
       else [])
  }

  /** The callback's answer to the token endpoint's reply. */
  function CallbackFromReply(cfg: Config, reply: TokenReply): CallbackResult
  {
    match reply
    case TokenNotOk(body) => CallbackFailed(TokenExchangeFailed, Some(body), 502)
    case TokenOk(t) => SignedIn(t, SessionCookies(cfg, t), cfg.frontUrl, 302)
  }

  /** `exchangeCodeForTokens`: validate the query and the handshake cookie,
      in that order, before any request; then exchange the code and set the
      session cookies. A verifier that cannot be converted to a string makes
      `form.set` throw, so the call rejects before any request. */
  method ExchangeCodeForTokens(cfg: Config, host: Host, e: Event, endpoint: TokenRequest -> TokenReply)
    returns (result: CallbackResult, sent: seq<TokenRequest>)
    ensures !CallbackInputsPresent(host, e) ==>
              result == CallbackFailed(InvalidCallback, None, 400) && sent == []
    ensures CallbackInputsPresent(host, e)
            && !HandshakeMatches(CallbackHandshake(host, e), QueryOf(e)["state"]) ==>
              result == CallbackFailed(StateMismatch, None, 400) && sent == []
    ensures CallbackInputsPresent(host, e)
            && HandshakeMatches(CallbackHandshake(host, e), QueryOf(e)["state"])
            && HandshakeVerifier(CallbackHandshake(host, e).value).None? ==>
              result == CallbackThrew(ConversionError) && sent == []
    ensures CallbackInputsPresent(host, e)
            && HandshakeMatches(CallbackHandshake(host, e), QueryOf(e)["state"])
            && HandshakeVerifier(CallbackHandshake(host, e).value).Some? ==>
              && sent == [CodeGrantRequest(cfg, QueryOf(e)["code"],
                                           HandshakeVerifier(CallbackHandshake(host, e).value).value)]
              && result == CallbackFromReply(cfg, endpoint(sent[0]))
  {
    var qs := QueryOf(e);
    var code, state := Lookup(qs, "code"), Lookup(qs, "state");

    var cookieHeader := HeaderCookie(e);
    if cookieHeader == "" && HasCookieArray(e) {
      cookieHeader := JoinedCookies(e);
    }
    var cookies := host.parseCookies(cookieHeader);
    var tmpRaw := Lookup(cookies, "auth_tmp");
    assert tmpRaw == RequestCookie(host, e, "auth_tmp");
    if !Present(code) || !Present(state) || !Present(tmpRaw) {
      return CallbackFailed(InvalidCallback, None, 400), [];
    }

    var tmp := host.jsonParse(tmpRaw.value);
    if tmp.None? {
      var decoded := host.decodeUriComponent(tmpRaw.value);
      if decoded.Some? {
        tmp := host.jsonParse(decoded.value);
      }
    }
    assert tmp == CallbackHandshake(host, e);

    if !(tmp.Some? && Truthy(tmp.value))
       || Prop(tmp.value, "state") != Some(JStr(state.value))
       || !TruthyProp(Prop(tmp.value, "codeVerifier"))
    {
      return CallbackFailed(StateMismatch, None, 400), [];
    }
    assert HandshakeMatches(tmp, state.value);

    var form: Params := [];
    form := Set(form, "grant_type", "authorization_code");
    form := Set(form, "client_id", cfg.clientId);
    form := Set(form, "redirect_uri", cfg.redirectUri);
    form := Set(form, "code", code.value);
    var verifier := Text(Prop(tmp.value, "codeVerifier").value);
    assert verifier == HandshakeVerifier(CallbackHandshake(host, e).value);
    if verifier.None? {
      return CallbackThrew(ConversionError), [];
    }
    form := Set(form, "code_verifier", verifier.value);
    CodeGrantFormBuilt(cfg, code.value, verifier.value);

    var request := TokenRequest(TokenUrl(cfg), FormContentType,
                                Some(BasicAuth(cfg.clientId, cfg.clientSecret)), form);
    sent := [request];
    var res := endpoint(request);
    if res.TokenNotOk? {
      return CallbackFailed(TokenExchangeFailed, Some(res.body), 502), sent;
    }

    var tokens := res.tokens;
    var cookiesOut := [
      SetCookie("access_token", tokens.accessToken, WithMaxAge(CommonCookie(cfg), tokens.expiresIn)),
      SetCookie("id_token", tokens.idToken, WithMaxAge(CommonCookie(cfg), tokens.expiresIn)),
      ClearCookie("auth_tmp", CommonCookie(cfg))
    ];
    if tokens.refreshToken != "" {
      cookiesOut := cookiesOut + [SetCookie("refresh_token", tokens.refreshToken,
                                            WithMaxAge(CommonCookie(cfg), 60 * 60 * 24 * 30))];
    }
    assert cookiesOut == SessionCookies(cfg, tokens);
    result := SignedIn(tokens, cookiesOut, cfg.frontUrl, 302);
  }

  /** A completed sign-in emits the access and id tokens for `expiresIn`
      seconds, then clears `auth_tmp`, then sets `refresh_token` for 2592000
      seconds exactly when a refresh token was issued; it never sets
      `auth_tmp`, every directive has the common attributes, and it
      redirects (302) to the front end. */
  lemma SignedInCookies(cfg: Config, t: TokenSet)
    ensures var r := CallbackFromReply(cfg, TokenOk(t));
      && r.SignedIn? && r.status == 302 && r.redirectTo == cfg.frontUrl
      && |r.cookiesOut| >= 3
      && r.cookiesOut[0] == SetCookie("access_token", t.accessToken, WithMaxAge(CommonCookie(cfg), t.expiresIn))
      && r.cookiesOut[1] == SetCookie("id_token", t.idToken, WithMaxAge(CommonCookie(cfg), t.expiresIn))
      && r.cookiesOut[2] == ClearCookie("auth_tmp", CommonCookie(cfg))
      && ("refresh_token" in SetNames(r.cookiesOut) <==> t.refreshToken != "")
      && (t.refreshToken != "" ==>
            r.cookiesOut == r.cookiesOut[..3]
                            + [SetCookie("refresh_token", t.refreshToken, WithMaxAge(CommonCookie(cfg), 2592000))])
      && (t.refreshToken == "" ==> |r.cookiesOut| == 3)
      && "auth_tmp" !in SetNames(r.cookiesOut)
      && "auth_tmp" in ClearedNames(r.cookiesOut)
      && (forall d | d in r.cookiesOut :: HasCommonAttributes(cfg, d))
  {
    var cs := SessionCookies(cfg, t);
    if t.refreshToken != "" {
      assert cs[3].name == "refresh_token";
    }
    assert cs[2].ClearCookie? && cs[2].name == "auth_tmp";
  }

  /** A handshake cookie that reaches the callback as login wrote it, or
      percent-encoded on the way, decodes to the login's object as long as
      `JSON.parse` reads back what `JSON.stringify` wrote; the callback then
      accepts exactly the login's state, and exchanges the code with the
      login's verifier. */
  lemma LoginHandshakeAcceptedAtCallback(
    cfg: Config, host: Host, pkce: PkcePair, state: string, raw: string, queryState: string, code: string)
    requires pkce.codeVerifier != ""
    requires var json := HandshakeJson(state, pkce.codeVerifier);
             host.jsonParse(host.jsonStringify(json)) == Some(json)
    requires var written := BuildAuthorizeRedirect(cfg, host, pkce, state).tmpCookie.value;
             || raw == written
             || (host.jsonParse(raw) == None && host.decodeUriComponent(raw) == Some(written))
    ensures var tmp := DecodeHandshake(host, raw);
      && tmp == Some(HandshakeJson(state, pkce.codeVerifier))
      && (HandshakeMatches(tmp, queryState) <==> queryState == state)
      && (queryState == state ==>
            && HandshakeVerifier(tmp.value) == Some(pkce.codeVerifier)
            && Get(CodeGrantRequest(cfg, code, HandshakeVerifier(tmp.value).value).form, "code_verifier")
                 == Some(pkce.codeVerifier))
  {
    var json := HandshakeJson(state, pkce.codeVerifier);
    var written := host.jsonStringify(json);
    assert BuildAuthorizeRedirect(cfg, host, pkce, state).tmpCookie.value == written;
    if raw == written {
      assert DecodeHandshake(host, raw) == Some(json);
    } else {
      assert DecodeHandshake(host, raw) == host.jsonParse(written);
    }
    HandshakeJsonFields(state, pkce.codeVerifier);
    assert HandshakeVerifier(json) == Some(pkce.codeVerifier);
    CodeGrantCarriesVerifier(cfg, code, pkce.codeVerifier);
  }

  // ---------------------------------------------------------------------
  // Refresh

  datatype RefreshResult =
    | RefreshFailed(error: string, details: Option<string>, status: int)
    | Refreshed(cookiesOut: seq<Directive>, status: int)

  /** The cookies of a refresh: the access token always, the id token only
      when the reply carried one; the refresh token is never re-issued. */
  function RefreshedCookies(cfg: Config, t: TokenSet): seq<Directive>
  {
    [SetCookie("access_token", t.accessToken, WithMaxAge(CommonCookie(cfg), t.expiresIn))]
    + (if t.idToken != ""
       then [SetCookie("id_token", t.idToken, WithMaxAge(CommonCookie(cfg), t.expiresIn))]
       else [])
  }

  /** The refresh's answer to the token endpoint's reply. */
  function RefreshFromReply(cfg: Config, reply: TokenReply): RefreshResult
  {
    match reply
    case TokenNotOk(body) => RefreshFailed(RefreshFailedError, Some(body), 401)
    case TokenOk(t) => Refreshed(RefreshedCookies(cfg, t), 200)
  }

  /** `refresh`: no request without a `refresh_token` cookie; otherwise one
      refresh grant, and the token cookies re-issued from its reply. */
  method Refresh(cfg: Config, host: Host, e: Event, endpoint: TokenRequest -> TokenReply)
    returns (result: RefreshResult, sent: seq<TokenRequest>)
    ensures !Present(RequestCookie(host, e, "refresh_token")) ==>
              result == RefreshFailed(MissingRefreshToken, None, 401) && sent == []
    ensures Present(RequestCookie(host, e, "refresh_token")) ==>
              && sent == [RefreshGrantRequest(cfg, RequestCookie(host, e, "refresh_token").value)]
              && result == RefreshFromReply(cfg, endpoint(sent[0]))
  {
    var cookieHeader := HeaderCookie(e);
    if cookieHeader == "" && HasCookieArray(e) {
      cookieHeader := JoinedCookies(e);
    }
    var cookies := host.parseCookies(cookieHeader);
    var refresh := Lookup(cookies, "refresh_token");
    assert refresh == RequestCookie(host, e, "refresh_token");
    if !Present(refresh) {
      return RefreshFailed(MissingRefreshToken, None, 401), [];
    }

    var form: Params := [];
    form := Set(form, "grant_type", "refresh_token");
    form := Set(form, "client_id", cfg.clientId);
    form := Set(form, "refresh_token", refresh.value);
    RefreshGrantFormBuilt(cfg, refresh.value);

    var request := TokenRequest(TokenUrl(cfg), FormContentType, None, form);
    sent := [request];
    var res := endpoint(request);
    if res.TokenNotOk? {
      return RefreshFailed(RefreshFailedError, Some(res.body), 401), sent;
    }

    var tokens := res.tokens;
    var cookiesOut := [SetCookie("access_token", tokens.accessToken,
                                 WithMaxAge(CommonCookie(cfg), tokens.expiresIn))];
    if tokens.idToken != "" {
      cookiesOut := cookiesOut + [SetCookie("id_token", tokens.idToken,
                                            WithMaxAge(CommonCookie(cfg), tokens.expiresIn))];
    }
    result := Refreshed(cookiesOut, 200);
  }

  /** A successful refresh answers 200, always sets `access_token`, sets
      `id_token` exactly when one was returned, clears nothing and never
      touches `refresh_token`; a rejected one is a 401 with the body. */
  lemma RefreshReissuesTokens(cfg: Config, t: TokenSet, body: string)
    ensures var r := RefreshFromReply(cfg, TokenOk(t));
      && r.Refreshed? && r.status == 200
      && r.cookiesOut[0] == SetCookie("access_token", t.accessToken, WithMaxAge(CommonCookie(cfg), t.expiresIn))
      && ("id_token" in SetNames(r.cookiesOut) <==> t.idToken != "")
      && "refresh_token" !in SetNames(r.cookiesOut)
      && ClearedNames(r.cookiesOut) == {}
      && SetNames(r.cookiesOut) <= {"access_token", "id_token"}
    ensures RefreshFromReply(cfg, TokenNotOk(body)) == RefreshFailed("Refresh failed", Some(body), 401)
  {
    var cs := RefreshedCookies(cfg, t);
    assert cs[0].name == "access_token";
    if t.idToken != "" {
      assert cs[1].name == "id_token";
    }
  }

  // ---------------------------------------------------------------------
  // Logout

  datatype LogoutRedirect = LogoutRedirect(logoutUrl: Url, cookies: seq<Directive>)

  /** Logout: clear all four cookies and send the browser to the user pool's
      logout endpoint, which returns to `LOGOUT_REDIRECT`, or to `FRONT_URL`
      when that is unset. */
  function BuildLogoutRedirect(cfg: Config): (r: LogoutRedirect)
    ensures r.logoutUrl.base == cfg.cognitoDomain + "/logout"
    ensures Get(r.logoutUrl.query, "client_id") == Some(cfg.clientId)
    ensures cfg.logoutRedirect != "" ==> Get(r.logoutUrl.query, "logout_uri") == Some(cfg.logoutRedirect)
    ensures cfg.logoutRedirect == "" ==> Get(r.logoutUrl.query, "logout_uri") == Some(cfg.frontUrl)
    ensures |r.cookies| == 4 && SetNames(r.cookies) == {}
    ensures ClearedNames(r.cookies) == {"access_token", "id_token", "refresh_token", "auth_tmp"}
    ensures forall d | d in r.cookies :: d.ClearCookie? && d.options == CommonCookie(cfg)
  {
    var q0: Params := [];
    var q1 := Set(q0, "client_id", cfg.clientId);
    var q2 := Set(q1, "logout_uri", if cfg.logoutRedirect != "" then cfg.logoutRedirect else cfg.frontUrl);
    var cookies := [ClearCookie("access_token", CommonCookie(cfg)),
                    ClearCookie("id_token", CommonCookie(cfg)),
                    ClearCookie("refresh_token", CommonCookie(cfg)),
                    ClearCookie("auth_tmp", CommonCookie(cfg))];
    assert cookies[0].name == "access_token" && cookies[1].name == "id_token";
    assert cookies[2].name == "refresh_token" && cookies[3].name == "auth_tmp";
    LogoutRedirect(Url(cfg.cognitoDomain + "/logout", q2), cookies)
  }
}
