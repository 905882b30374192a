# Session lifecycle of a Cognito OAuth2 + PKCE backend, in Dafny

This project models the session logic of a small backend. The backend signs
browsers in to an AWS Cognito user pool with the OAuth2 Authorization Code
flow and PKCE: RFC 6749 sections 4.1.1, 4.1.3 and 6, and RFC 7636 sections
4.3 and 4.5. It also carries the resulting tokens in cookies.

The model has three parts:

- **AuthService** (`auth_service.dfy`) covers four transitions:
  - *login* builds the `auth_tmp` handshake cookie and the authorize URL.
  - *callback* validates the query and the handshake in a fixed order. Then it exchanges the code and picks the cookies to set and to clear.
  - *refresh* re-issues the token cookies.
  - *logout* clears every cookie and builds the logout URL.

  The callback and refresh update variables step by step in the source, so they are imperative methods. Each is proved against specification functions. Login and logout are pure functions.
- **UserService** (`user_service.dfy`) finds the `id_token` cookie and verifies it against the user pool's issuer. Then it applies the `token_use` guard and projects a minimal profile.
- **AuthController** (`auth_controller.dfy`) maps each service result to an HTTP response: a redirect with cookie directives, or a JSON body with a status.

Supporting modules:

- `js.dfy` covers JavaScript values: `undefined`, JSON values, truthiness, property reads that keep the last duplicate key, `join`, and `String(v)`, which throws for an object with its own `toString` member and for an array holding one.
- `search_params.dfy` covers `URLSearchParams.set`/`get`.
- `http.dfy` covers the inbound event, cookie directives, URLs and responses.
- `environment.dfy` covers the configuration and the library functions.

Things outside the process are parameters:

- The token endpoint is a function `TokenRequest -> TokenReply`. The callback and refresh methods return the list of requests they sent. "No request before validation passes" therefore reads as `sent == []`.
- JWT verification is a function `verify(token, issuer)`. It yields the payload, or nothing when the library throws.
- `JSON.parse`, `JSON.stringify`, `decodeURIComponent` and `parseCookies` are functions in `Host`. `JSON.parse` and `decodeURIComponent` are partial: they yield nothing where the JavaScript function throws. `JSON.stringify` and `parseCookies` are total.
- The PKCE pair and the state are inputs.

## Model

| member | source | states |
|---|---|---|
| `SearchParams.Set` | src/service/AuthService.mjs:28-34 | after `set(k, v)`, `k` occurs exactly once and has value `v`; a name not yet present is appended at the end |
| `SearchParams.SetLeavesOthers` | src/service/AuthService.mjs:68-73 | `set(k, v)` leaves the first value and the count of every other name unchanged |
| `Js.LastMemberIsLast` | src/service/AuthService.mjs:64 | a property read on a parsed object finds a value exactly when a member has that name, and the value it finds belongs to the last such member |
| `Js.LastMemberAt` | src/service/AuthService.mjs:64 | whichever member is the last one with the name, the read returns its value |
| `Js.TextFailsExactlyOnUnprintable` | src/service/AuthService.mjs:73 | converting the verifier to a string throws if and only if it is an object with its own `toString` member, or an array holding one at any depth; a string converts to itself |
| `Http.HeaderCookie` | src/service/AuthService.mjs:44 | the `cookie` header wins when non-empty, then the `Cookie` header; the result is "" if and only if neither is a non-empty string |
| `AuthService.CommonCookie` | src/service/AuthService.mjs:14 | the common attributes are `SameSite=None`, secure, HTTP-only and the configured domain, with no lifetime; a cross-site cookie is always secure |
| `AuthService.ServiceCookieHeader` | src/service/AuthService.mjs:44-47 | the header wins; the `cookies` array, joined with "; ", is used only when the header is empty; the result is "" when neither is supplied |
| `AuthService.DecodeHandshake` | src/service/AuthService.mjs:54-62 | the first `JSON.parse` wins when it succeeds; otherwise the percent-decoded cookie is parsed; the result is `undefined` if and only if both paths throw |
| `AuthService.BuildAuthorizeRedirect` | src/service/AuthService.mjs:17-36 | the handshake cookie is `auth_tmp` and holds `JSON.stringify({state, codeVerifier})`, with the common attributes and max-age 300; the authorize URL's query is exactly `client_id`, `response_type=code`, `redirect_uri`, `scope=openid email profile`, `state`, `code_challenge_method=S256`, `code_challenge`, in that order |
| `AuthService.AuthorizeRequestBindsState` | src/service/AuthService.mjs:21-32 | the URL carries exactly one `state`, and it equals the `state` of the handshake object; it also carries the fixed response type, scope and challenge method |
| `AuthService.HandshakeJsonFields` | src/service/AuthService.mjs:23 | the handshake object reads back its own `state` and `codeVerifier` |
| `AuthService.CodeGrantFormBuilt` | src/service/AuthService.mjs:68-73 | the five `form.set` calls build the form `grant_type=authorization_code`, `client_id`, `redirect_uri`, `code`, `code_verifier` |
| `AuthService.CodeGrantCarriesVerifier` | src/service/AuthService.mjs:68-83 | the code grant names its type once, carries the code and the verifier once each, and is sent to `/oauth2/token` with Basic client credentials |
| `AuthService.ExchangeCodeForTokens` | src/service/AuthService.mjs:40-105 | missing or empty `code`, `state` or `auth_tmp` gives 400 "Invalid callback" with no request sent; otherwise a handshake that is falsy, has a different `state` or has a falsy `codeVerifier` gives 400 "State mismatch or missing code_verifier" with no request sent; otherwise a verifier that cannot be converted to a string makes the call reject with a TypeError, with no request sent; otherwise exactly one code grant is sent, carrying the verifier as a string, and the result is the callback's answer to the endpoint's reply |
| `AuthService.SignedInCookies` | src/service/AuthService.mjs:92-104 | a sign-in sets `access_token` and then `id_token`, each with max-age `expiresIn`, then clears `auth_tmp`, then sets `refresh_token` with max-age 2592000 if and only if one was issued; it never sets `auth_tmp`, every directive has the common attributes, and it is a 302 to `FRONT_URL` |
| `AuthService.LoginHandshakeAcceptedAtCallback` | src/service/AuthService.mjs:54-66 | if `JSON.parse` reads back what `JSON.stringify` wrote, then login's cookie decodes to the handshake object, whether it arrives as written or percent-encoded (the second parse); the check accepts a query `state` if and only if it is the login's state; the verifier then converts to the login's verifier, and the code grant carries it |
| `AuthService.RefreshGrantFormBuilt` | src/service/AuthService.mjs:117-120 | the three `form.set` calls build the form `grant_type=refresh_token`, `client_id`, `refresh_token` |
| `AuthService.RefreshGrantOmitsBasicAuth` | src/service/AuthService.mjs:117-126 | the refresh grant names its type once and carries the refresh token; unlike the code grant it has no Basic credentials and no verifier |
| `AuthService.Refresh` | src/service/AuthService.mjs:108-143 | a missing or empty `refresh_token` cookie gives 401 "Missing refresh token" with no request sent; otherwise exactly one refresh grant is sent, and the result is refresh's answer to the reply |
| `AuthService.RefreshReissuesTokens` | src/service/AuthService.mjs:128-142 | success is status 200; it sets `access_token` first, sets `id_token` if and only if one was returned, clears nothing and never sets `refresh_token`; a reply that is not ok gives 401 "Refresh failed" with the body as details |
| `AuthService.BuildLogoutRedirect` | src/service/AuthService.mjs:145-158 | the logout URL carries `client_id`, and `logout_uri` is `LOGOUT_REDIRECT` when that is set and `FRONT_URL` otherwise; exactly four clear directives, for `access_token`, `id_token`, `refresh_token` and `auth_tmp`, each with the common attributes; nothing is set |
| `UserService.GetCookieHeader` | src/service/UserService.mjs:11-14 | a non-empty `cookies` array, joined with "; ", wins; otherwise the `cookie`/`Cookie` header order applies |
| `UserService.MeFromCookies` | src/service/UserService.mjs:21-43 | the result is `missing_token` if and only if the `id_token` cookie is missing or empty; otherwise it is the invalid-token error if and only if verification against the issuer built from `REGION` and `USER_POOL_ID` fails; the result is a profile if and only if verification succeeds and the `token_use` guard passes, and the profile is the payload's projection |
| `UserService.MissingTokenBeforeVerification` | src/service/UserService.mjs:25-29 | without a usable `id_token` cookie the answer is `missing_token` whatever the verifier does, so verification is never consulted |
| `UserService.WrongTokenUse` | src/service/UserService.mjs:32 | the guard rejects a payload if and only if it is an object whose last `token_use` member holds a truthy value other than "id" |
| `UserService.TokenUseGuard` | src/service/UserService.mjs:32-34 | a payload without `token_use` passes the guard |
| `UserService.FinalTokenUseDecides` | src/service/UserService.mjs:32-34 | a final `token_use` member with value `v` is rejected if and only if `v` is truthy and not "id", whatever comes before it, earlier `token_use` members included, so "id" and "" pass and "access" does not |
| `UserService.ProfileOf` | src/service/UserService.mjs:37-42 | `sub` is copied as it is; `email` and `given_name` are null, and `family_name` is "", if and only if the claim is falsy; each truthy claim is copied |
| `UserService.CookieSourcePrecedence` | src/service/UserService.mjs:11-14 | here a non-empty `cookies` array wins over the header, while in the session service the header wins; the two disagree only when both are supplied |
| `AuthController.Login` | src/controller/AuthController.mjs:5-8 | redirects to the authorize URL with exactly the one handshake cookie |
| `AuthController.Callback` | src/controller/AuthController.mjs:11-17 | a failed result becomes JSON with its own status, body `{error, details}` and no cookies; a sign-in becomes a redirect to `redirectTo` with its `cookiesOut`; a rejected service call rejects the handler with the same error |
| `AuthController.Refresh` | src/controller/AuthController.mjs:20-26 | a failed result becomes JSON with its own status and `{error, details}`; success becomes JSON 200 `{ok: true}` with the re-issued cookies |
| `AuthController.Logout` | src/controller/AuthController.mjs:28-31 | redirects to the logout URL with exactly the service's clear directives |
| `AuthController.LoginResponseCarriesHandshake` | src/controller/AuthController.mjs:5-8 | the login response sets exactly one cookie, `auth_tmp` with max-age 300; its JSON holds the same `state` as the redirect URL |
| `AuthController.CallbackResponseKinds` | src/controller/AuthController.mjs:11-17 | for every result the service can produce, the callback answers JSON 400 (invalid callback, state mismatch) or JSON 502 (exchange rejected, with the endpoint's body), all without cookies; or rejects with the conversion TypeError; or, if and only if the exchange succeeded, redirects to `FRONT_URL`, setting the token cookies, clearing `auth_tmp` and never setting it, and setting `refresh_token` if and only if one was issued |
| `AuthController.RefreshResponseKinds` | src/controller/AuthController.mjs:20-26 | for every result the service can produce, a refresh answers JSON 401 without cookies (token missing, or rejected with the endpoint's body) or, if and only if the endpoint accepted, JSON 200 `{ok: true}`; the 200 sets `access_token`, sets `id_token` if and only if one came back, and never sets `refresh_token` |
| `AuthController.LogoutResponseClearsSession` | src/controller/AuthController.mjs:28-31 | the logout response clears exactly the four session cookies, sets none, and redirects to the user pool's `/logout` |

## Behaviour of note

The model keeps these behaviours of the code as they are:

- **Undecodable handshake cookie.** An `auth_tmp` value that neither parse can read leaves `tmp` undefined. The request then fails the handshake check and gets 400 "State mismatch or missing code_verifier", not "Invalid callback" (src/service/AuthService.mjs:54-66).
- **Unconvertible verifier.** A handshake whose `codeVerifier` is a truthy object with its own `toString` member passes the check at src/service/AuthService.mjs:64. `form.set` at line 73 then throws a TypeError, so the callback rejects instead of answering, before any request.
- **`token_use` guard.** Only a *truthy* `token_use` other than "id" is rejected, so a present but empty one passes (`FinalTokenUseDecides`). The error is named `not_access_token` even though the guard accepts only "id".
- **Redirect status.** The callback result carries status 302, but the controller's `redirect` call does not pass it on. The response's status comes from `redirect` in `src/utils/http.mjs`.

## Left out

- `src/index.mjs` is not part of this model. It only wires routes to handlers.
- `src/utils/cookies.mjs` is not part of this model (`setCookie`, `clearCookie`, `parseCookies`). Directives stay structured values, not `Set-Cookie` strings. `parseCookies` is a function parameter.
- `src/utils/http.mjs` is not part of this model (`redirect`, `json`). Responses are structured values without headers, and a redirect has no status.
- `src/utils/crypto.mjs` is not part of this model (`makePkcePair`, `randomState`). Randomness, SHA-256 and base64url are outside the model, so the verifier, challenge and state are inputs.
- `src/model/Tokens.mjs` is not part of this model. A token record is four fields, and an absent token is the empty string, the one falsy string. `setCookie` with an `undefined` token value is therefore not distinguished from one with "".
- `src/controller/ProtectedController.mjs`, the handler behind the `me` route, is not part of this model. Only `meFromCookies` is modelled.
- `process.env` is read once into a `Config` value. An unset variable is "". Missing configuration is not checked.
- URL and form serialisation are not modelled: percent-encoding, `url.toString()`, the base64 of the Basic credentials. The authorize URL is assumed to start with an empty query.
- `jose.jwtVerify` and the `createRemoteJWKSet` key cache are a library with a network fetch and internal caching. They are the parameter `verify(token, issuer)`. The different messages the library throws all become `InvalidToken`.
- Asynchrony and the network are left out. The token endpoint is a function from request to reply.
- `ExchangeCodeForTokens`: does not model a rejected `fetch` or a success body that `res.json()` cannot parse. Both throw out of the handler instead of producing a result.
- `Refresh`: the same gaps as `ExchangeCodeForTokens`: a rejected `fetch` and an unparsable success body are not modelled.
- `Host.jsonParse`: a JSON number is represented by its canonical JavaScript text (`String(n)`), and the parser is assumed to produce that text. Nothing in the model enforces it: a parser yielding `JNum("0.0")` or `JNum("-0")` would make a zero truthy and print it unlike JavaScript. Only objects have readable properties, so a property read on any other value is `undefined`.
