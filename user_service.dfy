/** The identity read path: find the `id_token` cookie, verify it against
    the user pool's issuer, check its `token_use`, and project a minimal
    profile. Signature verification and the signing-key cache belong to the
    JWT library; here they are the oracle `verify(token, issuer)`, which
    yields the token's payload or nothing when verification throws. */
module UserService {
  import opened Js
  import opened Http
  import opened Environment
  import AuthService

  /** `ISSUER`, built from the region and user-pool id. */
  function Issuer(cfg: Config): string
  {
    "https://cognito-idp." + cfg.region + ".amazonaws.com/" + cfg.userPoolId
  }

  /** `getCookieHeader`: a non-empty `cookies` array, joined with "; ", wins
      over the `cookie`/`Cookie` header. */
  function GetCookieHeader(e: Event): (r: string)
    ensures HasCookieArray(e) ==> r == Join(e.cookies.value, "; ")
    ensures !HasCookieArray(e) ==> r == HeaderCookie(e)
  {
    if HasCookieArray(e) then JoinedCookies(e) else HeaderCookie(e)
  }

  /** The minimal profile. `sub` is copied as it is (None is `undefined`);
      the other three carry their defaults. */
  datatype Profile = Profile(sub: Option<Json>, email: Json, givenName: Json, familyName: Json)

  /** The errors `meFromCookies` throws. */
  datatype MeError =
    | MissingToken      // "missing_token"
    | InvalidToken      // thrown by the verification library
    | NotAccessToken    // "not_access_token"

  /** `v || fallback` for a property that may be `undefined`. */
  function OrElse(o: Option<Json>, fallback: Json): Json
  {
    if TruthyProp(o) then o.value else fallback
  }

  /** The profile of a verified payload. The defaults are asymmetric:
      `email` and `given_name` fall back to null, `family_name` to "", each
      exactly when its claim is falsy, and a truthy claim is copied; `sub`
      is copied even when absent. */
  function ProfileOf(payload: Json): (r: Profile)
    ensures r.sub == Prop(payload, "sub")
    ensures r.email == JNull <==> !TruthyProp(Prop(payload, "email"))
    ensures r.givenName == JNull <==> !TruthyProp(Prop(payload, "given_name"))
    ensures r.familyName == JStr("") <==> !TruthyProp(Prop(payload, "family_name"))
    ensures TruthyProp(Prop(payload, "email")) ==> r.email == Prop(payload, "email").value
    ensures TruthyProp(Prop(payload, "given_name")) ==> r.givenName == Prop(payload, "given_name").value
    ensures TruthyProp(Prop(payload, "family_name")) ==> r.familyName == Prop(payload, "family_name").value
  {
    Profile(Prop(payload, "sub"),
            OrElse(Prop(payload, "email"), JNull),
            OrElse(Prop(payload, "given_name"), JNull),
            OrElse(Prop(payload, "family_name"), JStr("")))
  }

  /** The `token_use` guard rejects a payload whose `token_use` is truthy
      and not the string "id". Stated member by member: the payload is an
      object whose last `token_use` member holds such a value. */
  function WrongTokenUse(payload: Json): (r: bool)
    ensures r <==> payload.JObj? && exists i :: IsLastMember(payload.members, i, "token_use")
                                               && Truthy(payload.members[i].1)
                                               && payload.members[i].1 != JStr("id")
  {
    match payload
    case JObj(ms) =>
      LastMemberIsLast(ms, "token_use");
      LastMemberAt(ms, "token_use");
      TruthyProp(Prop(payload, "token_use")) && Prop(payload, "token_use") != Some(JStr("id"))
    case _ => false  // any other value has no `token_use` to read
  }

  /** `meFromCookies`. */
  function MeFromCookies(cfg: Config, parseCookies: string -> map<string, string>,
                         verify: (string, string) -> Option<Json>, e: Event)
    : (r: Result<Profile, MeError>)
    ensures var token := Lookup(parseCookies(GetCookieHeader(e)), "id_token");
      && (r == Err(MissingToken) <==> !Present(token))
      && (Present(token) ==>
            && (r == Err(InvalidToken) <==> verify(token.value, Issuer(cfg)).None?)
            && (r.Ok? <==> verify(token.value, Issuer(cfg)).Some?
                           && !WrongTokenUse(verify(token.value, Issuer(cfg)).value))
            && (r.Ok? ==> r.value == ProfileOf(verify(token.value, Issuer(cfg)).value)))
  {
    var cookies := parseCookies(GetCookieHeader(e));
    var token := Lookup(cookies, "id_token");
    if !Present(token) then Err(MissingToken)
    else
      match verify(token.value, Issuer(cfg))
      case None => Err(InvalidToken)
      case Some(payload) =>
        if WrongTokenUse(payload) then Err(NotAccessToken)
        else Ok(ProfileOf(payload))
  }

  /** The missing-token check comes before verification: without a usable
      `id_token` cookie the answer is the same whatever the verifier does. */
  lemma MissingTokenBeforeVerification(cfg: Config, parseCookies: string -> map<string, string>,
                                       verify1: (string, string) -> Option<Json>,
                                       verify2: (string, string) -> Option<Json>, e: Event)
    requires !Present(Lookup(parseCookies(GetCookieHeader(e)), "id_token"))
    ensures MeFromCookies(cfg, parseCookies, verify1, e) == Err(MissingToken)
    ensures MeFromCookies(cfg, parseCookies, verify1, e) == MeFromCookies(cfg, parseCookies, verify2, e)
  {
  }

  /** A payload without the claim passes the guard. */
  lemma TokenUseGuard(members: seq<(string, Json)>)
    requires forall i :: 0 <= i < |members| ==> members[i].0 != "token_use"
    ensures !WrongTokenUse(JObj(members))
  {
    LastMemberIsLast(members, "token_use");
  }

  /** A final `token_use` member decides the guard alone, whatever comes
      before it, earlier `token_use` members included: it is rejected
      exactly when its value is truthy and not "id", so an identity token
      and an empty claim pass and an access token does not. */
  lemma FinalTokenUseDecides(members: seq<(string, Json)>, v: Json)
    ensures WrongTokenUse(JObj(members + [("token_use", v)])) <==> Truthy(v) && v != JStr("id")
  {
    var ms := members + [("token_use", v)];
    assert IsLastMember(ms, |ms| - 1, "token_use");
  }

  /** The two services read cookies with opposite precedence: here a
      non-empty `cookies` array wins, in the session service the header
      does. They disagree only when both are supplied. */
  lemma CookieSourcePrecedence(e: Event)
    ensures HasCookieArray(e) ==> GetCookieHeader(e) == JoinedCookies(e)
    ensures !HasCookieArray(e) ==> GetCookieHeader(e) == HeaderCookie(e)
    ensures HeaderCookie(e) != "" ==> AuthService.ServiceCookieHeader(e) == HeaderCookie(e)
    ensures HeaderCookie(e) == "" && HasCookieArray(e) ==> AuthService.ServiceCookieHeader(e) == JoinedCookies(e)
    ensures GetCookieHeader(e) != AuthService.ServiceCookieHeader(e) ==>
              HeaderCookie(e) != "" && HasCookieArray(e)
  {
  }
}
