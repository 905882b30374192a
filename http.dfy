/** The request/response boundary of the handlers: the inbound event, the
    cookie directives a handler emits, URLs and the HTTP responses. The
    `Set-Cookie` string format and URL serialisation are not modelled:
    directives and URLs stay structured values. */
module Http {
  import opened Js
  import opened SearchParams

  /** An inbound API Gateway event. `query` is `queryStringParameters`,
      `headers` the header record, `cookies` the `cookies` array (None when
      absent or not an array). */
  datatype Event = Event(
    query: Option<map<string, string>>,
    headers: Option<map<string, string>>,
    cookies: Option<seq<string>>)

  /** `event.queryStringParameters || {}` */
  function QueryOf(e: Event): map<string, string>
  {
    if e.query.Some? then e.query.value else map[]
  }

  /** `event.headers?.cookie || event.headers?.Cookie || ""` */
  function HeaderCookie(e: Event): (r: string)
    ensures e.headers.Some? && Present(Lookup(e.headers.value, "cookie")) ==>
              r == e.headers.value["cookie"]
    ensures e.headers.Some? && !Present(Lookup(e.headers.value, "cookie"))
            && Present(Lookup(e.headers.value, "Cookie")) ==>
              r == e.headers.value["Cookie"]
    ensures r == "" <==>
              e.headers.None?
              || (!Present(Lookup(e.headers.value, "cookie")) && !Present(Lookup(e.headers.value, "Cookie")))
  {
    if e.headers.None? then ""
    else
      var h := e.headers.value;
      if Present(Lookup(h, "cookie")) then h["cookie"]
      else if Present(Lookup(h, "Cookie")) then h["Cookie"]
      else ""
  }

  /** `Array.isArray(event.cookies) && event.cookies.length` */
  predicate HasCookieArray(e: Event)
  {
    e.cookies.Some? && |e.cookies.value| > 0
  }

  /** `event.cookies.join("; ")` */
  function JoinedCookies(e: Event): string
    requires HasCookieArray(e)
  {
    Join(e.cookies.value, "; ")
  }

  /** The attributes a cookie directive carries. */
  datatype CookieOptions = CookieOptions(
    sameSite: string,
    secure: bool,
    httpOnly: bool,
    domain: string,
    maxAge: Option<int>)

  /** One `Set-Cookie` directive: set a value, or clear the cookie. */
  datatype Directive =
    | SetCookie(name: string, value: string, options: CookieOptions)
    | ClearCookie(name: string, options: CookieOptions)

  /** `{...options, maxAge: n}` */
  function WithMaxAge(options: CookieOptions, n: int): (r: CookieOptions)
    ensures r.maxAge == Some(n)
    ensures r.(maxAge := options.maxAge) == options
  {
    options.(maxAge := Some(n))
  }

  /** The names a list of directives sets a value for. */
  function SetNames(ds: seq<Directive>): set<string>
  {
    set i | 0 <= i < |ds| && ds[i].SetCookie? :: ds[i].name
  }

  /** The names a list of directives clears. */
  function ClearedNames(ds: seq<Directive>): set<string>
  {
    set i | 0 <= i < |ds| && ds[i].ClearCookie? :: ds[i].name
  }

  /** A URL built with `new URL(base)` and `searchParams.set` calls. */
  datatype Url = Url(base: string, query: Params)

  /** A redirect target: a configured address as it is, or a URL built by
      the service (its `toString()`). */
  datatype Location = Link(href: string) | Built(url: Url)

  /** A JSON body: `{error, details}` or `{ok: true}`. */
  datatype Body = ErrorBody(error: string, details: Option<string>) | OkBody

  /** `redirect(location, cookies)` or `json(status, body, cookies)`; or
      `Rejected` when the handler's promise rejects with `error` instead of
      answering, leaving the response to the platform. */
  datatype Response =
    | Redirect(location: Location, cookies: seq<Directive>)
    | JsonReply(status: int, body: Body, cookies: seq<Directive>)
    | Rejected(error: string)
}
