/** What the services take from their surroundings: the configuration read
    from the process environment once at start-up, and the library functions
    whose internals are not part of this model. */
module Environment {
  import opened Js

  /** The environment variables the services read; an unset variable is "". */
  datatype Config = Config(
    cognitoDomain: string,
    clientId: string,
    clientSecret: string,
    redirectUri: string,
    frontUrl: string,
    cookieDomain: string,
    logoutRedirect: string,
    region: string,
    userPoolId: string)

  /** Library functions: `parseCookies` (cookie header to name/value
      record) and `JSON.stringify`, both total here, and `JSON.parse` and
      `decodeURIComponent`, which yield None where the JavaScript function
      throws. */
  datatype Host = Host(
    parseCookies: string -> map<string, string>,
    jsonParse: string -> Option<Json>,
    jsonStringify: Json -> string,
    decodeUriComponent: string -> Option<string>)
}
