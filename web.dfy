/** The web boundary of the broker, stripped of the framework: what a request
    carries, what a handler answers, and what the identity provider is asked.
    Cookies and query parameters are maps from names to values; a response is a
    small tagged value instead of a framework object. */
module Web {

  datatype Option<+T> = None | Some(value: T)

  /** Looks a key up the way `dict.get` does: absent keys give `None`. */
  function Get<K, V>(m: map<K, V>, k: K): (r: Option<V>)
    ensures r.Some? <==> k in m
    ensures r.Some? ==> r.value == m[k]
  {
    if k in m then Some(m[k]) else None
  }

  type Cookies = map<string, string>

  /** Names of the two cookies the broker issues (class `CookieKey`). */
  const TokenCookie: string := "authentication-token"
  const ClientIdCookie: string := "client-id"

  /** An inbound request: its HTTP method (`verb`), its query parameters and the
      cookies the browser sent. */
  datatype Request = Request(verb: string, args: map<string, string>, cookies: Cookies)

  /** The query parameters of the provider's authorize URL, before encoding. */
  datatype AuthorizeParams = AuthorizeParams(
    clientId: string,    // the broker's OAuth client id at the provider
    redirectUri: string, // the broker's own callback URL
    scope: string,
    state: string)       // the anti-forgery state token

  /** Where a redirect points. An `Authorize` location stands for
      `https://github.com/login/oauth/authorize` followed by the encoded
      parameters. */
  datatype Location =
    | Authorize(params: AuthorizeParams) // the provider's authorize endpoint
    | Url(url: string)                   // a target URL supplied by a caller
    | Welcome                            // the broker's own welcome route

  /** The text pages the broker answers with (their HTML is not modelled). */
  datatype Page =
    | NotAuthenticatedPage
    | InvalidCookiePage(relogin: AuthorizeParams) // offers a link to re-login
    | AuthenticatedPage
    | MethodNotImplementedPage(verb: string)
    | LoginLinkPage(login: AuthorizeParams)       // the index page's login link

  datatype Response =
    | Redirect(location: Location, setCookies: Cookies)
    | Json(field: string, value: string) // a JSON object with one field
    | Status(code: nat)                  // an empty response with this status
    | Text(page: Page)
    | Unspecified                        // a response whose status is not modelled

  /** What a browser's cookie jar holds after it accepts a response. */
  function AcceptCookies(jar: Cookies, response: Response): (r: Cookies)
    ensures !response.Redirect? ==> r == jar
    ensures response.Redirect? ==>
      r.Keys == jar.Keys + response.setCookies.Keys &&
      forall name :: name in r ==>
        r[name] == (if name in response.setCookies then response.setCookies[name] else jar[name])
  {
    if response.Redirect? then jar + response.setCookies else jar
  }

  /** The provider's answer to a successful code exchange (`Token`). */
  datatype Token = Token(token: string, scope: string, tokenType: string)

  /** One outbound call to the provider: an introspection of a token or an
      exchange of a code (the code is absent when the callback had none). */
  datatype ProviderCall = Introspect(token: string) | Exchange(code: Option<string>)
}
