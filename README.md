# OAuth2 login broker: handshake bookkeeping

This project models the login broker in `server_using_external_oauth2.py`. The
broker lets a relying web service sign its visitors in through GitHub's OAuth2
authorization-code flow. The model keeps the broker's two pieces of
process-wide mutable state:

- the set of outstanding anti-forgery **state tokens** (`secret_states_used`);
- the **redirect-continuation map** from a caller's client id to the URL that
  caller wants to reach after login (`api_login_redirect_url`).

It also models what each route decides over that state once the request and the
provider's answers are known.

Modules:

- `Web` (web.dfy): requests and responses without the web framework.
  - A request is its HTTP method, its query parameters and its cookies.
  - A response is a tagged value: `Redirect(location, setCookies)`, `Json`,
    `Status(code)`, `Text(page)` or `Unspecified`.
  - The authorize URL is a structured `AuthorizeParams` record, not an encoded
    string.
  - Calls to the provider are recorded as `Introspect(token)` and
    `Exchange(code)`.
- `Handshake` (handshake.dfy): each route as a pure step function. It takes the
  state, the request and the provider's answers, and returns an `Outcome`: the
  new state, the response and the provider calls made, in order. The provider
  is an oracle:
  - `introspect: string -> bool` says whether a token is valid;
  - `exchange: Option<string> -> Option<Token>` is the code exchange, where
    `None` means the provider's answer was not OK.
- `Server` (server.dfy): the class `Broker`. Its fields `secretStatesUsed` and
  `loginRedirectUrl` stand for the two globals; the deployment constants
  (`CLIENT_ID` and the callback URL that `url_for` builds) are held in a
  `Config`.
  - There is one method per route, and each updates the fields in place. Each
    method is proved to produce exactly the outcome of its step function.
  - `random.choices` and `uuid4` are modelled as nondeterministic choice
    (`:|`). A state token is any 20 characters from `ascii_lowercase + digits`.
    A client id is any string that starts with `urn:uuid:` and is not yet a
    key of the redirect map.
- `Properties` (properties.dfy): properties that span several requests.
  - Over any sequence of requests, each state token is accepted at most once
    for each time a request issued it in an authorize URL.
  - A replayed callback is not accepted.
  - Repeated logins are idempotent, and a conflicting login is rejected.
  - A failed exchange leaves the caller signed out.
  - `LoginRoundTrip` runs the full login round trip on a `Broker`.

Three behaviours of the code are worth knowing:

- A login rejected with 400 for a conflicting target has already added a state
  token.
- The welcome and index routes also add a state token, because they build an
  authorize URL.
- A callback with an unknown state still does the exchange, and only a log line
  marks it.

## Model

| member | source | states |
|---|---|---|
| Handshake.JoinChoices | server_using_external_oauth2.py:31-35 | the joined string has one character per pick, namely the alphabet character at that position, so its length is the number of picks |
| Server.MakeSecretState | server_using_external_oauth2.py:31-35 | the token is 20 characters, each from `ascii_lowercase + digits` |
| Handshake.SecretStateCharacters | server_using_external_oauth2.py:32-33 | every character of a state token is in `[a-z0-9]` |
| Server.Broker.MakeClientId | server_using_external_oauth2.py:38-40 | the minted id starts with `urn:uuid:` and is not yet a key of the redirect map |
| Server.Broker.constructor | server_using_external_oauth2.py:25-28 | at process start no state token is outstanding and no redirect target is stored |
| Server.Broker.MakeOauthAuthorizeUrl | server_using_external_oauth2.py:43-60 | draws a valid state token and adds exactly that token to the outstanding set; the URL carries the same token as `state`, with `client_id`, `redirect_uri` = callback URL and `scope` = `read:user`; the redirect map is unchanged |
| Handshake.IsAuthenticated | server_using_external_oauth2.py:97-102 | with no token cookie: false and no introspection call; with one: exactly one introspection call of that token, whose answer is the result |
| Handshake.Callback | server_using_external_oauth2.py:133-153 | an outstanding state is removed, any other leaves the set unchanged; the code exchange is always the one provider call; a failed exchange gives status 500 and no cookie; a successful one redirects to the stored target iff a client-id cookie is present and is a key of the map, else to welcome, and sets `authentication-token` to the provider's token; the redirect map never changes |
| Server.Broker.Callback | server_using_external_oauth2.py:133-153 | the in-place callback produces exactly the state, response and calls of `Handshake.Callback` |
| Handshake.Login | server_using_external_oauth2.py:172-202 | no `redirect_url`: 400, no state change, no provider call; already authenticated: redirect to `redirect_url`, no state change; otherwise one state token is always added; a stored target different from `redirect_url` gives 400 and stays; else the target is stored and the caller is redirected to the authorize URL, with a `client-id` cookie set iff none was sent |
| Server.Broker.Login | server_using_external_oauth2.py:172-202 | the in-place login produces exactly the outcome of `Handshake.Login`, for a valid drawn token and, for a caller without a cookie, a client id not yet in the map |
| Handshake.WelcomePage | server_using_external_oauth2.py:116-130 | no token cookie: the not-authenticated page; a valid token: the welcome page; an invalid token: a re-login page whose authorize URL's state token is added; one introspection call exactly when there is a token; the redirect map is unchanged |
| Server.Broker.Welcome | server_using_external_oauth2.py:116-130 | the in-place welcome route produces exactly the outcome of `Handshake.WelcomePage` |
| Handshake.Api | server_using_external_oauth2.py:105-113 | the content payload is returned iff the caller is authenticated and the method is GET; an authenticated non-GET gets the not-implemented page; the state is unchanged |
| Server.Broker.Api | server_using_external_oauth2.py:105-113 | the protected resource answers as `Handshake.Api` and changes nothing |
| Handshake.LoginStatus | server_using_external_oauth2.py:164-169 | a JSON `status` of "authenticated" iff the session check succeeds, "not authenticated" otherwise; the state is unchanged |
| Server.Broker.LoginStatus | server_using_external_oauth2.py:164-169 | the status route answers as `Handshake.LoginStatus` and changes nothing |
| Handshake.Index | server_using_external_oauth2.py:156-161 | the index page carries an authorize URL whose state token is added to the set, and nothing else changes |
| Server.Broker.Index | server_using_external_oauth2.py:156-161 | the in-place index route produces exactly the outcome of `Handshake.Index` for a valid drawn token |
| Properties.StepStates | server_using_external_oauth2.py:138-141 | a callback that accepts a token removes it; a token can only be outstanding after any request if it was before or that request issued it on a branch that builds an authorize URL |
| Properties.StateTokenSingleUse | server_using_external_oauth2.py:138-141 | over any sequence of requests, acceptances of a token plus its still being outstanding never exceed the times a request issued it in an authorize URL plus its being outstanding at the start |
| Properties.AcceptedOnlyAsDrawn | server_using_external_oauth2.py:138-141 | from process start, a token never issued is never accepted, and a token issued once is accepted at most once |
| Properties.ReplayedStateNotAccepted | server_using_external_oauth2.py:138-142 | after a callback consumes a state, a second callback with the same state finds it absent, changes nothing and still exchanges its code |
| Properties.FailedExchangeStaysUnauthenticated | server_using_external_oauth2.py:142-144 | a failed exchange gives 500, sets no cookie and leaves the map; a caller who had no token cookie then sees "not authenticated" with no provider call |
| Properties.LoginRepeatIsIdempotent | server_using_external_oauth2.py:190-202 | for an unauthenticated caller, a second login with the same target and the cookies from the first leaves the map as the first left it and redirects to the provider again without setting a cookie |
| Properties.LoginConflictKeepsTarget | server_using_external_oauth2.py:196-200 | for an unauthenticated caller, a second login from the same caller with a different target gives 400, keeps the first target stored, and still adds its state token |
| Properties.LoginRoundTrip | server_using_external_oauth2.py:105-202 | on a fresh broker, login then callback then API access sets a `client-id` cookie, lands the caller on its own target with the token cookie and returns the protected payload, and leaves no state token outstanding |

## Left out

- The web framework: routing, `url_for`, reading `request.cookies` and `request.args`, the `Response` and `redirect` objects, and the HTML text of the pages. Requests and responses are plain values.
- URL encoding (`urlencode`) and response parsing (`parse_qs`): the authorize URL and the provider's token answer are structured records.
- The `KeyError` raised when the provider's answer is OK but lacks a field (line 84): the exchange oracle yields either a token or `None`.
- The HTTP calls to GitHub (`post` at lines 72 and 93): network I/O. They become the `exchange` and `introspect` oracles, and each call is recorded in the outcome's list of provider calls, which stands in for a call counter.
- `random.choices` and `uuid4`: entropy cannot be verified. They are modelled as nondeterministic choice with the stated length and alphabet, and a minted client id is assumed fresh.
- Server.Broker.MakeClientId: does not model the 36-character UUID text after `urn:uuid:`, only the prefix and the freshness that the model assumes.
- Handshake.Api: does not claim a 401 status for an unauthenticated caller. `Response(401)` passes 401 as the response body, not as the status, so that branch is the tag `Unspecified`; the model only states that the content payload is not returned.
- `print` logging, including the warning for an unknown callback state; the secrets module that supplies `CLIENT_ID` and `CLIENT_SECRET`; the `app.run` entry point.
- Concurrency and locking: the source uses unsynchronised globals, and the model handles one request at a time.
- Expiry or pruning of the redirect map, and logout: the source has neither.
- site_using_api_login.py is not part of this model: it only forwards HTTP requests to the broker and builds URLs, and it keeps no state.
