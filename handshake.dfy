/** The broker's handshake bookkeeping as pure functions: every route is a step
    from the broker's state, the request and the provider's answers to a new
    state, a response and the list of provider calls the route made. The class
    in server.dfy holds the same state in fields and is proved against these. */
module Handshake {
  import opened Web

  /** The process-wide state: the outstanding anti-forgery state tokens and,
      per client id, where to send the caller after login. */
  datatype BrokerState = BrokerState(
    secretStatesUsed: set<string>,
    loginRedirectUrl: map<string, string>)

  /** Everything a route needs to know about the deployment: the broker's
      OAuth client id at the provider and the absolute URL of its callback
      route. */
  datatype Config = Config(clientId: string, callbackUrl: string)

  /** What a stateful route produces. */
  datatype Outcome = Outcome(state: BrokerState, response: Response, calls: seq<ProviderCall>)

  const AsciiLowercase: string := "abcdefghijklmnopqrstuvwxyz"
  const Digits: string := "0123456789"
  /** The characters a state token is drawn from. */
  const Alphabet: string := AsciiLowercase + Digits
  /** The number of characters drawn for one state token. */
  const StateLength: nat := 20
  /** The scope the broker asks the provider for. */
  const Scope: string := "read:user"
  /** The payload of the protected resource (spelling as in the source). */
  const ApiContent: string := "Here you can brose my shiny api."

  /** A draw of the random generator: positions in `Alphabet`. */
  predicate IsDraw(picks: seq<nat>)
  {
    forall i :: 0 <= i < |picks| ==> picks[i] < |Alphabet|
  }

  /** The string spelled by a draw: the characters picked, in order. */
  function JoinChoices(picks: seq<nat>): (r: string)
    requires IsDraw(picks)
    ensures |r| == |picks|
    ensures forall i :: 0 <= i < |picks| ==> r[i] == Alphabet[picks[i]]
  {
    if picks == [] then [] else [Alphabet[picks[0]]] + JoinChoices(picks[1..])
  }

  /** A well-formed state token: twenty characters of `Alphabet`. */
  predicate IsSecretState(s: string)
  {
    |s| == StateLength && forall i :: 0 <= i < |s| ==> s[i] in Alphabet
  }

  /** Every character of a state token is a lower-case ASCII letter or a digit. */
  lemma SecretStateCharacters(s: string)
    requires IsSecretState(s)
    ensures forall i :: 0 <= i < |s| ==> 'a' <= s[i] <= 'z' || '0' <= s[i] <= '9'
  {
  }

  /** The parameters of the authorize URL for one state token. */
  function AuthorizeParamsFor(cfg: Config, token: string): AuthorizeParams
  {
    AuthorizeParams(cfg.clientId, cfg.callbackUrl, Scope, token)
  }

  /** Recording a freshly drawn state token as outstanding. */
  function AddState(s: BrokerState, token: string): BrokerState
  {
    s.(secretStatesUsed := s.secretStatesUsed + {token})
  }

  /** The result of the session check: the verdict and the introspection calls
      it made. */
  datatype Check = Check(authenticated: bool, calls: seq<ProviderCall>)

  /** The session check: authenticated exactly when the token cookie is
      present and the provider's introspection accepts it; the provider is asked
      once when there is a token and not at all otherwise. */
  function IsAuthenticated(cookies: Cookies, introspect: string -> bool): (r: Check)
    ensures TokenCookie !in cookies ==> !r.authenticated && r.calls == []
    ensures TokenCookie in cookies ==>
      r.calls == [Introspect(cookies[TokenCookie])] &&
      r.authenticated == introspect(cookies[TokenCookie])
  {
    match Get(cookies, TokenCookie)
    case None => Check(false, [])
    case Some(token) => Check(introspect(token), [Introspect(token)])
  }

  /** The `state` query parameter names a token that is outstanding. */
  predicate Outstanding(s: BrokerState, req: Request)
  {
    "state" in req.args && req.args["state"] in s.secretStatesUsed
  }

  /** The client id cookie is present and has a redirect target on file. */
  predicate HasContinuation(s: BrokerState, req: Request)
  {
    ClientIdCookie in req.cookies && req.cookies[ClientIdCookie] in s.loginRedirectUrl
  }

  /** The callback route. The state token, when outstanding, is consumed; an
      unknown or replayed one changes nothing and the code is exchanged all
      the same. A failed exchange answers 500 with no cookie. A successful one
      redirects to the target on file for the caller's client id, or else to
      the welcome route, and sets the token cookie to the provider's token.
      The redirect map is never changed. */
  function Callback(s: BrokerState, req: Request, exchange: Option<string> -> Option<Token>): (o: Outcome)
    ensures o.state.loginRedirectUrl == s.loginRedirectUrl
    ensures Outstanding(s, req) ==>
      o.state.secretStatesUsed == s.secretStatesUsed - {req.args["state"]}
    ensures !Outstanding(s, req) ==> o.state.secretStatesUsed == s.secretStatesUsed
    ensures o.calls == [Exchange(Get(req.args, "code"))]
    ensures exchange(Get(req.args, "code")).None? <==> o.response == Status(500)
    ensures exchange(Get(req.args, "code")).Some? ==>
      o.response.Redirect? &&
      o.response.setCookies == map[TokenCookie := exchange(Get(req.args, "code")).value.token] &&
      (o.response.location.Url? <==> HasContinuation(s, req)) &&
      (HasContinuation(s, req) ==>
        o.response.location == Url(s.loginRedirectUrl[req.cookies[ClientIdCookie]])) &&
      (!HasContinuation(s, req) ==> o.response.location == Welcome)
  {
    var code := Get(req.args, "code");
    var consumed :=
      match Get(req.args, "state")
      case Some(st) =>
        if st in s.secretStatesUsed then s.(secretStatesUsed := s.secretStatesUsed - {st}) else s
      case None => s;
    match exchange(code)
    case None => Outcome(consumed, Status(500), [Exchange(code)])
    case Some(token) =>
      var target :=
        match Get(req.cookies, ClientIdCookie)
        case Some(clientId) =>
          if clientId in s.loginRedirectUrl then Url(s.loginRedirectUrl[clientId]) else Welcome
        case None => Welcome;
      Outcome(consumed, Redirect(target, map[TokenCookie := token.token]), [Exchange(code)])
  }

  /** The client id a login request is filed under: the cookie's, or else the
      one minted for this request. */
  function ClientIdOf(req: Request, minted: string): string
  {
    if ClientIdCookie in req.cookies then req.cookies[ClientIdCookie] else minted
  }

  /** A login request whose target differs from the one already on file. */
  predicate Conflicts(s: BrokerState, clientId: string, target: string)
  {
    clientId in s.loginRedirectUrl && s.loginRedirectUrl[clientId] != target
  }

  /** The login route, with `token` the state token drawn for it and `minted`
      the client id minted for a caller without one. A missing `redirect_url`
      answers 400; an authenticated caller is sent straight to the target;
      neither changes the state. Otherwise a state token is always added; a
      target conflicting with the one on file answers 400 and keeps it; any
      other target is filed and the caller is sent to the provider, with a new
      client id cookie when it had none. */
  function Login(s: BrokerState, cfg: Config, req: Request, introspect: string -> bool,
                 token: string, minted: string): (o: Outcome)
    ensures "redirect_url" !in req.args ==> o == Outcome(s, Status(400), [])
    ensures "redirect_url" in req.args ==> o.calls == IsAuthenticated(req.cookies, introspect).calls
    ensures "redirect_url" in req.args && IsAuthenticated(req.cookies, introspect).authenticated ==>
      o.state == s && o.response == Redirect(Url(req.args["redirect_url"]), map[])
    ensures "redirect_url" in req.args && !IsAuthenticated(req.cookies, introspect).authenticated ==>
      var target, clientId := req.args["redirect_url"], ClientIdOf(req, minted);
      o.state.secretStatesUsed == s.secretStatesUsed + {token} &&
      (Conflicts(s, clientId, target) ==>
        o.response == Status(400) && o.state.loginRedirectUrl == s.loginRedirectUrl) &&
      (!Conflicts(s, clientId, target) ==>
        o.state.loginRedirectUrl == s.loginRedirectUrl[clientId := target] &&
        o.response.Redirect? &&
        o.response.location == Authorize(AuthorizeParamsFor(cfg, token)) &&
        o.response.setCookies ==
          (if ClientIdCookie in req.cookies then map[] else map[ClientIdCookie := minted]))
  {
    match Get(req.args, "redirect_url")
    case None => Outcome(s, Status(400), [])
    case Some(target) =>
      var check := IsAuthenticated(req.cookies, introspect);
      if check.authenticated then
        Outcome(s, Redirect(Url(target), map[]), check.calls)
      else
        var issued := AddState(s, token);
        var (clientId, setCookies) :=
          match Get(req.cookies, ClientIdCookie)
          case Some(id) => (id, map[])
          case None => (minted, map[ClientIdCookie := minted]);
        if clientId in issued.loginRedirectUrl && issued.loginRedirectUrl[clientId] != target then
          Outcome(issued, Status(400), check.calls)
        else
          Outcome(issued.(loginRedirectUrl := issued.loginRedirectUrl[clientId := target]),
                  Redirect(Authorize(AuthorizeParamsFor(cfg, token)), setCookies), check.calls)
  }

  /** The welcome route. It asks the provider about a token cookie once; an
      invalid token gets a page with a fresh authorize URL, whose state token
      is added; the redirect map is left alone. */
  function WelcomePage(s: BrokerState, cfg: Config, req: Request, introspect: string -> bool,
                       token: string): (o: Outcome)
    ensures o.state.loginRedirectUrl == s.loginRedirectUrl
    ensures o.calls == IsAuthenticated(req.cookies, introspect).calls
    ensures TokenCookie !in req.cookies ==>
      o.state == s && o.response == Text(NotAuthenticatedPage)
    ensures TokenCookie in req.cookies && introspect(req.cookies[TokenCookie]) ==>
      o.state == s && o.response == Text(AuthenticatedPage)
    ensures TokenCookie in req.cookies && !introspect(req.cookies[TokenCookie]) ==>
      o.state.secretStatesUsed == s.secretStatesUsed + {token} &&
      o.response == Text(InvalidCookiePage(AuthorizeParamsFor(cfg, token)))
  {
    match Get(req.cookies, TokenCookie)
    case None => Outcome(s, Text(NotAuthenticatedPage), [])
    case Some(cookie) =>
      if !introspect(cookie) then
        Outcome(AddState(s, token), Text(InvalidCookiePage(AuthorizeParamsFor(cfg, token))),
                [Introspect(cookie)])
      else
        Outcome(s, Text(AuthenticatedPage), [Introspect(cookie)])
  }

  /** The protected resource: its payload only for an authenticated GET. */
  function Api(s: BrokerState, req: Request, introspect: string -> bool): (o: Outcome)
    ensures o.state == s
    ensures o.calls == IsAuthenticated(req.cookies, introspect).calls
    ensures o.response == Json("content", ApiContent) <==>
      IsAuthenticated(req.cookies, introspect).authenticated && req.verb == "GET"
    ensures !IsAuthenticated(req.cookies, introspect).authenticated ==> o.response == Unspecified
    ensures IsAuthenticated(req.cookies, introspect).authenticated && req.verb != "GET" ==>
      o.response == Text(MethodNotImplementedPage(req.verb))
  {
    var check := IsAuthenticated(req.cookies, introspect);
    var response :=
      if !check.authenticated then Unspecified
      else if req.verb == "GET" then Json("content", ApiContent)
      else Text(MethodNotImplementedPage(req.verb));
    Outcome(s, response, check.calls)
  }

  /** The login status route: a JSON verdict of the session check. */
  function LoginStatus(s: BrokerState, req: Request, introspect: string -> bool): (o: Outcome)
    ensures o.state == s
    ensures o.calls == IsAuthenticated(req.cookies, introspect).calls
    ensures o.response.Json? && o.response.field == "status"
    ensures o.response.value == "authenticated" <==>
      IsAuthenticated(req.cookies, introspect).authenticated
    ensures o.response.value == "not authenticated" <==>
      !IsAuthenticated(req.cookies, introspect).authenticated
  {
    var check := IsAuthenticated(req.cookies, introspect);
    Outcome(s, Json("status", if check.authenticated then "authenticated" else "not authenticated"),
            check.calls)
  }

  /** The index route: a page with a login link, whose state token is added. */
  function Index(s: BrokerState, cfg: Config, token: string): (o: Outcome)
    ensures o.state.secretStatesUsed == s.secretStatesUsed + {token}
    ensures o.state.loginRedirectUrl == s.loginRedirectUrl
    ensures o.response == Text(LoginLinkPage(AuthorizeParamsFor(cfg, token)))
    ensures o.calls == []
  {
    Outcome(AddState(s, token), Text(LoginLinkPage(AuthorizeParamsFor(cfg, token))), [])
  }
}
