/** Properties of the handshake that span several requests: single use of a
    state token over any sequence of requests, replayed callbacks, repeated and
    conflicting logins, a failed exchange, and the full login round trip run
    on a `Server.Broker`. */
module Properties {
  import opened Web
  import opened Handshake
  import Server

  /** One request to one route, with the provider's answers and the random
      values the route would draw. */
  datatype Call =
    | LoginCall(req: Request, introspect: string -> bool, token: string, minted: string)
    | CallbackCall(req: Request, exchange: Option<string> -> Option<Token>)
    | WelcomeCall(req: Request, introspect: string -> bool, token: string)
    | IndexCall(token: string)
    | ApiCall(req: Request, introspect: string -> bool)
    | StatusCall(req: Request, introspect: string -> bool)

  function Step(s: BrokerState, cfg: Config, c: Call): Outcome
  {
    match c
    case LoginCall(req, introspect, token, minted) => Login(s, cfg, req, introspect, token, minted)
    case CallbackCall(req, exchange) => Callback(s, req, exchange)
    case WelcomeCall(req, introspect, token) => WelcomePage(s, cfg, req, introspect, token)
    case IndexCall(token) => Index(s, cfg, token)
    case ApiCall(req, introspect) => Api(s, req, introspect)
    case StatusCall(req, introspect) => LoginStatus(s, req, introspect)
  }

  /** The state after a sequence of requests, handled one after the other. */
  function Run(s: BrokerState, cfg: Config, calls: seq<Call>): BrokerState
    decreases |calls|
  {
    if calls == [] then s else Run(Step(s, cfg, calls[0]).state, cfg, calls[1..])
  }

  /** The state token a request draws: only on the branches that build an
      authorize URL. A login does so when it has a target and the caller is not
      authenticated, the welcome route when the token cookie is found invalid,
      the index route always. */
  function Drawn(c: Call): Option<string>
  {
    match c
    case LoginCall(req, introspect, token, _) =>
      if "redirect_url" in req.args && !IsAuthenticated(req.cookies, introspect).authenticated
      then Some(token) else None
    case WelcomeCall(req, introspect, token) =>
      if TokenCookie in req.cookies && !introspect(req.cookies[TokenCookie])
      then Some(token) else None
    case IndexCall(token) => Some(token)
    case _ => None
  }

  /** A callback that presents `t` while `t` is outstanding. */
  predicate Accepts(s: BrokerState, c: Call, t: string)
  {
    c.CallbackCall? && Get(c.req.args, "state") == Some(t) && t in s.secretStatesUsed
  }

  /** How many callbacks of the sequence accept `t`. */
  function Acceptances(s: BrokerState, cfg: Config, calls: seq<Call>, t: string): nat
    decreases |calls|
  {
    if calls == [] then 0
    else (if Accepts(s, calls[0], t) then 1 else 0) +
         Acceptances(Step(s, cfg, calls[0]).state, cfg, calls[1..], t)
  }

  /** How many requests of the sequence draw `t`. */
  function Draws(calls: seq<Call>, t: string): nat
  {
    if calls == [] then 0 else (if Drawn(calls[0]) == Some(t) then 1 else 0) + Draws(calls[1..], t)
  }

  /** One request: an accepting callback takes `t` out of the outstanding
      set, and `t` can only be outstanding afterwards if it was before or the
      request drew it. */
  lemma StepStates(s: BrokerState, cfg: Config, c: Call, t: string)
    ensures Accepts(s, c, t) ==> t !in Step(s, cfg, c).state.secretStatesUsed
    ensures t in Step(s, cfg, c).state.secretStatesUsed ==>
      t in s.secretStatesUsed || Drawn(c) == Some(t)
  {
  }

  /** Over any sequence of requests, a state token is accepted at most as
      often as it is drawn, plus once if it was outstanding at the start; a
      token still outstanding at the end uses up one of those. */
  lemma {:induction false} StateTokenSingleUse(s: BrokerState, cfg: Config, calls: seq<Call>, t: string)
    ensures Acceptances(s, cfg, calls, t) + (if t in Run(s, cfg, calls).secretStatesUsed then 1 else 0)
            <= Draws(calls, t) + (if t in s.secretStatesUsed then 1 else 0)
    decreases |calls|
  {
    if calls != [] {
      StepStates(s, cfg, calls[0], t);
      StateTokenSingleUse(Step(s, cfg, calls[0]).state, cfg, calls[1..], t);
    }
  }

  /** From process start, a state token that was never drawn is never
      accepted, and one drawn once is accepted at most once. */
  lemma AcceptedOnlyAsDrawn(cfg: Config, calls: seq<Call>, t: string)
    ensures Draws(calls, t) == 0 ==> Acceptances(BrokerState({}, map[]), cfg, calls, t) == 0
    ensures Draws(calls, t) == 1 ==> Acceptances(BrokerState({}, map[]), cfg, calls, t) <= 1
  {
    StateTokenSingleUse(BrokerState({}, map[]), cfg, calls, t);
  }

  /** A callback that consumes a state token, followed by a second callback
      presenting the same token: the second finds it absent, changes no state
      and still exchanges its code. */
  lemma ReplayedStateNotAccepted(s: BrokerState, first: Request, second: Request,
                                 exchange1: Option<string> -> Option<Token>,
                                 exchange2: Option<string> -> Option<Token>)
    requires Outstanding(s, first)
    requires "state" in second.args && second.args["state"] == first.args["state"]
    ensures var o1 := Callback(s, first, exchange1);
      var o2 := Callback(o1.state, second, exchange2);
      o1.state.secretStatesUsed == s.secretStatesUsed - {first.args["state"]} &&
      !Outstanding(o1.state, second) &&
      o2.state == o1.state &&
      o2.calls == [Exchange(Get(second.args, "code"))]
  {
  }

  /** A caller without a session whose callback's exchange fails gets no
      token cookie, so the login status it sees next is "not authenticated",
      found without asking the provider. */
  lemma FailedExchangeStaysUnauthenticated(s: BrokerState, req: Request,
                                          exchange: Option<string> -> Option<Token>,
                                          introspect: string -> bool)
    requires TokenCookie !in req.cookies
    requires exchange(Get(req.args, "code")).None?
    ensures var o := Callback(s, req, exchange);
      var jar := AcceptCookies(req.cookies, o.response);
      var status := LoginStatus(o.state, Request("GET", map[], jar), introspect);
      o.response == Status(500) &&
      o.state.loginRedirectUrl == s.loginRedirectUrl &&
      status.response == Json("status", "not authenticated") && status.calls == []
  {
  }

  /** An unauthenticated caller asks to log in twice with the same target,
      the second time carrying the cookies the first answer set (a fresh
      caller gets a freshly minted client id). The second request files
      nothing new and sends the caller to the provider again. */
  lemma LoginRepeatIsIdempotent(s: BrokerState, cfg: Config, req: Request, introspect: string -> bool,
                                token1: string, token2: string, minted1: string, minted2: string)
    requires "redirect_url" in req.args
    requires !IsAuthenticated(req.cookies, introspect).authenticated
    requires ClientIdCookie !in req.cookies ==> minted1 !in s.loginRedirectUrl
    requires !Conflicts(s, ClientIdOf(req, minted1), req.args["redirect_url"])
    ensures var o1 := Login(s, cfg, req, introspect, token1, minted1);
      var again := Request(req.verb, req.args, AcceptCookies(req.cookies, o1.response));
      var o2 := Login(o1.state, cfg, again, introspect, token2, minted2);
      o1.state.loginRedirectUrl[ClientIdOf(req, minted1)] == req.args["redirect_url"] &&
      o2.state.loginRedirectUrl == o1.state.loginRedirectUrl &&
      o2.state.secretStatesUsed == o1.state.secretStatesUsed + {token2} &&
      o2.response == Redirect(Authorize(AuthorizeParamsFor(cfg, token2)), map[])
  {
  }

  /** After a login has filed a target for a caller, a login from the same
      caller with a different target answers 400 and leaves the first target
      on file, although it still adds its state token. */
  lemma LoginConflictKeepsTarget(s: BrokerState, cfg: Config, req: Request, introspect: string -> bool,
                                 other: string, token1: string, token2: string, minted1: string, minted2: string)
    requires "redirect_url" in req.args && other != req.args["redirect_url"]
    requires !IsAuthenticated(req.cookies, introspect).authenticated
    requires !Conflicts(s, ClientIdOf(req, minted1), req.args["redirect_url"])
    ensures var o1 := Login(s, cfg, req, introspect, token1, minted1);
      var jar := AcceptCookies(req.cookies, o1.response);
      var o2 := Login(o1.state, cfg, Request(req.verb, req.args["redirect_url" := other], jar),
                      introspect, token2, minted2);
      o2.response == Status(400) &&
      o2.state.loginRedirectUrl == o1.state.loginRedirectUrl &&
      o2.state.loginRedirectUrl[ClientIdOf(req, minted1)] == req.args["redirect_url"] &&
      o2.state.secretStatesUsed == o1.state.secretStatesUsed + {token2}
  {
  }

  /** The whole round trip on a broker at process start: a caller with no
      cookies asks to log in with a target, follows the redirect to the
      provider, comes back to the callback with the state from that redirect
      and a code the provider exchanges for `token`, is sent to its target
      with the token cookie, and then reads the protected resource. The state
      token is no longer outstanding afterwards. */
  method LoginRoundTrip(cfg: Config, target: string, code: string, token: Token)
    returns (toProvider: Response, landed: Response, payload: Response, outstanding: set<string>)
    ensures toProvider.Redirect? && toProvider.location.Authorize?
    ensures ClientIdCookie in toProvider.setCookies
    ensures outstanding == {}
    ensures landed == Redirect(Url(target), map[TokenCookie := token.token])
    ensures payload == Json("content", ApiContent)
  {
    var broker := new Server.Broker(cfg);
    var provider := (t: string) => t == token.token;
    var exchange := (c: Option<string>) => if c == Some(code) then Some(token) else None;
    var jar: Cookies := map[];

    var calls;
    ghost var drawn, minted;
    toProvider, calls, drawn, minted := broker.Login(Request("GET", map["redirect_url" := target], jar), provider);
    jar := AcceptCookies(jar, toProvider);
    var params := toProvider.location.params;

    landed, calls := broker.Callback(Request("GET", map["state" := params.state, "code" := code], jar), exchange);
    jar := AcceptCookies(jar, landed);

    payload, calls := broker.Api(Request("GET", map[], jar), provider);
    outstanding := broker.secretStatesUsed;
  }
}
