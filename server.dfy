/** The broker as the source runs it: two process-wide mutable collections,
    held as the fields of one `Broker` object, and one method per route that
    updates them in place. Each method is proved to do what the matching step
    function of `Handshake` describes. Randomness (the state token's characters,
    the client id) is nondeterministic choice; the provider is an oracle passed
    in by the caller. */
module Server {
  import opened Web
  import opened Handshake

  /** `make_secret_state`: twenty characters drawn from `Alphabet` and joined.
      Any draw may come out. */
  method MakeSecretState() returns (state: string)
    ensures IsSecretState(state)
  {
    assert IsDraw(seq(StateLength, _ => 0));
    var picks: seq<nat> :| |picks| == StateLength && IsDraw(picks);
    state := JoinChoices(picks);
  }

  /** The prefix of a UUID written as a URN. */
  const UrnPrefix: string := "urn:uuid:"

  /** A length no key of `keys` exceeds. */
  ghost function MaxLength(keys: set<string>): (n: nat)
    ensures forall k :: k in keys ==> |k| <= n
    decreases keys
  {
    if keys == {} then 0
    else
      var k :| k in keys;
      var rest := MaxLength(keys - {k});
      if |k| > rest then |k| else rest
  }

  class Broker {
    const config: Config
    /** The outstanding anti-forgery state tokens. */
    var secretStatesUsed: set<string>
    /** Client id to the target a caller asked to be sent to after login. */
    var loginRedirectUrl: map<string, string>

    /** The two fields as one value, the state the step functions work on. */
    function State(): BrokerState
      reads this
    {
      BrokerState(secretStatesUsed, loginRedirectUrl)
    }

    /** A broker at process start: no token outstanding, no target on file. */
    constructor(config: Config)
      ensures this.config == config
      ensures secretStatesUsed == {} && loginRedirectUrl == map[]
    {
      this.config := config;
      secretStatesUsed := {};
      loginRedirectUrl := map[];
    }

    /** `make_client_id`: a URN-form UUID, assumed to be no key of the
        redirect map yet. */
    method MakeClientId() returns (id: string)
      ensures UrnPrefix <= id
      ensures id !in loginRedirectUrl
    {
      ghost var longer := UrnPrefix + seq(MaxLength(loginRedirectUrl.Keys) + 1, _ => '0');
      assert longer !in loginRedirectUrl;
      id :| UrnPrefix <= id && id !in loginRedirectUrl;
    }

    /** `make_oauth_authorize_url`: draws a state token, records it as
        outstanding and puts it in the authorize URL's parameters beside the
        broker's client id, its callback URL and the scope. Nothing else
        changes. */
    method MakeOauthAuthorizeUrl() returns (params: AuthorizeParams)
      modifies this`secretStatesUsed
      ensures IsSecretState(params.state)
      ensures params == AuthorizeParams(config.clientId, config.callbackUrl, Scope, params.state)
      ensures secretStatesUsed == old(secretStatesUsed) + {params.state}
      ensures State() == AddState(old(State()), params.state)
    {
      var state := MakeSecretState();
      secretStatesUsed := secretStatesUsed + {state};
      params := AuthorizeParams(config.clientId, config.callbackUrl, Scope, state);
    }

    /** The callback route, against `Handshake.Callback`. */
    method Callback(req: Request, exchange: Option<string> -> Option<Token>)
      returns (response: Response, calls: seq<ProviderCall>)
      modifies this`secretStatesUsed
      ensures Outcome(State(), response, calls) == Handshake.Callback(old(State()), req, exchange)
    {
      var state := Get(req.args, "state");
      var code := Get(req.args, "code");
      if state.Some? && state.value in secretStatesUsed {
        secretStatesUsed := secretStatesUsed - {state.value};
      }
      // an unknown state is only logged by the source; the exchange goes ahead
      calls := [Exchange(code)];
      var token := exchange(code);
      if token.None? {
        response := Status(500);
        return;
      }
      var clientId := Get(req.cookies, ClientIdCookie);
      var target: Location := Location.Welcome;
      if clientId.Some? && clientId.value in loginRedirectUrl {
        target := Url(loginRedirectUrl[clientId.value]);
      }
      response := Redirect(target, map[TokenCookie := token.value.token]);
    }

    /** The login route, against `Handshake.Login`. `token` is the state token
        drawn and `minted` the client id minted, where the route draws or mints
        one. */
    method Login(req: Request, introspect: string -> bool)
      returns (response: Response, calls: seq<ProviderCall>, ghost token: string, ghost minted: string)
      modifies this`secretStatesUsed, this`loginRedirectUrl
      ensures "redirect_url" in req.args && !IsAuthenticated(req.cookies, introspect).authenticated ==>
        IsSecretState(token)
      ensures ("redirect_url" in req.args && !IsAuthenticated(req.cookies, introspect).authenticated &&
               ClientIdCookie !in req.cookies) ==>
        minted !in old(loginRedirectUrl)
      ensures Outcome(State(), response, calls) ==
        Handshake.Login(old(State()), config, req, introspect, token, minted)
    {
      token, minted := "", "";
      var target := Get(req.args, "redirect_url");
      if target.None? {
        response, calls := Status(400), [];
        return;
      }
      var check := IsAuthenticated(req.cookies, introspect);
      calls := check.calls;
      if check.authenticated {
        response := Redirect(Url(target.value), map[]);
        return;
      }
      var params := MakeOauthAuthorizeUrl();
      token := params.state;
      var setCookies: Cookies := map[];
      var clientId: string;
      match Get(req.cookies, ClientIdCookie) {
        case Some(id) =>
          clientId := id;
        case None =>
          clientId := MakeClientId();
          minted := clientId;
          setCookies := map[ClientIdCookie := clientId];
      }
      if clientId in loginRedirectUrl && loginRedirectUrl[clientId] != target.value {
        response := Status(400);
        return;
      }
      loginRedirectUrl := loginRedirectUrl[clientId := target.value];
      response := Redirect(Authorize(params), setCookies);
    }

    /** The welcome route, against `Handshake.WelcomePage`; `token` is the
        state token drawn when the cookie is found invalid. */
    method Welcome(req: Request, introspect: string -> bool)
      returns (response: Response, calls: seq<ProviderCall>, ghost token: string)
      modifies this`secretStatesUsed
      ensures TokenCookie in req.cookies && !introspect(req.cookies[TokenCookie]) ==>
        IsSecretState(token)
      ensures Outcome(State(), response, calls) ==
        WelcomePage(old(State()), config, req, introspect, token)
    {
      token := "";
      match Get(req.cookies, TokenCookie) {
        case None =>
          response, calls := Text(NotAuthenticatedPage), [];
        case Some(cookie) =>
          calls := [Introspect(cookie)];
          var isValid := introspect(cookie);
          if !isValid {
            var params := MakeOauthAuthorizeUrl();
            token := params.state;
            response := Text(InvalidCookiePage(params));
          } else {
            response := Text(AuthenticatedPage);
          }
      }
    }

    /** The index route, against `Handshake.Index`. */
    method Index() returns (response: Response, ghost token: string)
      modifies this`secretStatesUsed
      ensures IsSecretState(token)
      ensures Outcome(State(), response, []) == Handshake.Index(old(State()), config, token)
    {
      var params := MakeOauthAuthorizeUrl();
      token := params.state;
      response := Text(LoginLinkPage(params));
    }

    /** The protected resource, against `Handshake.Api`; it changes nothing
        and is here only so that every route has its method on `Broker`. */
    method Api(req: Request, introspect: string -> bool)
      returns (response: Response, calls: seq<ProviderCall>)
      ensures Outcome(State(), response, calls) == Handshake.Api(State(), req, introspect)
    {
      var check := IsAuthenticated(req.cookies, introspect);
      calls := check.calls;
      if check.authenticated {
        if req.verb == "GET" {
          response := Json("content", ApiContent);
        } else {
          response := Text(MethodNotImplementedPage(req.verb));
        }
      } else {
        response := Unspecified;
      }
    }

    /** The login status route, against `Handshake.LoginStatus`; it changes
        nothing and is here only so that every route has its method on
        `Broker`. */
    method LoginStatus(req: Request, introspect: string -> bool)
      returns (response: Response, calls: seq<ProviderCall>)
      ensures Outcome(State(), response, calls) == Handshake.LoginStatus(State(), req, introspect)
    {
      var check := IsAuthenticated(req.cookies, introspect);
      calls := check.calls;
      if check.authenticated {
        response := Json("status", "authenticated");
      } else {
        response := Json("status", "not authenticated");
      }
    }
  }
}
