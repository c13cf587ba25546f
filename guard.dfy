/**
 * The route guard of the Discord OAuth helper as a total function from the
 * facts about one request to what the guard does with it: the error it
 * raises, the redirect it answers with, or the wrapped handler's response,
 * together with the calls it makes to the provider on the way.
 *
 * Everything the guard cannot see into is a parameter: the reprypt cipher,
 * JSON serialisation, the provider's HTTP endpoints, the bot's user lookup
 * and the wrapped handler itself.
 */
module OAuthGuard {
  import opened Common
  import opened Http
  import opened OAuthUrls

  /** A Discord user, as far as the guard uses one. */
  datatype User = User(id: int, name: string)

  /** The payload of the `session` cookie. */
  datatype CookieData = CookieData(id: int, name: string)

  /** reprypt's text encodings: its default one (cookies) and hex (state tokens). */
  datatype Converter = DefaultConverter | HexConverter

  /** The form posted to the token endpoint. */
  datatype TokenParams = TokenParams(
    clientId: string,
    clientSecret: string,
    grantType: string,
    code: Option<string>,
    redirectUri: string)

  /** One round trip to the provider. */
  datatype ProviderCall =
    | Authorize(query: AuthorizeParams)
    | Token(form: TokenParams)
    | UserInfo(accessToken: string)

  /** The endpoint each provider call goes to. */
  function Endpoint(call: ProviderCall): (url: string)
    ensures |Base| <= |url| && url[..|Base|] == Base
  {
    match call
    case Authorize(_) => AuthorizeEndpoint
    case Token(_) => TokenEndpoint
    case UserInfo(_) => UserEndpoint
  }

  /** Process-wide configuration fixed at construction. */
  datatype Credentials = Credentials(clientId: string, clientSecret: string, secretKey: string)

  /** The bot client; the guard only looks users up through it. */
  datatype Bot = Bot(fetchUser: int -> User)

  /**
   * The collaborators the guard calls without seeing into them.
   * `decrypt` yields `None` where reprypt raises `DecryptError`; `token`
   * and `userInfo` yield `Err` with the error's text where the HTTP client
   * raises `ClientResponseError`, and so does `authorize` (there nothing
   * catches it); `cookieId` is `int(loads(text)["id"])`.
   */
  datatype Env = Env(
    encrypt: (string, string, Converter) -> string,
    decrypt: (string, string, Converter) -> Option<string>,
    dumps: CookieData -> string,
    cookieId: string -> int,
    authorize: AuthorizeParams -> Result<string, string>,
    token: TokenParams -> Result<string, string>,
    userInfo: string -> Result<User, string>,
    handler: (Request, Option<User>) -> Response)

  /** What a caller may pass for `state_generator` / `state_checker`. */
  datatype Hook<F> = DefaultHook | CustomHook(f: F) | NoHook

  /**
   * A route's resolved options. `stateGenerator` and `stateChecker` say
   * whether the built-in generator and checker are installed; otherwise
   * the option is `None`.
   */
  datatype Guard = Guard(force: bool, scope: seq<string>, stateGenerator: bool, stateChecker: bool)

  const DefaultScope: seq<string> := ["identify"]

  /**
   * `require_login`'s option resolution: only the literal `"default"`
   * selects a built-in; a caller's own callable is dropped like `None`.
   */
  function RequireLogin(
    force: bool := false, scope: seq<string> := DefaultScope,
    stateGenerator: Hook<Request -> string> := DefaultHook,
    stateChecker: Hook<(Request, string) -> bool> := DefaultHook): (g: Guard)
    ensures g.force == force && g.scope == scope
    ensures g.stateGenerator <==> stateGenerator.DefaultHook?
    ensures g.stateChecker <==> stateChecker.DefaultHook?
  {
    Guard(force, scope, stateGenerator.DefaultHook?, stateChecker.DefaultHook?)
  }

  /** What the guard answers. */
  datatype Outcome =
    | ServiceUnavailable              // the bot is not ready
    | StateMismatch                   // the `state` argument failed the check
    | ProviderFailure(detail: string) // the token or user-info request failed
    | CheckerNotCallable              // the check calls a `None` checker
    | AuthorizeFailure(detail: string) // the uncaught error of the authorize request
    | Redirect(location: string)      // off to the provider's consent screen
    | Handled(user: Option<User>, response: Response)

  /** The HTTP status each outcome is answered with. */
  function Status(o: Outcome): (code: nat)
    ensures !o.Handled? ==> code in {503, 403, 400, 500, 302}
    ensures o.CheckerNotCallable? || o.AuthorizeFailure? ==> code == 500
    ensures o.Handled? ==> code == o.response.status
  {
    match o
    case ServiceUnavailable => 503
    case StateMismatch => 403
    case ProviderFailure(_) => 400
    case CheckerNotCallable => 500
    case AuthorizeFailure(_) => 500
    case Redirect(_) => 302
    case Handled(_, response) => response.status
  }

  /** The guard's answer to one request and the provider calls made for it, in order. */
  datatype Dispatch = Dispatch(outcome: Outcome, calls: seq<ProviderCall>)

  /** The text a state token binds: the request's host followed by its client address. */
  function Origin(req: Request): string
  {
    req.host + req.ip
  }

  /** The default `state_generator`: the origin encrypted in hex. */
  function StateGenerator(creds: Credentials, req: Request, env: Env): string
  {
    env.encrypt(Origin(req), creds.secretKey, HexConverter)
  }

  /** The default `state_checker`: a state that does not decrypt is simply wrong. */
  function StateChecker(creds: Credentials, req: Request, state: string, env: Env): (ok: bool)
    ensures ok <==> env.decrypt(state, creds.secretKey, HexConverter) == Some(Origin(req))
    ensures env.decrypt(state, creds.secretKey, HexConverter).None? ==> !ok
  {
    match env.decrypt(state, creds.secretKey, HexConverter)
    case None => false
    case Some(plain) => Origin(req) == plain
  }

  /** `get_user_cookie`: a cookie that does not decrypt means "no user". */
  function GetUserCookie(creds: Credentials, bot: Bot, cookie: string, env: Env): (u: Option<User>)
    ensures u.None? <==> env.decrypt(cookie, creds.secretKey, DefaultConverter).None?
    ensures u.Some? ==>
      u.value == bot.fetchUser(env.cookieId(env.decrypt(cookie, creds.secretKey, DefaultConverter).value))
  {
    match env.decrypt(cookie, creds.secretKey, DefaultConverter)
    case None => None
    case Some(plain) => Some(bot.fetchUser(env.cookieId(plain)))
  }

  /** The value written to the `session` cookie for `user`. */
  function SessionCookie(creds: Credentials, user: User, env: Env): string
  {
    env.encrypt(env.dumps(CookieData(user.id, user.name)), creds.secretKey, DefaultConverter)
  }

  /** The token request made for a callback: the code and the callback URL of this request. */
  function TokenQuery(creds: Credentials, req: Request): (tp: TokenParams)
    ensures tp.grantType == "authorization_code"
    ensures tp.clientId == creds.clientId && tp.clientSecret == creds.clientSecret
    ensures tp.code == Get(req.args, "code")
    ensures tp.redirectUri == MakeUrl(req, req.path)
  {
    TokenParams(creds.clientId, creds.clientSecret, "authorization_code", Get(req.args, "code"), MakeUrl(req, req.path))
  }

  /** The `session` cookie of the request, as `cookies.get("session", None)`. */
  function SessionOf(req: Request): Option<string>
  {
    Get(req.cookies, "session")
  }

  /** The callback phase after the state check: exchange the code, fetch the user, write the cookie. */
  function Exchange(creds: Credentials, req: Request, env: Env): Dispatch
  {
    var tp := TokenQuery(creds, req);
    match env.token(tp)
    case Err(e) => Dispatch(ProviderFailure(e), [Token(tp)])
    case Ok(access) =>
      match env.userInfo(access)
      case Err(e) => Dispatch(ProviderFailure(e), [Token(tp), UserInfo(access)])
      case Ok(user) =>
        var response := env.handler(req, Some(user));
        var written := response.(cookies := response.cookies["session" := SessionCookie(creds, user, env)]);
        Dispatch(Handled(Some(user), written), [Token(tp), UserInfo(access)])
  }

  /** The initiate-login phase: redirect to the authorize URL for this request's own URL. */
  function Login(cache: map<string, Option<string>>, creds: Credentials, g: Guard, req: Request, env: Env): Dispatch
  {
    var redirectUrl := MakeUrl(req, req.path);
    var state := if g.stateGenerator then Some(StateGenerator(creds, req, env)) else None;
    var calls := if CacheGet(cache, redirectUrl).None?
      then [Authorize(AuthorizeQuery(creds.clientId, redirectUrl, g.scope))]
      else [];
    match AuthorizeUrl(cache, creds.clientId, redirectUrl, g.scope, state, env.authorize)
    case Ok(url) => Dispatch(Redirect(url), calls)
    case Err(e) => Dispatch(AuthorizeFailure(e), calls)
  }

  /**
   * The decision `_wrap_route` takes for one request, in its order: not
   * ready; session cookie or force; callback (state check, exchange);
   * otherwise redirect to the provider.
   */
  function Route(
    bot: Option<Bot>, cache: map<string, Option<string>>, creds: Credentials,
    g: Guard, req: Request, env: Env): Dispatch
  {
    if bot.None? then Dispatch(ServiceUnavailable, [])
    else if Truthy(SessionOf(req)) || g.force then
      var user := if Truthy(SessionOf(req)) then GetUserCookie(creds, bot.value, SessionOf(req).value, env) else None;
      Dispatch(Handled(user, env.handler(req, user)), [])
    else if req.args != map[] then
      if g.stateGenerator && !g.stateChecker then Dispatch(CheckerNotCallable, [])
      else if g.stateGenerator && !StateChecker(creds, req, GetOr(req.args, "state", ""), env) then
        Dispatch(StateMismatch, [])
      else Exchange(creds, req, env)
    else Login(cache, creds, g, req, env)
  }

  /** Before the bot is ready every request fails with 503, and the provider is never contacted. */
  lemma RouteNotReady(cache: map<string, Option<string>>, creds: Credentials, g: Guard, req: Request, env: Env)
    ensures var d := Route(None, cache, creds, g, req, env);
      d.outcome == ServiceUnavailable && Status(d.outcome) == 503 && d.calls == []
  {
  }

  /**
   * A session cookie or force mode passes straight to the handler: the
   * user is the cookie's (or `None` without one, or when it does not
   * decrypt), the provider is not contacted and no cookie is written.
   */
  lemma RoutePassThrough(
    bot: Bot, cache: map<string, Option<string>>, creds: Credentials, g: Guard, req: Request, env: Env)
    requires Truthy(SessionOf(req)) || g.force
    ensures var d := Route(Some(bot), cache, creds, g, req, env);
      var session := SessionOf(req);
      && d.calls == []
      && d.outcome.Handled?
      && d.outcome.response == env.handler(req, d.outcome.user)
      && (!Truthy(session) ==> d.outcome.user == None)
      && (Truthy(session) ==> d.outcome.user == GetUserCookie(creds, bot, session.value, env))
      && (Truthy(session) ==>
            (d.outcome.user == None <==> env.decrypt(session.value, creds.secretKey, DefaultConverter).None?))
  {
  }

  /**
   * A callback whose `state` fails the built-in check is refused with 403
   * before any provider call, and the handler is not run.
   */
  lemma RouteStateRejected(
    bot: Bot, cache: map<string, Option<string>>, creds: Credentials, g: Guard, req: Request, env: Env)
    requires !Truthy(SessionOf(req)) && !g.force && req.args != map[]
    requires g.stateGenerator && g.stateChecker
    requires env.decrypt(GetOr(req.args, "state", ""), creds.secretKey, HexConverter) != Some(Origin(req))
    ensures var d := Route(Some(bot), cache, creds, g, req, env);
      d.outcome == StateMismatch && Status(d.outcome) == 403 && d.calls == []
  {
  }

  /**
   * With the built-in generator but no checker, a callback calls `None`:
   * the request fails with a server error before any provider call.
   */
  lemma RouteCheckerMissing(
    bot: Bot, cache: map<string, Option<string>>, creds: Credentials, g: Guard, req: Request, env: Env)
    requires !Truthy(SessionOf(req)) && !g.force && req.args != map[]
    requires g.stateGenerator && !g.stateChecker
    ensures var d := Route(Some(bot), cache, creds, g, req, env);
      d.outcome == CheckerNotCallable && Status(d.outcome) == 500 && d.calls == []
  {
  }

  /**
   * A successful callback runs the token exchange and then the user fetch,
   * hands the fetched user to the handler, and adds to the handler's
   * response exactly one cookie, `session`, holding the encrypted
   * `{id, name}` of that user.
   */
  lemma RouteCallbackSucceeds(
    bot: Bot, cache: map<string, Option<string>>, creds: Credentials, g: Guard, req: Request, env: Env,
    access: string, user: User)
    requires !Truthy(SessionOf(req)) && !g.force && req.args != map[]
    requires g.stateGenerator ==> g.stateChecker && StateChecker(creds, req, GetOr(req.args, "state", ""), env)
    requires env.token(TokenQuery(creds, req)) == Ok(access)
    requires env.userInfo(access) == Ok(user)
    ensures var d := Route(Some(bot), cache, creds, g, req, env);
      var plain := env.handler(req, Some(user));
      && d.calls == [Token(TokenQuery(creds, req)), UserInfo(access)]
      && d.outcome.Handled? && d.outcome.user == Some(user)
      && d.outcome.response.status == plain.status && d.outcome.response.body == plain.body
      && d.outcome.response.cookies.Keys == plain.cookies.Keys + {"session"}
      && d.outcome.response.cookies["session"] == SessionCookie(creds, user, env)
      && (forall k :: k in plain.cookies && k != "session" ==> d.outcome.response.cookies[k] == plain.cookies[k])
  {
  }

  /**
   * A provider error during the exchange is answered with 400 carrying the
   * provider's error, and the handler is not run. A failed token request
   * is the only call; a failed user request follows a successful one.
   */
  lemma RouteProviderFails(
    bot: Bot, cache: map<string, Option<string>>, creds: Credentials, g: Guard, req: Request, env: Env)
    requires !Truthy(SessionOf(req)) && !g.force && req.args != map[]
    requires g.stateGenerator ==> g.stateChecker && StateChecker(creds, req, GetOr(req.args, "state", ""), env)
    requires env.token(TokenQuery(creds, req)).Err?
      || env.userInfo(env.token(TokenQuery(creds, req)).value).Err?
    ensures var d := Route(Some(bot), cache, creds, g, req, env);
      var tp := TokenQuery(creds, req);
      && Status(d.outcome) == 400
      && (env.token(tp).Err? ==> d == Dispatch(ProviderFailure(env.token(tp).error), [Token(tp)]))
      && (env.token(tp).Ok? ==>
            var access := env.token(tp).value;
            d == Dispatch(ProviderFailure(env.userInfo(access).error), [Token(tp), UserInfo(access)]))
  {
  }

  /**
   * With no cookie, no force and no query arguments the guard redirects to
   * the authorize URL for the request's own URL, carrying a state exactly
   * when the built-in generator is installed; the provider is asked only
   * on a cache miss, and the handler is not run.
   */
  lemma RouteRedirects(
    bot: Bot, cache: map<string, Option<string>>, creds: Credentials, g: Guard, req: Request, env: Env)
    requires !Truthy(SessionOf(req)) && !g.force && req.args == map[]
    ensures var d := Route(Some(bot), cache, creds, g, req, env);
      var redirectUrl := MakeUrl(req, req.path);
      var state := if g.stateGenerator then Some(StateGenerator(creds, req, env)) else None;
      var url := AuthorizeUrl(cache, creds.clientId, redirectUrl, g.scope, state, env.authorize);
      && (url.Ok? ==> d.outcome == Redirect(url.value) && Status(d.outcome) == 302)
      && (url.Err? ==> d.outcome == AuthorizeFailure(url.error) && Status(d.outcome) == 500)
      && (d.calls == [] <==> CacheGet(cache, redirectUrl).Some?)
      && (d.calls != [] ==> d.calls == [Authorize(AuthorizeQuery(creds.clientId, redirectUrl, g.scope))])
  {
  }

  /**
   * The handler runs exactly when the bot is ready and the request either
   * carries a session cookie, is forced, or is a callback that passes the
   * configured state check and both provider calls.
   */
  lemma RouteHandlesExactly(
    bot: Option<Bot>, cache: map<string, Option<string>>, creds: Credentials, g: Guard, req: Request, env: Env)
    ensures var tp := TokenQuery(creds, req);
      Route(bot, cache, creds, g, req, env).outcome.Handled? <==>
        && bot.Some?
        && (|| Truthy(SessionOf(req)) || g.force
            || (&& req.args != map[]
                && (g.stateGenerator ==> g.stateChecker && StateChecker(creds, req, GetOr(req.args, "state", ""), env))
                && env.token(tp).Ok?
                && env.userInfo(env.token(tp).value).Ok?))
  {
  }

  /**
   * With the built-in generator and checker installed, a callback is only
   * ever handled when its `state` decrypts to the origin of the request
   * itself (section 10.12 of RFC 6749).
   */
  lemma RouteCallbackNeedsState(
    bot: Option<Bot>, cache: map<string, Option<string>>, creds: Credentials, g: Guard, req: Request, env: Env)
    requires g.stateGenerator && g.stateChecker && !g.force
    requires !Truthy(SessionOf(req)) && req.args != map[]
    ensures Route(bot, cache, creds, g, req, env).outcome.Handled? ==>
      env.decrypt(GetOr(req.args, "state", ""), creds.secretKey, HexConverter) == Some(Origin(req))
  {
  }

  /**
   * The redirect URI sent to the authorize endpoint when login starts and
   * the one sent to the token endpoint on the callback are the same
   * whenever the callback arrives at the same scheme, host and path, as
   * section 4.1.3 of RFC 6749 requires.
   */
  lemma RedirectUriAgrees(
    bot: Bot, cache: map<string, Option<string>>, creds: Credentials, g: Guard,
    start: Request, callback: Request, env: Env)
    requires !Truthy(SessionOf(start)) && !g.force && start.args == map[]
    requires !Truthy(SessionOf(callback)) && callback.args != map[]
    requires callback.scheme == start.scheme && callback.host == start.host && callback.path == start.path
    requires Route(Some(bot), cache, creds, g, start, env).calls != []
    requires Route(Some(bot), cache, creds, g, callback, env).calls != []
    ensures var login := Route(Some(bot), cache, creds, g, start, env).calls[0];
      var exchange := Route(Some(bot), cache, creds, g, callback, env).calls[0];
      login.Authorize? && exchange.Token? && login.query.redirectUri == exchange.form.redirectUri
  {
  }

  /**
   * For a cipher that decrypts what it encrypted under the same key, the
   * built-in checker accepts the built-in generator's state for another
   * request exactly when both requests give the same `host + ip` text.
   */
  lemma StateBindsOrigin(creds: Credentials, issued: Request, checked: Request, env: Env)
    requires env.decrypt(StateGenerator(creds, issued, env), creds.secretKey, HexConverter) == Some(Origin(issued))
    ensures StateChecker(creds, checked, StateGenerator(creds, issued, env), env) <==> Origin(checked) == Origin(issued)
  {
  }

  /**
   * Host and address are joined without a separator, so the binding is
   * weaker than "same host and same address": a state issued to host
   * `site.com:80` at `12.3.4.5` passes the check for host `site.com:801`
   * at `2.3.4.5`.
   */
  lemma StateOriginAmbiguous(creds: Credentials, env: Env)
    requires env.decrypt(env.encrypt("site.com:8012.3.4.5", creds.secretKey, HexConverter), creds.secretKey, HexConverter)
      == Some("site.com:8012.3.4.5")
    ensures var issued := Request("https", "site.com:80", "/", "12.3.4.5", map[], map[]);
      var checked := Request("https", "site.com:801", "/", "2.3.4.5", map[], map[]);
      && issued.host != checked.host && issued.ip != checked.ip
      && StateChecker(creds, checked, StateGenerator(creds, issued, env), env)
  {
    var issued := Request("https", "site.com:80", "/", "12.3.4.5", map[], map[]);
    var checked := Request("https", "site.com:801", "/", "2.3.4.5", map[], map[]);
    assert Origin(issued) == "site.com:8012.3.4.5";
    assert Origin(checked) == "site.com:8012.3.4.5";
    assert |issued.host| != |checked.host| && |issued.ip| != |checked.ip|;
  }

  /**
   * `require_login` drops a caller's own generator, so no state is sent
   * and none is checked: a callback is handled whenever both provider
   * calls succeed, whatever its `state`, and login redirects carry no
   * state.
   */
  lemma CustomGeneratorDisablesCheck(
    bot: Bot, cache: map<string, Option<string>>, creds: Credentials, scope: seq<string>,
    f: Request -> string, checker: Hook<(Request, string) -> bool>, req: Request, env: Env)
    requires !Truthy(SessionOf(req))
    ensures var d := Route(Some(bot), cache, creds, RequireLogin(false, scope, CustomHook(f), checker), req, env);
      var tp := TokenQuery(creds, req);
      && (req.args != map[] && env.token(tp).Ok? && env.userInfo(env.token(tp).value).Ok? ==> d.outcome.Handled?)
      && (req.args == map[] ==>
            var url := AuthorizeUrl(cache, creds.clientId, MakeUrl(req, req.path), scope, None, env.authorize);
            && (url.Ok? ==> d.outcome == Redirect(url.value))
            && (url.Err? ==> d.outcome == AuthorizeFailure(url.error)))
  {
  }
}
