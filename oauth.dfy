/**
 * The `DiscordOAuth` object: its redirect cache, which it updates in
 * place, its readiness (the bot it is handed once the host application
 * has started), and the wrapped route that runs the guard for a request.
 */
module OAuthClient {
  import opened Common
  import opened Http
  import opened OAuthUrls
  import opened OAuthGuard

  /** `request.ctx`: where the guard leaves the resolved user for the handler. */
  class RequestContext {
    var user: Option<User>

    constructor()
      ensures user == None
    {
      user := None;
    }
  }

  /** Where a route stands after the checks: whether a session cookie is to be written. */
  datatype Mode = Normal | WriteCookie

  class DiscordOAuth {
    const clientId: string
    const clientSecret: string
    const secretKey: string
    /** `None` until the startup hook hands over the bot. */
    var bot: Option<Bot>
    /** Callback URL to cached authorize URL; a reset entry holds `None`. */
    var redirects: map<string, Option<string>>

    constructor(clientId: string, clientSecret: string, secretKey: string)
      ensures this.clientId == clientId && this.clientSecret == clientSecret && this.secretKey == secretKey
      ensures bot == None && redirects == map[] && Unpopulated()
    {
      this.clientId, this.clientSecret, this.secretKey := clientId, clientSecret, secretKey;
      bot := None;
      redirects := map[];
    }

    /**
     * No entry holds an authorize URL. The object's own operations never
     * store one: the constructor starts empty, resets store `None`, and
     * `GetUrl` does not write the cache.
     */
    ghost predicate Unpopulated()
      reads this
    {
      forall k :: k in redirects ==> redirects[k] == None
    }

    function Creds(): Credentials
    {
      Credentials(clientId, clientSecret, secretKey)
    }

    /** `get_redirect_oauth`: the cached authorize URL for `url`, if any. */
    function GetRedirectOAuth(url: string): (r: Option<string>)
      reads this
      ensures r.Some? <==> url in redirects && redirects[url].Some?
      ensures r.Some? ==> r == redirects[url]
    {
      CacheGet(redirects, url)
    }

    /** `reset_oauth`: stores `None` under `url` rather than deleting it. */
    method ResetOAuth(url: string)
      modifies this`redirects
      ensures redirects == old(redirects)[url := None]
      ensures url in redirects && redirects[url] == None && GetRedirectOAuth(url) == None
      ensures redirects.Keys == old(redirects.Keys) + {url}
      ensures forall k :: k in old(redirects) && k != url ==> redirects[k] == old(redirects)[k]
      ensures old(Unpopulated()) ==> Unpopulated()
    {
      redirects := redirects[url := None];
    }

    /** `reset_all_oauth`: resets every key of a snapshot of the key set. */
    method ResetAllOAuth()
      modifies this`redirects
      ensures redirects.Keys == old(redirects.Keys)
      ensures forall k :: k in redirects ==> redirects[k] == None
      ensures forall k :: GetRedirectOAuth(k) == None
      ensures Unpopulated()
    {
      var keys := redirects.Keys;
      var todo := keys;
      while todo != {}
        invariant todo <= keys
        invariant redirects.Keys == keys
        invariant forall k :: k in keys - todo ==> redirects[k] == None
        decreases todo
      {
        var key :| key in todo;
        ResetOAuth(key);
        todo := todo - {key};
      }
    }

    /**
     * `get_url`: the authorize URL for `redirectUrl` (or the provider's
     * error, which `get_url` does not catch), and the query sent to the
     * provider, if one was sent. It reads the cache and never writes it.
     */
    method GetUrl(
      redirectUrl: string, scope: seq<string>, state: Option<string>,
      authorize: AuthorizeParams -> Result<string, string>)
      returns (url: Result<string, string>, sent: Option<AuthorizeParams>)
      ensures url == AuthorizeUrl(redirects, clientId, redirectUrl, scope, state, authorize)
      ensures sent.Some? <==> GetRedirectOAuth(redirectUrl) == None
      ensures sent.Some? ==> sent.value == AuthorizeQuery(clientId, redirectUrl, scope)
      ensures Unpopulated() ==> sent.Some?
    {
      var cached := GetRedirectOAuth(redirectUrl);
      if cached.None? {
        var query := AuthorizeQuery(clientId, redirectUrl, scope);
        sent := Some(query);
        var answer := authorize(query);
        if answer.Err? {
          url := Err(answer.error);
          return;
        }
        url := Ok(WithState(EscapeQuery(answer.value), state));
      } else {
        sent := None;
        url := Ok(WithState(cached.value, state));
      }
    }

    /**
     * The route `_wrap_route` builds around a handler, run for one request:
     * what it answers, which provider calls it makes, and the user it
     * leaves in `ctx` for the handler.
     */
    method NewRoute(g: Guard, req: Request, ctx: RequestContext, env: Env) returns (o: Outcome, calls: seq<ProviderCall>)
      modifies ctx
      ensures Dispatch(o, calls) == Route(bot, redirects, Creds(), g, req, env)
      ensures o.Handled? ==> ctx.user == o.user
      ensures !o.Handled? ==> ctx.user == old(ctx.user)
    {
      var mode := Normal;
      calls := [];
      if bot.None? {
        o := ServiceUnavailable;
        return;
      }
      var data := Get(req.cookies, "session");
      if Truthy(data) || g.force {
        ctx.user := if Truthy(data) then GetUserCookie(Creds(), bot.value, data.value, env) else None;
      } else if req.args != map[] {
        if g.stateGenerator {
          if !g.stateChecker {
            o := CheckerNotCallable;
            return;
          }
          if !StateChecker(Creds(), req, GetOr(req.args, "state", ""), env) {
            o := StateMismatch;
            return;
          }
        }
        var form := TokenQuery(Creds(), req);
        calls := calls + [Token(form)];
        var token := env.token(form);
        if token.Err? {
          o := ProviderFailure(token.error);
          return;
        }
        calls := calls + [UserInfo(token.value)];
        var fetched := env.userInfo(token.value);
        if fetched.Err? {
          o := ProviderFailure(fetched.error);
          return;
        }
        ctx.user := Some(fetched.value);
        mode := WriteCookie;
      } else {
        var redirectUrl := MakeUrl(req, req.path);
        var state := if g.stateGenerator then Some(StateGenerator(Creds(), req, env)) else None;
        var url, sent := GetUrl(redirectUrl, g.scope, state, env.authorize);
        if sent.Some? {
          calls := [Authorize(sent.value)];
        }
        o := if url.Ok? then Redirect(url.value) else AuthorizeFailure(url.error);
        return;
      }
      var response := env.handler(req, ctx.user);
      if mode == WriteCookie {
        var user := ctx.user.value;
        response := response.(cookies := response.cookies["session" := SessionCookie(Creds(), user, env)]);
      }
      o := Handled(ctx.user, response);
    }
  }
}
