# Discord OAuth route guard — a Dafny model

This project models the `DiscordOAuth` helper of the RT backend
(`backend/oauth.py`): the server side of the OAuth 2.0 Authorization Code
grant (section 4.1 of RFC 6749) against Discord, with the `state` parameter
used against cross-site request forgery (section 10.12 of RFC 6749).

- `common.dfy` — `Option` and `Result`.
- `pystr.dfy` (module `PyStr`) — the Python string builtins the helper relies
  on: `str.find`, slice bounds that may be negative, single-character
  `str.replace`, and `str.join`, with lemmas about them.
- `http.dfy` (module `Http`) — the fields of the web framework's request and
  response the guard uses, `dict.get`, and the truthiness of an optional string.
- `urls.dfy` (module `OAuthUrls`) — the provider endpoints and the authorize
  query. It also holds the rewrite `get_url` applies to the URL the provider
  answers with (`EscapeQuery`), the `&state=` suffix (`WithState`), the
  redirect-cache lookup, the URL `get_url` returns (`AuthorizeUrl`), and
  `make_base_url` / `make_url`.
- `guard.dfy` (module `OAuthGuard`) — the pure decision logic:
  - `require_login`'s option resolution, the built-in state generator and
    checker, `get_user_cookie`, and the session-cookie value;
  - `Route`, a total function from the facts about one request to a
    `Dispatch`: the outcome (503, 403, 400, 500, a redirect, or the handler's
    response) and the provider calls made, in order;
  - lemmas for each phase of the decision and for how the phases relate.
- `oauth.dfy` (module `OAuthClient`) — the class `DiscordOAuth`.
  - It holds the redirect cache `redirects: map<string, Option<string>>`,
    which its methods update in place, and its readiness `bot`.
  - `NewRoute`, the route that `_wrap_route` builds, runs the guard step by
    step with its `mode` variable. It writes the user into the request
    context (`RequestContext`) and is proved equal to `Route`.

The collaborators the helper calls without seeing into them are parameters,
bundled in `OAuthGuard.Env`:
- the reprypt cipher (`encrypt`, and `decrypt`, where `None` stands for
  `DecryptError`);
- JSON serialisation;
- the provider's authorize, token and user-info endpoints (an `Err` from any
  of them stands for `ClientResponseError`, raised for every non-2xx answer);
- the wrapped handler.

The bot's user lookup is the `Bot` value held by the object.

The model keeps three behaviours of the code that its own text does not lead
one to expect:

- The docstring of `get_url` (`backend/oauth.py:80-81`) says a cached URL is
  used when there is one, but none of the helper's own methods stores a URL:
  `get_url` only reads the cache (`backend/oauth.py:82-92`), and the resets
  store `None`. The cache is the public attribute `redirects`
  (`backend/oauth.py:47`), which the docstrings call the redirect allow-list,
  so a caller may fill it; a URL stored there is used as is (`AuthorizeUrlCached`).
  `DiscordOAuth.Unpopulated` says that no entry holds a URL: the constructor
  establishes it, the resets keep it, and under it `GetUrl` always sends the
  authorize query. So every login contacts the provider only as long as
  callers leave the public map alone.
- The annotations of `require_login` accept a callable for the generator and
  the checker (`backend/oauth.py:216-221`), but the body keeps only the
  literal `"default"` and turns anything else, a callable included, into
  `None` (`backend/oauth.py:224-225`). A caller's own generator therefore
  switches the state check off altogether (`CustomGeneratorDisablesCheck`).
- The check is gated on the generator (`backend/oauth.py:170-172`). So the
  default generator with no checker makes a callback call `None`. That raises
  a `TypeError`, which the framework answers with status 500. The model calls
  this outcome `CheckerNotCallable`.

## Model

| member | source | states |
|---|---|---|
| `PyStr.Find` | backend/oauth.py:90 | `url.find("?")`: -1 exactly when there is no `?`, otherwise an index holding `?` with no `?` before it |
| `PyStr.SliceIndex` | backend/oauth.py:90-91 | a Python slice bound denotes a position in `0..n`: a bound in range is itself, a negative one counts from the end (clamped at 0), one past the end is `n` |
| `PyStr.Replace` | backend/oauth.py:91 | `str.replace` of a single character; its contract is carried by `ReplaceAppend`, `ReplaceLength`, `ReplaceRemoves` and `ReplaceAbsent` |
| `PyStr.ReplaceAppend` | backend/oauth.py:91 | `str.replace` of one character distributes over concatenation |
| `PyStr.ReplaceLength` | backend/oauth.py:91 | replacing a character by `t` grows the string by `|t| - 1` per occurrence |
| `PyStr.ReplaceRemoves` | backend/oauth.py:91 | when the replacement does not contain the character, no occurrence survives |
| `PyStr.ReplaceAbsent` | backend/oauth.py:91 | a string without the character is unchanged |
| `PyStr.Join` | backend/oauth.py:85 | `"%20".join(scope)`: empty for no scopes, otherwise the total length of the scopes plus one separator between each pair, starting with the first scope |
| `PyStr.JoinAppend` | backend/oauth.py:85 | joining two non-empty lists gives the two joins with one separator between them, which pins where every scope and separator goes |
| `Http.Get` | backend/oauth.py:165 | `mapping.get(key)`: a value exactly when the key is present, and then the stored value |
| `Http.GetOr` | backend/oauth.py:172 | `mapping.get(key, default)`: the stored value when present, the default otherwise |
| `OAuthUrls.AuthorizeQuery` | backend/oauth.py:83-88 | the authorize query asks for `response_type=code` with the client id and the given redirect URI, and its scope is the scopes joined by `%20` (a single scope as is, none as the empty string) |
| `OAuthUrls.EscapeQuery` | backend/oauth.py:90-91 | the rewrite of the provider's URL; its contract is carried by `EscapeQueryWithMark` and `EscapeQueryWithoutMark` |
| `OAuthUrls.EscapeQueryWithMark` | backend/oauth.py:90-91 | with a `?` at index i: the text before i is unchanged, the rest is the tail with every `/` turned into `%2F`, it still starts with `?`, holds no `/`, and the URL grows by 2 per replaced slash |
| `OAuthUrls.EscapeQueryWithoutMark` | backend/oauth.py:90-91 | without a `?` (`find` gives -1), only the last character is rewritten: a trailing `/` becomes `%2F`, any other URL (and the empty one) is returned unchanged |
| `OAuthUrls.WithState` | backend/oauth.py:92 | the URL is kept as a prefix; `&state=<state>` is appended exactly when the state is truthy (present and non-empty), otherwise the URL is returned unchanged |
| `OAuthUrls.CacheGet` | backend/oauth.py:82 | the cache lookup yields a URL only for a present key holding one; a missing key and a reset key both give `None` |
| `OAuthUrls.AuthorizeUrl` | backend/oauth.py:82-92 | the result of `get_url` for a cache; its contract is carried by `AuthorizeUrlCached`, `AuthorizeUrlFetched` and `DiscordOAuth.GetUrl` |
| `OAuthUrls.AuthorizeUrlCached` | backend/oauth.py:82-92 | a cached URL is used verbatim followed by the state suffix (`WithState` of the cached value), and the provider's answer plays no part in the result |
| `OAuthUrls.AuthorizeUrlFetched` | backend/oauth.py:82-91 | on a cache miss the provider's error is passed on (nothing in `get_url` catches it), and its answer is used after the rewrite, followed by the state suffix |
| `OAuthUrls.MakeBaseUrl` | backend/oauth.py:132-134 | the base URL is the scheme, then `://`, then the host |
| `OAuthUrls.MakeUrl` | backend/oauth.py:136-138 | the URL is the request's base URL followed by the path |
| `OAuthUrls.MakeUrlDetermines` | backend/oauth.py:132-138 | for a scheme without `:`, the first `:` of the built URL ends the scheme, and one request gives equal URLs only for equal paths |
| `OAuthGuard.Endpoint` | backend/oauth.py:34 | every provider call goes to a URL under `https://discord.com/api/v8/` |
| `OAuthGuard.RequireLogin` | backend/oauth.py:214-225 | the built-in generator (checker) is installed exactly when the option is the `"default"` sentinel; a caller's callable is dropped like `None`; `force` and `scope` pass through; defaults are `False`, `("identify",)`, `"default"`, `"default"` |
| `OAuthGuard.Status` | backend/oauth.py:162-199 | every non-handled outcome has one of the codes 503, 403, 400, 500, 302, a missing checker and a failed authorize request 500, and a handled one the handler's own status; which code each case gets is stated by the `Route*` lemmas (503 `RouteNotReady`, 403 `RouteStateRejected`, 500 `RouteCheckerMissing` and `RouteRedirects`, 400 `RouteProviderFails`, 302 `RouteRedirects`) |
| `OAuthGuard.StateGenerator` | backend/oauth.py:140-145 | the default state: `host + ip` encrypted with the hex converter; its contract is carried by `StateBindsOrigin` and `StateOriginAmbiguous` |
| `OAuthGuard.StateChecker` | backend/oauth.py:147-154 | the check passes exactly when the state decrypts (hex) to `host + ip` of the request; a state that does not decrypt fails the check instead of raising |
| `OAuthGuard.GetUserCookie` | backend/oauth.py:119-126 | no user exactly when the cookie does not decrypt; otherwise the bot's lookup of the id the cookie carries |
| `OAuthGuard.SessionCookie` | backend/oauth.py:128-130 | the encrypted `{id, name}` of a user with the default converter; its use is stated by `RouteCallbackSucceeds` |
| `OAuthGuard.TokenQuery` | backend/oauth.py:94-105 | the token request is an `authorization_code` grant with the client credentials, the query's `code` and this request's own URL as redirect URI |
| `OAuthGuard.Route` | backend/oauth.py:160-211 | the guard's decision for one request; its contract is carried by the `Route*` lemmas, `RouteHandlesExactly`, `RedirectUriAgrees`, `CustomGeneratorDisablesCheck` and `DiscordOAuth.NewRoute` |
| `OAuthGuard.RouteNotReady` | backend/oauth.py:162-163 | before the bot is ready every request fails with 503, ahead of every other branch, with no provider call |
| `OAuthGuard.RoutePassThrough` | backend/oauth.py:165-167 | a non-empty session cookie or force mode runs the handler with the cookie's lookup (`GetUserCookie`; `None` when it does not decrypt) or `None` without a cookie, makes no provider call and writes no cookie |
| `OAuthGuard.RouteStateRejected` | backend/oauth.py:168-176 | a callback whose `state` (default `""`) fails the built-in check is refused with 403 before any provider call, and the handler does not run |
| `OAuthGuard.RouteCheckerMissing` | backend/oauth.py:170-172 | with the built-in generator but no checker, a callback fails with 500 before any provider call |
| `OAuthGuard.RouteCallbackSucceeds` | backend/oauth.py:177-209 | a successful callback calls the token endpoint and then the user endpoint, runs the handler with the fetched user, and adds exactly one cookie, `session`, set to the encrypted `{id, name}`; everything else in the response is the handler's |
| `OAuthGuard.RouteProviderFails` | backend/oauth.py:178-188 | a provider error gives 400 carrying that error: a failed token request is the only call; a failed user request follows the successful token call; the handler does not run |
| `OAuthGuard.RouteRedirects` | backend/oauth.py:191-199 | with no cookie, no force and no query, the answer is a redirect to the authorize URL for the request's own URL, with a state exactly when the built-in generator is installed, or 500 with the provider's error when the authorize request fails; the provider is asked only on a cache miss, and the handler does not run |
| `OAuthGuard.RouteHandlesExactly` | backend/oauth.py:160-211 | the handler runs if and only if the bot is ready and the request has a session cookie, is forced, or is a callback that passes the configured state check and both provider calls |
| `OAuthGuard.RouteCallbackNeedsState` | backend/oauth.py:170-176 | with the built-in generator and checker, a handled callback always carries a state that decrypts to its own `host + ip` |
| `OAuthGuard.RedirectUriAgrees` | backend/oauth.py:181-193 | the redirect URI sent when login starts equals the one sent with the code on a callback to the same scheme, host and path |
| `OAuthGuard.StateBindsOrigin` | backend/oauth.py:140-154 | for a cipher that decrypts what it encrypted, the built-in checker accepts the built-in generator's state exactly when both requests give the same `host + ip` text |
| `OAuthGuard.StateOriginAmbiguous` | backend/oauth.py:143-150 | because host and address are joined without a separator, a state issued to host `site.com:80` at `12.3.4.5` passes the check for host `site.com:801` at `2.3.4.5` |
| `OAuthGuard.CustomGeneratorDisablesCheck` | backend/oauth.py:216-225 | with a caller's own generator, a callback is handled whenever both provider calls succeed, whatever its `state`, and a login redirect carries no state |
| `OAuthClient.DiscordOAuth.constructor` | backend/oauth.py:41-48 | a new helper keeps its credentials, is not ready, and has an empty redirect cache |
| `OAuthClient.DiscordOAuth.GetRedirectOAuth` | backend/oauth.py:64-66 | the cached authorize URL for a key, `None` for a missing or reset key |
| `OAuthClient.DiscordOAuth.ResetOAuth` | backend/oauth.py:68-70 | afterwards the key is present and maps to `None`, so the lookup gives `None`; the key set gains only that key; every other key keeps its value |
| `OAuthClient.DiscordOAuth.ResetAllOAuth` | backend/oauth.py:72-75 | the key set is unchanged and every key maps to `None` |
| `OAuthClient.DiscordOAuth.GetUrl` | backend/oauth.py:77-92 | the result is `AuthorizeUrl` of the current cache (the URL, or the authorize request's uncaught error); the authorize query is sent exactly on a cache miss, and always while no entry holds a URL; the method cannot write the cache (it has no `modifies` clause) |
| `OAuthClient.DiscordOAuth.NewRoute` | backend/oauth.py:156-212 | the route's answer and provider calls are those of `Route`, and the request context holds the answered user when the handler ran and is untouched otherwise |

## Left out

- Network I/O is not modelled: the aiohttp session and the HTTP round trips to the authorize, token and user endpoints. Each round trip is a function parameter giving its result. The authorize call gives the URL the provider redirected to, the token call the access token, the user call the user; each gives the `ClientResponseError` text instead when the provider answers with an error status. The token and user errors are caught (400); the authorize error is not, and the framework answers it with 500.
- reprypt's cipher is a pair of parameters, `encrypt` and `decrypt`. No round trip between them is assumed. `StateBindsOrigin` takes it as a hypothesis.
- JSON serialisation (`ujson.dumps`/`loads`) is left out. So are the uncaught failures of `int(...)`, `loads(...)` and `["id"]` in `get_user_cookie`, and the `KeyError` for a token answer without `access_token`: these are foreign code, and their exceptions propagate unhandled.
- Discord's `User` construction and `bot.fetch_user` are given as results, and the lookup's own failures are left out: both are foreign calls.
- The startup hook is left out: it is lifecycle plumbing. It sets `bot`; its `setattr(self, "loop", ...)` is never reached, because the first `setattr` returns `None` and the `and` stops there, so `loop` stays `None`. Readiness is the `bot` field being `None` or not.
- The default `secret_key` derived from the clock and a random number is left out: it is nondeterministic. The constructor takes the key.
- Concurrency is left out: the async suspension points and the interleaving of requests. Each request's dispatch is one atomic step.
- Python dict order is not modelled. The cache is a map, and `ResetAllOAuth` resets the keys of its snapshot in an unspecified order, with the same result.
- The framework's request and response objects are reduced to the fields the guard uses:
  - query arguments are a map from each key to its first value;
  - the response's cookie write is an update of a response value, not of a shared object.
- The wrapped handler is a function of the request and the user in context. It cannot raise, and it cannot change `ctx.user` before the cookie is written. Extra positional and keyword arguments and `functools.wraps` are not modelled.
- The human-readable error messages are not modelled: outcomes carry only their kind and the provider's error text.
