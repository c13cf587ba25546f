/**
 * The string side of the Discord OAuth helper: the provider endpoints, the
 * query sent to the authorize endpoint, the post-processing `get_url`
 * applies to the URL the provider redirects to, the CSRF `state` suffix,
 * and the builders of the application's own callback URL.
 */
module OAuthUrls {
  import opened Common
  import opened PyStr
  import opened Http

  const Base: string := "https://discord.com/api/v8/"
  const AuthorizeEndpoint: string := Base + "oauth2/authorize"
  const TokenEndpoint: string := Base + "oauth2/token"
  const UserEndpoint: string := Base + "users/@me"

  /** Query of the GET to the authorize endpoint. */
  datatype AuthorizeParams = AuthorizeParams(
    responseType: string,
    scope: string,
    clientId: string,
    redirectUri: string)

  /** The authorize query for `redirectUrl`, asking for every scope in `scope`. */
  function AuthorizeQuery(clientId: string, redirectUrl: string, scope: seq<string>): (p: AuthorizeParams)
    ensures p.responseType == "code" && p.clientId == clientId && p.redirectUri == redirectUrl
    ensures scope == [] ==> p.scope == ""
    ensures |scope| == 1 ==> p.scope == scope[0]
    ensures p.scope == Join("%20", scope)
  {
    AuthorizeParams("code", Join("%20", scope), clientId, redirectUrl)
  }

  /**
   * What `get_url` makes of the URL the provider answered with: the text
   * up to the first `?` is kept, and every `/` from there on becomes
   * `%2F`. When there is no `?`, `find` yields -1, which as a slice bound
   * means "the last character".
   */
  function EscapeQuery(url: string): string
  {
    var k := SliceIndex(Find(url, '?'), |url|);
    url[..k] + Replace(url[k..], '/', "%2F")
  }

  /**
   * With a `?` at index `i`, the text before `i` is unchanged, the rest is
   * the escaped tail: it still starts with the `?`, holds no `/`, and is
   * two characters longer for every slash it replaced.
   */
  lemma EscapeQueryWithMark(url: string)
    requires '?' in url
    ensures var i := Find(url, '?');
      var r := EscapeQuery(url);
      && |r| == |url| + 2 * Count(url[i..], '/')
      && r[..i] == url[..i]
      && r[i..] == Replace(url[i..], '/', "%2F")
      && r[i] == '?'
      && '/' !in r[i..]
  {
    var i := Find(url, '?');
    assert SliceIndex(i, |url|) == i;
    var tail := url[i..];
    var escaped := Replace(tail, '/', "%2F");
    assert EscapeQuery(url) == url[..i] + escaped;
    ReplaceLength(tail, '/', "%2F");
    ReplaceRemoves(tail, '/', "%2F");
    assert tail[0] == '?';
    assert escaped == [tail[0]] + Replace(tail[1..], '/', "%2F");
  }

  /**
   * Without a `?`, only the last character is subject to the rewrite: a
   * trailing `/` becomes `%2F` and any other URL is returned as it is.
   */
  lemma EscapeQueryWithoutMark(url: string)
    requires '?' !in url
    ensures url == [] ==> EscapeQuery(url) == []
    ensures url != [] && url[|url| - 1] == '/' ==> EscapeQuery(url) == url[..|url| - 1] + "%2F"
    ensures url != [] && url[|url| - 1] != '/' ==> EscapeQuery(url) == url
    ensures '/' !in url ==> EscapeQuery(url) == url
  {
    if url != [] {
      var n := |url|;
      assert SliceIndex(Find(url, '?'), n) == n - 1;
      assert url[n - 1..] == [url[n - 1]];
      assert Replace([url[n - 1]], '/', "%2F") == (if url[n - 1] == '/' then "%2F" else [url[n - 1]]) + Replace([], '/', "%2F");
      if url[n - 1] != '/' {
        assert url[..n - 1] + [url[n - 1]] == url;
      }
    }
  }

  /** The suffix `get_url` appends: `&state=<state>` when `state` is truthy. */
  function WithState(url: string, state: Option<string>): (r: string)
    ensures |url| <= |r| && r[..|url|] == url
    ensures r == url <==> !Truthy(state)
    ensures Truthy(state) ==> r[|url|..] == "&state=" + state.value
  {
    url + if Truthy(state) then "&state=" + state.value else ""
  }

  /** `dict.get(url)` on the redirect cache: a missing key and a reset key both give `None`. */
  function CacheGet(cache: map<string, Option<string>>, url: string): (r: Option<string>)
    ensures r.Some? <==> url in cache && cache[url].Some?
    ensures r.Some? ==> r == cache[url]
  {
    if url in cache then cache[url] else None
  }

  /**
   * The URL `get_url` returns: the cached value when there is one, else the
   * provider's answer to the authorize query rewritten by `EscapeQuery`;
   * then the state suffix. `authorize` yields `Err` where the HTTP client
   * raises `ClientResponseError`, which `get_url` lets through.
   */
  function AuthorizeUrl(
    cache: map<string, Option<string>>, clientId: string, redirectUrl: string,
    scope: seq<string>, state: Option<string>, authorize: AuthorizeParams -> Result<string, string>): Result<string, string>
  {
    match CacheGet(cache, redirectUrl)
    case Some(cached) => Ok(WithState(cached, state))
    case None =>
      match authorize(AuthorizeQuery(clientId, redirectUrl, scope))
      case Err(e) => Err(e)
      case Ok(answer) => Ok(WithState(EscapeQuery(answer), state))
  }

  /** A cached entry is used verbatim: the provider's answer plays no part. */
  lemma AuthorizeUrlCached(
    cache: map<string, Option<string>>, clientId: string, redirectUrl: string,
    scope: seq<string>, state: Option<string>, authorize: AuthorizeParams -> Result<string, string>)
    requires redirectUrl in cache && cache[redirectUrl].Some?
    ensures var r := AuthorizeUrl(cache, clientId, redirectUrl, scope, state, authorize);
      && r.Ok?
      && |cache[redirectUrl].value| <= |r.value|
      && r.value[..|cache[redirectUrl].value|] == cache[redirectUrl].value
      && (r.value == cache[redirectUrl].value <==> !Truthy(state))
      && r == Ok(WithState(cache[redirectUrl].value, state))
    ensures forall other: AuthorizeParams -> Result<string, string> ::
      AuthorizeUrl(cache, clientId, redirectUrl, scope, state, other)
        == AuthorizeUrl(cache, clientId, redirectUrl, scope, state, authorize)
  {
  }

  /**
   * On a cache miss the provider decides: its error is passed on, and its
   * answer is used after `EscapeQuery`, followed by the state suffix.
   */
  lemma AuthorizeUrlFetched(
    cache: map<string, Option<string>>, clientId: string, redirectUrl: string,
    scope: seq<string>, state: Option<string>, authorize: AuthorizeParams -> Result<string, string>)
    requires CacheGet(cache, redirectUrl).None?
    ensures var r := AuthorizeUrl(cache, clientId, redirectUrl, scope, state, authorize);
      var answer := authorize(AuthorizeQuery(clientId, redirectUrl, scope));
      && (r.Err? <==> answer.Err?)
      && (answer.Err? ==> r.error == answer.error)
      && (answer.Ok? ==> r.value == WithState(EscapeQuery(answer.value), state))
  {
  }

  /** `make_base_url`: `<scheme>://<host>`. */
  function MakeBaseUrl(req: Request): (r: string)
    ensures |r| == |req.scheme| + 3 + |req.host|
    ensures r[..|req.scheme|] == req.scheme && r[|req.scheme|..|req.scheme| + 3] == "://"
    ensures r[|req.scheme| + 3..] == req.host
  {
    req.scheme + "://" + req.host
  }

  /** `make_url`: the base URL of the request followed by `path`. */
  function MakeUrl(req: Request, path: string): (r: string)
    ensures |r| == |MakeBaseUrl(req)| + |path|
    ensures r[..|MakeBaseUrl(req)|] == MakeBaseUrl(req)
    ensures r[|MakeBaseUrl(req)|..] == path
  {
    MakeBaseUrl(req) + path
  }

  /**
   * The URL built for a request determines its parts: with a scheme free
   * of `:`, the scheme is everything before the first `:`, and for one
   * request two paths give the same URL only when they are equal.
   */
  lemma MakeUrlDetermines(req: Request, path: string, other: string)
    requires ':' !in req.scheme
    ensures Find(MakeUrl(req, path), ':') == |req.scheme|
    ensures MakeUrl(req, path) == MakeUrl(req, other) ==> path == other
  {
    var u := MakeUrl(req, path);
    var n := |req.scheme|;
    assert u[..n] == req.scheme;
    assert u[n] == ':';
  }
}
