/** The response pieces the card handlers (api/index.js, api/top-langs.js) share: the query,
    the locale check, the 400 card, the cached success card and the 500 error card.
    The renderers, the translations and `src/common/error.js` are not part of this model:
    a rendered card is represented by the data handed to the renderer. */
module CardApi {
  import opened Wrappers
  import opened JsNumber
  import opened Envs
  import opened Http
  import opened Cache
  import opened Access

  /** `Object.fromEntries(url.searchParams.entries())`: every value is a string. */
  type Query = map<string, string>

  /** `query[name]`, `undefined` when the parameter is absent. */
  function Param(query: Query, name: string): Option<string> {
    Lookup(query, name)
  }

  /** An `Error` a fetcher or renderer throws: its message, what `retrieveSecondaryMessage`
      finds on it, and whether it is a `MissingParamError`. */
  datatype JsError = JsError(message: string, secondary: Option<string>, isMissingParam: bool)

  /** A thrown value: an `Error`, or anything else. */
  datatype Thrown = ThrewError(error: JsError) | ThrewValue

  /** What the `try` block's fetch-and-render did: the card's data, or a throw. */
  datatype Attempt<T> = Rendered(card: T) | Threw(thrown: Thrown)

  /** The collaborators of a handler that are not part of this model. */
  datatype Services = Services(
    isLocaleAvailable: string -> bool,
    parseArray: Option<string> -> seq<string>,
    parseBoolean: Option<string> -> Option<bool>,
    blacklist: seq<string>)

  /** The reply, and the request the fetcher received if it was called. */
  datatype Handled<R> = Handled(response: Response, request: Option<R>)

  /** Did the guard turn the username away? */
  predicate Refused(query: Query, env: Env, processEnv: Env, services: Services) {
    GuardAccess(Param(query, "username"), "username", env, processEnv, services.blacklist).value.Blocked?
  }

  /** `locale && !isLocaleAvailable(locale)`. */
  predicate LocaleRejected(locale: Option<string>, isLocaleAvailable: string -> bool) {
    locale.Some? && locale.value != "" && !isLocaleAvailable(locale.value)
  }

  /** A 400 "Something went wrong" card; it carries no cache headers. */
  function BadRequest(secondary: string): Response {
    Response(400, SvgContentType, ErrorCard("Something went wrong", Some(secondary), None))
  }

  /** `{ "Content-Type": "image/svg+xml", ...cacheHeaders }`. */
  function SvgWith(cacheHeaders: Headers): (h: Headers)
    requires "Content-Type" !in cacheHeaders
    ensures "Content-Type" in h && h["Content-Type"] == "image/svg+xml"
    ensures forall k :: k != "Content-Type" ==> (k in h <==> k in cacheHeaders)
    ensures forall k :: k in cacheHeaders ==> h[k] == cacheHeaders[k]
  {
    SvgContentType + cacheHeaders
  }

  /** The seconds a successful card of kind `card` is cached for, given `?cache_seconds=`. */
  function CardCacheSeconds(card: Card, cacheSecondsParam: Option<string>, env: Env, processEnv: Env): int {
    ResolveCacheSeconds(ParseIntOpt(cacheSecondsParam), CardTtl(card), env, processEnv)
  }

  /** The 200 reply: the rendered card with the SVG content type and the card's cache headers. */
  function Success(card: Card, content: string, cacheSecondsParam: Option<string>, env: Env, processEnv: Env)
    : (r: Response)
    ensures r.status == 200 && r.body == Card(content)
    ensures var cache := GetCacheHeaders(CardCacheSeconds(card, cacheSecondsParam, env, processEnv), env, processEnv);
            && "Content-Type" in r.headers && r.headers["Content-Type"] == "image/svg+xml"
            && (forall k :: k != "Content-Type" ==> (k in r.headers <==> k in cache))
            && (forall k :: k in cache ==> r.headers[k] == cache[k])
  {
    var cache := GetCacheHeaders(CardCacheSeconds(card, cacheSecondsParam, env, processEnv), env, processEnv);
    Response(200, SvgWith(cache), Card(content))
  }

  /** The 500 reply of the `catch` block. */
  function ErrorResponse(thrown: Thrown, env: Env, processEnv: Env): (r: Response)
    ensures r.status == 500
    ensures var cache := GetErrorCacheHeaders(env, processEnv);
            && "Content-Type" in r.headers && r.headers["Content-Type"] == "image/svg+xml"
            && (forall k :: k != "Content-Type" ==> (k in r.headers <==> k in cache))
            && (forall k :: k in cache ==> r.headers[k] == cache[k])
    ensures thrown.ThrewError? ==>
              r.body == ErrorCard(thrown.error.message, thrown.error.secondary, Some(!thrown.error.isMissingParam))
    ensures thrown.ThrewValue? ==> r.body == ErrorCard("An unknown error occurred", None, None)
  {
    var headers := SvgWith(GetErrorCacheHeaders(env, processEnv));
    match thrown
    case ThrewError(e) => Response(500, headers, ErrorCard(e.message, e.secondary, Some(!e.isMissingParam)))
    case ThrewValue => Response(500, headers, ErrorCard("An unknown error occurred", None, None))
  }

  /** The `try`/`catch` tail of a handler: the attempt's card or its error card. */
  function Settle(card: Card, attempt: Attempt<string>, cacheSecondsParam: Option<string>, env: Env, processEnv: Env)
    : (r: Response)
    ensures attempt.Rendered? <==> r.status == 200
    ensures attempt.Rendered? ==> r == Success(card, attempt.card, cacheSecondsParam, env, processEnv)
    ensures attempt.Threw? ==> r == ErrorResponse(attempt.thrown, env, processEnv)
  {
    match attempt
    case Rendered(content) => Success(card, content, cacheSecondsParam, env, processEnv)
    case Threw(thrown) => ErrorResponse(thrown, env, processEnv)
  }

  /** A missing-parameter error hides the repository link; every other error shows it. */
  lemma RepoLinkOnlyForOtherErrors(e: JsError, env: Env, processEnv: Env)
    ensures ErrorResponse(ThrewError(e), env, processEnv).body.showRepoLink == Some(true)
            <==> !e.isMissingParam
  {
  }

  /** An out-of-range `?cache_seconds=` is clamped into the card's range unless
      `CACHE_SECONDS` overrides it, and the card is then cached for that long. */
  lemma SuccessCachedWithinRange(card: Card, content: string, cacheSecondsParam: Option<string>,
                                 env: Env, processEnv: Env)
    requires CacheSecondsOverride(ResolveEnv(env, processEnv)).None?
    requires !IsDevelopment(ResolveEnv(env, processEnv))
    ensures var r := Success(card, content, cacheSecondsParam, env, processEnv);
            var seconds := DirectiveValue(r.headers["Cache-Control"], "max-age");
            && seconds.Some?
            && CardTtl(card).min <= seconds.value <= CardTtl(card).max
            && "Pragma" !in r.headers
  {
    var seconds := CardCacheSeconds(card, cacheSecondsParam, env, processEnv);
    assert seconds >= CardTtl(card).min > 0;
    assert GetCacheHeaders(seconds, env, processEnv) != NoCacheHeaders;
  }
}
